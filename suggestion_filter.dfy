/** The line filter that turns a language-model reply into follow-up
    question suggestions: each line is stripped, cleaned of list markers
    and kept when it reads as a short question. */
module SuggestionFilter {
  import opened Text

  /** The characters `lstrip` removes from the front of a reply line. */
  const PrefixChars: set<char> := {'-', ' ', '•', '1', '2', '3', '4', '5', '6', '7', '8', '9', '.', '(', ')'}

  /** Words that mark a line as a question even without `?`. */
  const QuestionMarkers: seq<string> :=
    ["như thế nào", "là gì", "có", "được", "thể", "nào", "sao", "bao nhiêu", "khi nào", "ở đâu"]

  /** A suggestion worth offering: non-empty, at most 50 characters, and a
      question by its mark or by a question word. */
  predicate Acceptable(s: string) {
    0 < |s| <= 50 && (Contains(s, "?") || ContainsAny(Lower(s), QuestionMarkers))
  }

  /** What one reply line contributes: its cleaned form when the stripped
      line is longer than 8 characters and the cleaned form is acceptable. */
  function LineSuggestion(line: string): (r: Option<string>)
    ensures r.Some? ==> Acceptable(r.value)
  {
    var stripped := Strip(line);
    if |stripped| > 8 then
      var cleaned := LStripChars(stripped, PrefixChars);
      if Acceptable(cleaned) then Some(cleaned) else None
    else None
  }

  function Views(lines: seq<string>): (r: seq<Option<string>>)
    ensures |r| == |lines| && forall i :: 0 <= i < |lines| ==> r[i] == LineSuggestion(lines[i])
  {
    seq(|lines|, i requires 0 <= i < |lines| => LineSuggestion(lines[i]))
  }

  /** The present entries, in order. */
  function Present(views: seq<Option<string>>): (r: seq<string>)
    ensures |r| <= |views|
  {
    if |views| == 0 then []
    else
      var last := views[|views| - 1];
      Present(views[..|views| - 1]) + (if last.Some? then [last.value] else [])
  }

  /** Every present entry is acceptable when every view that holds one is. */
  lemma {:induction false} PresentAcceptable(views: seq<Option<string>>)
    requires forall k :: 0 <= k < |views| && views[k].Some? ==> Acceptable(views[k].value)
    ensures forall i :: 0 <= i < |Present(views)| ==> Acceptable(Present(views)[i])
    decreases |views|
  {
    if |views| > 0 {
      PresentAcceptable(views[..|views| - 1]);
    }
  }

  lemma {:induction false} PresentAppend(a: seq<Option<string>>, b: seq<Option<string>>)
    ensures Present(a + b) == Present(a) + Present(b)
    decreases |b|
  {
    if |b| > 0 {
      var initB := b[..|b| - 1];
      assert (a + b)[..|a + b| - 1] == a + initB;
      PresentAppend(a, initB);
    } else {
      assert a + b == a;
    }
  }

  /** The suggestions a reply's lines yield, in reply order. */
  function Candidates(lines: seq<string>): (r: seq<string>)
    ensures forall i :: 0 <= i < |r| ==> Acceptable(r[i])
  {
    PresentAcceptable(Views(lines));
    Present(Views(lines))
  }

  /** Once four entries are found, later views do not change the first four. */
  lemma FourFoundSuffice(views: seq<Option<string>>, i: nat)
    requires i <= |views| && |Present(views[..i])| >= 4
    ensures Take(Present(views), 4) == Take(Present(views[..i]), 4)
  {
    var a, b := views[..i], views[i..];
    PresentAppend(a, b);
    assert a + b == views;
    var pa, pb := Present(a), Present(b);
    assert (pa + pb)[..4] == pa[..4];
  }

  /** The lines of a reply. */
  function ReplyLines(content: string): seq<string> {
    SplitOn(Strip(content), '\n')
  }

  lemma EndsWithQuestionMark(s: string)
    requires |s| > 0 && s[|s| - 1] == '?'
    ensures Contains(s, "?")
  {
    assert OccursAt(s, "?", |s| - 1);
    ContainsIff(s, "?");
  }

  /** A scan that stopped at `i`, either at the end or with four found,
      has found the first four of all the present entries. */
  lemma ScanComplete(views: seq<Option<string>>, i: nat)
    requires i <= |views|
    requires i < |views| ==> |Present(views[..i])| >= 4
    ensures Take(Present(views), 4) == Take(Present(views[..i]), 4)
  {
    if i < |views| {
      FourFoundSuffice(views, i);
    } else {
      assert views[..i] == views;
    }
  }
}
