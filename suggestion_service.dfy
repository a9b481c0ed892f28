/** Follow-up question suggestions: the conversation is summarised for the
    language model, the model's reply is filtered line by line into at
    most four short questions, and keyword rules supply suggestions when
    the model is unavailable or fails. The model call itself is outside
    the model: its reply, or its absence, is a parameter. */
module Suggestions {
  import opened Text
  import opened SuggestionFilter

  /** One message as the caller hands it over; either key may be missing. */
  datatype ChatEntry = ChatEntry(role: Option<string>, content: Option<string>)

  function ContentOf(m: ChatEntry): string {
    if m.content.Some? then m.content.value else ""
  }

  predicate IsUser(m: ChatEntry) {
    m.role == Some("user")
  }

  const NewConversationContext: string := "Cuộc trò chuyện mới về tư vấn tuyển sinh."

  const DefaultSuggestions: seq<string> :=
    ["Điều kiện đầu vào?", "Quy trình nộp hồ sơ?", "Học phí và học bổng?", "Cơ hội việc làm?"]
  const ITSuggestions: seq<string> :=
    ["Môn học CNTT?", "Việc làm IT?", "Học phí bao nhiêu?", "Điểm chuẩn?"]
  const TourismSuggestions: seq<string> :=
    ["Chương trình Du lịch?", "Thực tập ở đâu?", "Yêu cầu ngoại ngữ?", "Cơ hội nghề nghiệp?"]
  const EconomicsSuggestions: seq<string> :=
    ["Chuyên ngành Kinh tế?", "Thực tập doanh nghiệp?", "Lương khởi điểm?", "Điều kiện đầu vào?"]

  const ITKeywords: seq<string> := ["cntt", "it", "công nghệ thông tin", "lập trình"]
  const TourismKeywords: seq<string> := ["du lịch", "tourism", "ngoại ngữ"]
  const EconomicsKeywords: seq<string> := ["kinh tế", "quản trị", "marketing"]

  /** One line of the conversation summary. */
  function ContextLine(m: ChatEntry): string {
    (if IsUser(m) then "Người dùng" else "Tư vấn viên") + ": " + ContentOf(m)
  }

  function ContextLines(msgs: seq<ChatEntry>): (r: seq<string>)
    ensures |r| == |msgs| && forall i :: 0 <= i < |msgs| ==> r[i] == ContextLine(msgs[i])
  {
    seq(|msgs|, i requires 0 <= i < |msgs| => ContextLine(msgs[i]))
  }

  /** `_build_context`: a fixed sentence for no messages, otherwise one
      line per message of the last five, joined by newlines. */
  method BuildContext(recent: seq<ChatEntry>) returns (context: string)
    ensures |recent| == 0 ==> context == NewConversationContext
    ensures |recent| > 0 ==> context == Join(ContextLines(PyTail(recent, 5)), "\n")
  {
    if |recent| == 0 {
      return NewConversationContext;
    }
    var window := PyTail(recent, 5);
    var parts: seq<string> := [];
    for i := 0 to |window|
      invariant parts == ContextLines(window[..i])
    {
      parts := parts + [ContextLine(window[i])];
    }
    assert window[..|window|] == window;
    context := Join(parts, "\n");
  }

  /** Messages before the last five do not change the context. */
  lemma ContextUsesLastFive(older: seq<ChatEntry>, recent: seq<ChatEntry>)
    requires |recent| >= 5
    ensures PyTail(older + recent, 5) == PyTail(recent, 5)
  {
    assert (older + recent)[|older + recent| - 5..] == recent[|recent| - 5..];
  }

  /** Every default suggestion is itself acceptable. */
  lemma DefaultsAcceptable()
    ensures forall i :: 0 <= i < |DefaultSuggestions| ==> Acceptable(DefaultSuggestions[i])
  {
    forall i | 0 <= i < |DefaultSuggestions|
      ensures Acceptable(DefaultSuggestions[i])
    {
      EndsWithQuestionMark(DefaultSuggestions[i]);
    }
  }

  /** The scan of `_parse_suggestions` over the reply lines: lines are
      tried in order and the scan stops at the fourth suggestion found. */
  method CollectSuggestions(lines: seq<string>) returns (found: seq<string>, i: nat)
    ensures i <= |lines| && found == Present(Views(lines)[..i])
    ensures i < |lines| ==> |found| >= 4
  {
    ghost var views := Views(lines);
    found := [];
    i := 0;
    while i < |lines| && |found| < 4
      invariant 0 <= i <= |lines|
      invariant found == Present(views[..i])
    {
      assert views[..i + 1] == views[..i] + [views[i]];
      PresentAppend(views[..i], [views[i]]);
      var suggestion := LineSuggestion(lines[i]);
      if suggestion.Some? {
        found := found + [suggestion.value];
      }
      i := i + 1;
    }
  }

  /** `_parse_suggestions`: the first four suggestions of the reply's
      lines; with none, the defaults. */
  method ParseSuggestions(responseContent: string) returns (suggestions: seq<string>)
    ensures var c := Candidates(ReplyLines(responseContent));
      suggestions == if |c| > 0 then Take(c, 4) else DefaultSuggestions
    ensures 1 <= |suggestions| <= 4
    ensures forall i :: 0 <= i < |suggestions| ==> Acceptable(suggestions[i])
  {
    var lines := ReplyLines(responseContent);
    var found, stop := CollectSuggestions(lines);
    ScanComplete(Views(lines), stop);
    assert Candidates(lines) == Present(Views(lines));
    if |found| > 0 {
      suggestions := Take(found, 4);
    } else {
      DefaultsAcceptable();
      suggestions := DefaultSuggestions;
    }
  }

  /** The content of the newest user message, lower-cased, or `""`. */
  function LastUserContent(msgs: seq<ChatEntry>): string {
    if |msgs| == 0 then ""
    else if IsUser(msgs[|msgs| - 1]) then Lower(ContentOf(msgs[|msgs| - 1]))
    else LastUserContent(msgs[..|msgs| - 1])
  }

  /** `LastUserContent` is `""` without a user message, and otherwise the
      lower-cased content of the user message that no later one follows. */
  lemma {:induction false} LastUserContentSpec(msgs: seq<ChatEntry>)
    ensures (forall i :: 0 <= i < |msgs| ==> !IsUser(msgs[i])) ==> LastUserContent(msgs) == ""
    ensures forall i :: 0 <= i < |msgs| && IsUser(msgs[i]) && (forall j :: i < j < |msgs| ==> !IsUser(msgs[j])) ==>
      LastUserContent(msgs) == Lower(ContentOf(msgs[i]))
  {
    if |msgs| > 0 && !IsUser(msgs[|msgs| - 1]) {
      var init := msgs[..|msgs| - 1];
      LastUserContentSpec(init);
      forall i | 0 <= i < |init| ensures init[i] == msgs[i] {
      }
    }
  }

  /** The keyword rules, tried in order. */
  function KeywordSuggestions(lastUserContent: string): (r: seq<string>)
    ensures ContainsAny(lastUserContent, ITKeywords) ==> r == ITSuggestions
    ensures !ContainsAny(lastUserContent, ITKeywords) && ContainsAny(lastUserContent, TourismKeywords) ==>
      r == TourismSuggestions
    ensures !ContainsAny(lastUserContent, ITKeywords) && !ContainsAny(lastUserContent, TourismKeywords) ==>
      r == if ContainsAny(lastUserContent, EconomicsKeywords) then EconomicsSuggestions else DefaultSuggestions
  {
    if ContainsAny(lastUserContent, ITKeywords) then ITSuggestions
    else if ContainsAny(lastUserContent, TourismKeywords) then TourismSuggestions
    else if ContainsAny(lastUserContent, EconomicsKeywords) then EconomicsSuggestions
    else DefaultSuggestions
  }

  /** `_get_fallback_suggestions`: the defaults for no messages; otherwise
      the last three messages are searched from the newest for a user
      message, whose lower-cased content selects the keyword rule. */
  method GetFallbackSuggestions(recent: seq<ChatEntry>) returns (suggestions: seq<string>)
    ensures |suggestions| == 4
    ensures |recent| == 0 ==> suggestions == DefaultSuggestions
    ensures |recent| > 0 ==> suggestions == KeywordSuggestions(LastUserContent(PyTail(recent, 3)))
  {
    if |recent| == 0 {
      return DefaultSuggestions;
    }
    var window := PyTail(recent, 3);
    var lastUserContent := "";
    var k := |window|;
    assert window[..k] == window;
    while k > 0
      invariant 0 <= k <= |window|
      invariant LastUserContent(window) == LastUserContent(window[..k])
      invariant lastUserContent == ""
    {
      assert window[..k][..k - 1] == window[..k - 1];
      if IsUser(window[k - 1]) {
        lastUserContent := Lower(ContentOf(window[k - 1]));
        break;
      }
      k := k - 1;
    }
    assert lastUserContent == LastUserContent(window);
    suggestions := KeywordSuggestions(lastUserContent);
  }

  /** A user message more than three messages back is never consulted. */
  lemma FallbackLooksAtLastThree(older: seq<ChatEntry>, recent: seq<ChatEntry>)
    requires |recent| >= 3
    ensures LastUserContent(PyTail(older + recent, 3)) == LastUserContent(PyTail(recent, 3))
  {
    assert (older + recent)[|older + recent| - 3..] == recent[|recent| - 3..];
  }

  /** `generate_suggestions`: without a model, or when the model call
      fails (`reply == None`), the fallback; otherwise the parsed reply. */
  method GenerateSuggestions(recent: seq<ChatEntry>, reply: Option<string>) returns (suggestions: seq<string>)
    ensures 1 <= |suggestions| <= 4
    ensures reply.None? ==>
      suggestions == (if |recent| == 0 then DefaultSuggestions else KeywordSuggestions(LastUserContent(PyTail(recent, 3))))
    ensures reply.Some? ==> var c := Candidates(ReplyLines(reply.value));
      suggestions == if |c| > 0 then Take(c, 4) else DefaultSuggestions
  {
    if reply.None? {
      suggestions := GetFallbackSuggestions(recent);
    } else {
      var context := BuildContext(recent);
      suggestions := ParseSuggestions(reply.value);
    }
  }
}
