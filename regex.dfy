/** The fragment of Python regular expressions used by the query
    classifier: a pattern is a sequence of literal words, `\s+` and `\w+`,
    and `re.search` asks whether the pattern matches anywhere in the text.
    Backtracking is modelled by trying every way a `+` run can end. */
module Regex {
  import opened Text

  datatype CharClass = Space | Word

  /** One pattern element: a literal, or one or more characters of a class. */
  datatype Atom = Lit(text: string) | Plus(cls: CharClass)

  /** Python's `\w` on the scripts the classifier sees: ASCII letters and
      digits, `_`, the Latin-1 and Latin Extended letters and the
      Vietnamese precomposed letters. */
  predicate IsWordChar(c: char) {
    var n := c as int;
    ('a' <= c <= 'z') || ('A' <= c <= 'Z') || ('0' <= c <= '9') || c == '_'
    || (0xC0 <= n <= 0x24F && n != 0xD7 && n != 0xF7)
    || (0x1EA0 <= n <= 0x1EFF)
  }

  predicate InClass(cls: CharClass, c: char) {
    match cls
    case Space => IsSpace(c)
    case Word => IsWordChar(c)
  }

  /** Some prefix of `s` matches `pat` (Python `re.match`). */
  predicate MatchPrefix(s: string, pat: seq<Atom>)
    decreases |s|, |pat|
  {
    if |pat| == 0 then true
    else match pat[0]
      case Lit(w) => IsPrefix(w, s) && MatchPrefix(s[|w|..], pat[1..])
      case Plus(cls) =>
        |s| > 0 && InClass(cls, s[0]) &&
        (MatchPrefix(s[1..], pat[1..]) || MatchPrefix(s[1..], pat))
  }

  /** `re.search(pat, s)` is truthy: a match starts at some position. */
  predicate Search(s: string, pat: seq<Atom>)
    decreases |s|
  {
    MatchPrefix(s, pat) || (|s| > 0 && Search(s[1..], pat))
  }

  /** A search that succeeds finds its match at some index. */
  lemma {:induction false} SearchFindsIndex(s: string, pat: seq<Atom>)
    ensures Search(s, pat) <==> exists i :: 0 <= i <= |s| && MatchPrefix(s[i..], pat)
    decreases |s|
  {
    if |s| > 0 {
      SearchFindsIndex(s[1..], pat);
      forall i | 0 <= i <= |s[1..]| && MatchPrefix(s[1..][i..], pat)
        ensures MatchPrefix(s[i + 1..], pat)
      {
        assert s[1..][i..] == s[i + 1..];
      }
      forall i | 1 <= i <= |s| && MatchPrefix(s[i..], pat)
        ensures MatchPrefix(s[1..][i - 1..], pat)
      {
        assert s[1..][i - 1..] == s[i..];
      }
    }
    assert s[0..] == s;
  }

  /** A pattern made of one literal is found exactly where the literal occurs. */
  lemma {:induction false} LiteralSearch(s: string, w: string)
    ensures Search(s, [Lit(w)]) <==> Contains(s, w)
    decreases |s|
  {
    assert [Lit(w)][1..] == [];
    assert MatchPrefix(s, [Lit(w)]) <==> IsPrefix(w, s);
    if |s| > 0 {
      LiteralSearch(s[1..], w);
    }
  }
}
