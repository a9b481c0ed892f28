/** Text helpers shared by the model: substring search, Python slicing,
    whitespace handling, lower-casing, splitting and joining. */
module Text {

  datatype Option<T> = None | Some(value: T)

  /** `p` is a prefix of `s` (`s.startswith(p)`). */
  predicate IsPrefix(p: string, s: string) {
    |p| <= |s| && s[..|p|] == p
  }

  /** `p` is a suffix of `s` (`s.endswith(p)`). */
  predicate IsSuffix(p: string, s: string) {
    |p| <= |s| && s[|s| - |p|..] == p
  }

  /** A concatenation starts with its left part and ends with its right part. */
  lemma ConcatEnds(a: string, b: string)
    ensures IsPrefix(a, a + b) && IsSuffix(b, a + b)
  {
    assert (a + b)[..|a|] == a;
    assert (a + b)[|a + b| - |b|..] == b;
  }

  /** Concatenation of strings regroups freely. */
  lemma AppendAssoc(x: string, y: string, z: string)
    ensures (x + y) + z == x + (y + z)
  {
  }

  /** A text framed by `a` and `b` starts with `a` and ends with `b`. */
  lemma Framed(a: string, m: string, b: string)
    ensures IsPrefix(a, a + m + b) && IsSuffix(b, a + m + b)
  {
    ConcatEnds(a, m + b);
    ConcatEnds(a + m, b);
    AppendAssoc(a, m, b);
  }

  /** A non-empty sequence is its front followed by its last element. */
  lemma SnocSplit<T>(s: seq<T>)
    requires |s| > 0
    ensures s == s[..|s| - 1] + [s[|s| - 1]]
    ensures multiset(s) == multiset(s[..|s| - 1]) + multiset{s[|s| - 1]}
  {
    assert s == s[..|s| - 1] + [s[|s| - 1]];
  }

  /** The elements of a sequence are those before `k` and those from `k`. */
  lemma SplitAt<T>(s: seq<T>, k: nat)
    requires k <= |s|
    ensures multiset(s) == multiset(s[..k]) + multiset(s[k..])
    ensures multiset(s) - multiset(s[..k]) == multiset(s[k..])
  {
    assert s == s[..k] + s[k..];
  }

  /** `"".join(parts)`: the strings of `parts` one after another. */
  function Concat(parts: seq<string>): string {
    if |parts| == 0 then "" else Concat(parts[..|parts| - 1]) + parts[|parts| - 1]
  }

  /** Concatenating two lists of strings concatenates their texts. */
  lemma {:induction false} ConcatAppend(xs: seq<string>, ys: seq<string>)
    ensures Concat(xs + ys) == Concat(xs) + Concat(ys)
    decreases |ys|
  {
    if |ys| == 0 {
      assert xs + ys == xs;
    } else {
      var init, last := ys[..|ys| - 1], ys[|ys| - 1];
      assert (xs + ys)[..|xs + ys| - 1] == xs + init;
      ConcatAppend(xs, init);
      var x, y := Concat(xs), Concat(init);
      assert (x + y) + last == x + (y + last);
    }
  }

  /** `sub in s` for Python strings, `s.includes(sub)` for JavaScript ones. */
  predicate Contains(s: string, sub: string)
    decreases |s|
  {
    IsPrefix(sub, s) || (|s| > 0 && Contains(s[1..], sub))
  }

  /** A slice of a slice is a slice of the whole. */
  lemma SliceOfSlice<T>(s: seq<T>, lo: nat, hi: nat, i: nat, j: nat)
    requires lo <= hi <= |s| && i <= j <= hi - lo
    ensures s[lo..hi][i..j] == s[lo + i..lo + j]
  {
    var inner := s[lo..hi];
    forall k | 0 <= k < j - i
      ensures inner[i..j][k] == s[lo + i..lo + j][k]
    {
      assert inner[i..j][k] == inner[i + k] == s[lo + i + k];
    }
  }

  /** `sub` occurs in `s` starting at index `i`. */
  predicate OccursAt(s: string, sub: string, i: nat) {
    i + |sub| <= |s| && s[i..i + |sub|] == sub
  }

  /** `Contains` is exactly "occurs at some index". */
  lemma {:induction false} ContainsIff(s: string, sub: string)
    ensures Contains(s, sub) <==> exists i: nat :: OccursAt(s, sub, i)
    decreases |s|
  {
    if |s| > 0 {
      ContainsIff(s[1..], sub);
      forall i: nat | OccursAt(s[1..], sub, i) ensures OccursAt(s, sub, i + 1) {
        SliceOfSlice(s, 1, |s|, i, i + |sub|);
      }
      forall i: nat | OccursAt(s, sub, i) && i > 0 ensures OccursAt(s[1..], sub, i - 1) {
        SliceOfSlice(s, 1, |s|, i - 1, i - 1 + |sub|);
      }
    }
    if IsPrefix(sub, s) {
      assert OccursAt(s, sub, 0);
    }
  }

  /** Python `any(w in s for w in words)`. */
  /** Every character of a word that occurs in `s` is a character of `s`;
      so a word holding a character that `s` lacks does not occur in it. */
  lemma ContainedWordChars(s: string, w: string, i: nat)
    requires i < |w|
    ensures Contains(s, w) ==> w[i] in s
  {
    if Contains(s, w) {
      ContainsIff(s, w);
      var j: nat :| OccursAt(s, w, j);
      assert s[j..j + |w|][i] == s[j + i];
    }
  }

  predicate ContainsAny(s: string, words: seq<string>) {
    exists i :: 0 <= i < |words| && Contains(s, words[i])
  }

  /** No word of `words` occurs in `s` when each holds, at the position
      `marks` gives, a character that `s` lacks. */
  lemma NoWordOccurs(s: string, words: seq<string>, marks: seq<nat>)
    requires |marks| == |words|
    requires forall k :: 0 <= k < |words| ==> marks[k] < |words[k]| && words[k][marks[k]] !in s
    ensures !ContainsAny(s, words)
  {
    forall k | 0 <= k < |words| ensures !Contains(s, words[k]) {
      ContainedWordChars(s, words[k], marks[k]);
    }
  }

  /** A word of either list occurs exactly when a word of the joined list does. */
  lemma ContainsAnyAppend(s: string, a: seq<string>, b: seq<string>)
    ensures ContainsAny(s, a + b) <==> ContainsAny(s, a) || ContainsAny(s, b)
  {
    if ContainsAny(s, a + b) {
      var i :| 0 <= i < |a + b| && Contains(s, (a + b)[i]);
      if i < |a| { assert (a + b)[i] == a[i]; } else { assert (a + b)[i] == b[i - |a|]; }
    }
    if ContainsAny(s, a) {
      var i :| 0 <= i < |a| && Contains(s, a[i]);
      assert (a + b)[i] == a[i];
    }
    if ContainsAny(s, b) {
      var i :| 0 <= i < |b| && Contains(s, b[i]);
      assert (a + b)[|a| + i] == b[i];
    }
  }

  /** How many entries of `words` occur in `s` (duplicates counted). */
  function CountContained(s: string, words: seq<string>): (n: nat)
    ensures n <= |words|
    ensures n > 0 <==> ContainsAny(s, words)
  {
    if |words| == 0 then 0
    else
      var rest := CountContained(s, words[1..]);
      assert forall i :: 1 <= i < |words| ==> words[1..][i - 1] == words[i];
      assert ContainsAny(s, words[1..]) ==> ContainsAny(s, words);
      (if Contains(s, words[0]) then 1 else 0) + rest
  }

  /** The count over two lists joined is the sum of their counts. */
  lemma {:induction false} CountContainedConcat(s: string, a: seq<string>, b: seq<string>)
    ensures CountContained(s, a + b) == CountContained(s, a) + CountContained(s, b)
  {
    if |a| > 0 {
      assert (a + b)[0] == a[0] && (a + b)[1..] == a[1..] + b;
      CountContainedConcat(s, a[1..], b);
    } else {
      assert a + b == b;
    }
  }

  /** Counting one more word, as a loop over `words` does. */
  lemma {:induction false} CountContainedAppend(s: string, words: seq<string>, w: string)
    ensures CountContained(s, words + [w]) == CountContained(s, words) + (if Contains(s, w) then 1 else 0)
  {
    if |words| > 0 {
      assert (words + [w])[1..] == words[1..] + [w];
      CountContainedAppend(s, words[1..], w);
    }
  }

  /** Python `s[-n:]`: the last `n` items for positive `n`; for `n == 0`
      the whole sequence (`-0` is `0`); for negative `n` the items from
      index `-n` on. */
  function PyTail<T>(s: seq<T>, n: int): (r: seq<T>)
    ensures n > 0 ==> |r| == if n < |s| then n else |s|
    ensures n == 0 ==> r == s
    ensures n < 0 ==> |r| == if -n < |s| then |s| + n else 0
    ensures |r| <= |s| && r == s[|s| - |r|..]
  {
    if n > 0 then (if n >= |s| then s else s[|s| - n..])
    else if n == 0 then s
    else if -n >= |s| then []
    else s[-n..]
  }

  /** Python `s[:n]` for `n >= 0`. */
  function Take<T>(s: seq<T>, n: nat): (r: seq<T>)
    ensures |r| == if n < |s| then n else |s|
    ensures r == s[..|r|]
  {
    if n >= |s| then s else s[..n]
  }

  /** Whitespace as `str.split()`, `str.strip()` and `\s` see it
      (the ASCII separators and the no-break space). */
  predicate IsSpace(c: char) {
    c == ' ' || c == '\t' || c == '\n' || c == '\r' || c == '\U{000B}' || c == '\U{000C}' || c == '\U{00A0}'
  }

  /** Drops the leading characters that satisfy `IsSpace`. */
  function TrimStart(s: string): string {
    if |s| > 0 && IsSpace(s[0]) then TrimStart(s[1..]) else s
  }

  /** Drops the trailing characters that satisfy `IsSpace`. */
  function TrimEnd(s: string): string {
    if |s| > 0 && IsSpace(s[|s| - 1]) then TrimEnd(s[..|s| - 1]) else s
  }

  /** Python `s.strip()`. */
  function Strip(s: string): string {
    TrimEnd(TrimStart(s))
  }

  /** Python `s.lstrip(chars)`. */
  function LStripChars(s: string, chars: set<char>): string {
    if |s| > 0 && s[0] in chars then LStripChars(s[1..], chars) else s
  }

  /** `TrimStart` removes exactly the leading run of whitespace. */
  lemma {:induction false} TrimStartSpec(s: string)
    ensures var r := TrimStart(s);
      |r| <= |s| && r == s[|s| - |r|..] && (|r| > 0 ==> !IsSpace(r[0]))
      && forall i :: 0 <= i < |s| - |r| ==> IsSpace(s[i])
    decreases |s|
  {
    if |s| > 0 && IsSpace(s[0]) {
      TrimStartSpec(s[1..]);
    }
  }

  /** `TrimEnd` removes exactly the trailing run of whitespace. */
  lemma {:induction false} TrimEndSpec(s: string)
    ensures var r := TrimEnd(s);
      |r| <= |s| && r == s[..|r|] && (|r| > 0 ==> !IsSpace(r[|r| - 1]))
      && forall i :: |r| <= i < |s| ==> IsSpace(s[i])
    decreases |s|
  {
    if |s| > 0 && IsSpace(s[|s| - 1]) {
      TrimEndSpec(s[..|s| - 1]);
    }
  }

  /** `Strip` keeps the middle of `s` from its first to its last
      non-whitespace character: everything around it is whitespace. */
  lemma StripSpec(s: string)
    ensures var r, lo := Strip(s), |s| - |TrimStart(s)|;
      0 <= lo && lo + |r| <= |s| && r == s[lo..lo + |r|]
      && (|r| > 0 ==> !IsSpace(r[0]) && !IsSpace(r[|r| - 1]))
      && (forall i :: 0 <= i < lo ==> IsSpace(s[i]))
      && (forall i :: lo + |r| <= i < |s| ==> IsSpace(s[i]))
  {
    var t := TrimStart(s);
    TrimStartSpec(s);
    TrimEndSpec(t);
    var lo := |s| - |t|;
    var r := TrimEnd(t);
    assert r == s[lo..lo + |r|];
    forall i | lo + |r| <= i < |s| ensures IsSpace(s[i]) {
      assert s[i] == t[i - lo];
    }
  }

  /** `LStripChars` removes exactly the leading run of characters of `chars`. */
  lemma {:induction false} LStripCharsSpec(s: string, chars: set<char>)
    ensures var r := LStripChars(s, chars);
      |r| <= |s| && r == s[|s| - |r|..] && (|r| > 0 ==> r[0] !in chars)
      && forall i :: 0 <= i < |s| - |r| ==> s[i] in chars
    decreases |s|
  {
    if |s| > 0 && s[0] in chars {
      LStripCharsSpec(s[1..], chars);
    }
  }

  /** Python `s.split(sep)` for a one-character separator: the pieces
      between separators, always at least one. */
  function SplitOn(s: string, sep: char): (r: seq<string>)
    ensures |r| >= 1
    ensures forall i :: 0 <= i < |r| ==> sep !in r[i]
    decreases |s|
  {
    if |s| == 0 then [""]
    else
      var rest := SplitOn(s[1..], sep);
      if s[0] == sep then [""] + rest
      else [[s[0]] + rest[0]] + rest[1..]
  }

  /** `sep.join(parts)`. */
  function Join(parts: seq<string>, sep: string): string {
    if |parts| == 0 then ""
    else if |parts| == 1 then parts[0]
    else parts[0] + sep + Join(parts[1..], sep)
  }

  /** Python `len(s.split())`: the number of maximal runs of non-space characters. */
  function WordCount(s: string): nat
    decreases |s|
  {
    if |s| == 0 then 0
    else if IsSpace(s[0]) then WordCount(s[1..])
    else 1 + WordCount(SkipWord(s))
  }

  function SkipWord(s: string): (r: string)
    ensures |r| <= |s| && (|s| > 0 && !IsSpace(s[0]) ==> |r| < |s|)
    ensures |r| > 0 ==> IsSpace(r[0])
  {
    if |s| > 0 && !IsSpace(s[0]) then SkipWord(s[1..]) else s
  }

  /** JavaScript `s.split(/\s+/).length`: one more than the number of
      maximal whitespace runs (`""` gives one piece). */
  function JsSplitCount(s: string): nat {
    1 + SpaceRuns(s)
  }

  function SpaceRuns(s: string): nat
    decreases |s|
  {
    if |s| == 0 then 0
    else if !IsSpace(s[0]) then SpaceRuns(s[1..])
    else 1 + SpaceRuns(SkipSpaces(s))
  }

  function SkipSpaces(s: string): (r: string)
    ensures |r| <= |s| && (|s| > 0 && IsSpace(s[0]) ==> |r| < |s|)
    ensures |r| > 0 ==> !IsSpace(r[0])
  {
    if |s| > 0 && IsSpace(s[0]) then SkipSpaces(s[1..]) else s
  }

  /** Skipping the leading spaces of `s + t` skips those of `s` when `s`
      does not consist of spaces alone. */
  lemma {:induction false} SkipSpacesAppend(s: string, t: string)
    requires |SkipSpaces(s)| > 0
    ensures SkipSpaces(s + t) == SkipSpaces(s) + t
    decreases |s|
  {
    assert (s + t)[0] == s[0];
    if IsSpace(s[0]) {
      assert (s + t)[1..] == s[1..] + t;
      SkipSpacesAppend(s[1..], t);
    }
  }

  /** Appending text never removes a whitespace run: the piece count of
      `split(/\s+/)` can only grow. */
  lemma {:induction false} SpaceRunsAppend(s: string, t: string)
    ensures SpaceRuns(s) <= SpaceRuns(s + t)
    decreases |s|
  {
    if |s| > 0 {
      assert (s + t)[0] == s[0];
      if !IsSpace(s[0]) {
        assert (s + t)[1..] == s[1..] + t;
        SpaceRunsAppend(s[1..], t);
      } else if |SkipSpaces(s)| > 0 {
        SkipSpacesAppend(s, t);
        SpaceRunsAppend(SkipSpaces(s), t);
      }
    }
  }

  /** `str.lower()` on one character, for ASCII and the Vietnamese alphabet
      (Latin-1 capitals, Ă, Đ, Ĩ, Ũ, Ơ, Ư and the precomposed capitals of
      U+1EA0..U+1EF8); other characters are returned unchanged. */
  function LowerChar(c: char): char {
    var n := c as int;
    if 'A' <= c <= 'Z' then (n + 32) as char
    else if 0xC0 <= n <= 0xDE && n != 0xD7 then (n + 32) as char
    else if n == 0x102 || n == 0x110 || n == 0x128 || n == 0x168 || n == 0x1A0 then (n + 1) as char
    else if n == 0x1AF then 0x1B0 as char
    else if 0x1EA0 <= n <= 0x1EF8 && n % 2 == 0 then (n + 1) as char
    else c
  }

  function Lower(s: string): (r: string)
    ensures |r| == |s| && forall i :: 0 <= i < |s| ==> r[i] == LowerChar(s[i])
  {
    seq(|s|, i requires 0 <= i < |s| => LowerChar(s[i]))
  }

  /** Upper-casing of one ASCII letter, as used for capitalising day names. */
  function UpperChar(c: char): char {
    if 'a' <= c <= 'z' then (c as int - 32) as char else c
  }

  function DigitChar(d: nat): char
    requires d < 10
  {
    ('0' as int + d) as char
  }

  /** Decimal notation of a natural number, no leading zeros. */
  function NatToString(n: nat): (r: string)
    ensures |r| >= 1 && forall i :: 0 <= i < |r| ==> '0' <= r[i] <= '9'
    decreases n
  {
    if n < 10 then [DigitChar(n)] else NatToString(n / 10) + [DigitChar(n % 10)]
  }

  predicate AllDigits(s: string) {
    forall i :: 0 <= i < |s| ==> '0' <= s[i] <= '9'
  }

  /** The number a string of decimal digits denotes. */
  function DigitsValue(s: string): nat
    requires AllDigits(s)
  {
    if |s| == 0 then 0 else DigitsValue(s[..|s| - 1]) * 10 + (s[|s| - 1] as int - '0' as int)
  }

  /** Reading the decimal notation back gives the number. */
  lemma {:induction false} NatToStringValue(n: nat)
    ensures DigitsValue(NatToString(n)) == n
    decreases n
  {
    var s := NatToString(n);
    if n < 10 {
      assert s[..0] == [];
    } else {
      assert s[..|s| - 1] == NatToString(n / 10);
      NatToStringValue(n / 10);
    }
  }

  /** JavaScript's `String(n)` for an integer. */
  function IntToString(n: int): string {
    if n < 0 then "-" + NatToString(-n) else NatToString(n)
  }

  /** Lexicographic `<=` on strings, as JavaScript and Python compare them. */
  predicate LexLe(a: string, b: string)
    decreases |a|
  {
    |a| == 0 || (|b| > 0 && (a[0] < b[0] || (a[0] == b[0] && LexLe(a[1..], b[1..]))))
  }

  lemma {:induction false} LexLeTotal(a: string, b: string)
    ensures LexLe(a, b) || LexLe(b, a)
    decreases |a|
  {
    if |a| > 0 && |b| > 0 && a[0] == b[0] {
      LexLeTotal(a[1..], b[1..]);
    }
  }

  lemma {:induction false} LexLeAntisym(a: string, b: string)
    requires LexLe(a, b) && LexLe(b, a)
    ensures a == b
    decreases |a|
  {
    if |a| > 0 {
      LexLeAntisym(a[1..], b[1..]);
    }
  }
}
