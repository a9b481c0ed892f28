/** The out-of-domain detector: a question is in domain when it holds an
    education keyword; otherwise it is out of domain when nothing was
    retrieved or when the best retrieved score is below the threshold.
    The threshold, the on/off switch and the canned reply come from the
    deployment configuration and are parameters here. */
module OutOfDomain {
  import opened Text

  /** The `score` metadata entry of one retrieved document. `NonNumeric`
      stands for any value Python cannot order against a float. */
  datatype ScoreField = Absent | Number(value: real) | NonNumeric

  /** `metadata.get("score", 0)` for a numeric or absent entry. */
  function ScoreOf(f: ScoreField): real
    requires !f.NonNumeric?
  {
    if f.Number? then f.value else 0.0
  }

  predicate AllNumeric(docs: seq<ScoreField>) {
    forall i :: 0 <= i < |docs| ==> !docs[i].NonNumeric?
  }

  /** The largest score: the head of the list sorted in descending order. */
  function TopScore(docs: seq<ScoreField>): (m: real)
    requires |docs| > 0 && AllNumeric(docs)
    ensures forall i :: 0 <= i < |docs| ==> ScoreOf(docs[i]) <= m
    ensures exists i :: 0 <= i < |docs| && ScoreOf(docs[i]) == m
  {
    if |docs| == 1 then ScoreOf(docs[0])
    else
      var rest := TopScore(docs[1..]);
      assert forall i :: 1 <= i < |docs| ==> docs[1..][i - 1] == docs[i];
      if ScoreOf(docs[0]) >= rest then ScoreOf(docs[0]) else rest
  }

  const EducationKeywords: seq<string> := [
    "học", "ngành", "khoa", "đại học", "cao đẳng", "tuyển sinh", "điểm", "chuyên ngành", "học phí",
    "đào tạo", "trường", "lớp", "giảng viên", "sinh viên", "học bổng", "ký túc xá", "chứng chỉ",
    "tốt nghiệp", "tín chỉ", "môn học", "điều dưỡng", "công nghệ", "kinh tế", "quản trị", "luật", "kỹ sư"]

  const NoDocumentsReason: string := "Không tìm thấy tài liệu liên quan"

  /** Two-decimal rendering of a real (`f"{x:.2f}"`): a minus sign for a
      negative number, then the magnitude rounded half up to hundredths.
      The digits before the point and the two after it together denote
      that rounded number of hundredths. */
  function Fixed2(x: real): (r: string)
    ensures |r| >= 4 && r[|r| - 3] == '.'
    ensures r[0] == '-' <==> x < 0.0
    ensures var lo := if x < 0.0 then 1 else 0;
      lo < |r| - 3 && AllDigits(r[lo..|r| - 3]) && AllDigits(r[|r| - 2..])
      && DigitsValue(r[lo..|r| - 3]) * 100 + DigitsValue(r[|r| - 2..]) == Cents(if x < 0.0 then -x else x)
  {
    if x < 0.0 then
      var m := Magnitude2(-x);
      assert ("-" + m)[1..|m| - 2] == m[..|m| - 3];
      assert ("-" + m)[|m| - 1..] == m[|m| - 2..];
      "-" + m
    else Magnitude2(x)
  }

  /** A non-negative real in hundredths, rounded half up. */
  function Cents(x: real): nat
    requires x >= 0.0
  {
    (x * 100.0 + 0.5).Floor
  }

  function Magnitude2(x: real): (r: string)
    requires x >= 0.0
    ensures |r| >= 4 && r[|r| - 3] == '.'
    ensures AllDigits(r[..|r| - 3]) && AllDigits(r[|r| - 2..])
    ensures DigitsValue(r[..|r| - 3]) * 100 + DigitsValue(r[|r| - 2..]) == Cents(x)
  {
    var cents := Cents(x);
    var hundredths := cents % 100;
    HundredthsParts(cents / 100, hundredths);
    NatToString(cents / 100) + "." + [DigitChar(hundredths / 10), DigitChar(hundredths % 10)]
  }

  /** The whole part and the two digits after the point read back as the
      numbers they were written from. */
  lemma HundredthsParts(whole: nat, hundredths: nat)
    requires hundredths < 100
    ensures var r := NatToString(whole) + "." + [DigitChar(hundredths / 10), DigitChar(hundredths % 10)];
      |r| >= 4 && r[|r| - 3] == '.' && AllDigits(r[..|r| - 3]) && AllDigits(r[|r| - 2..])
      && DigitsValue(r[..|r| - 3]) == whole && DigitsValue(r[|r| - 2..]) == hundredths
  {
    var tens, ones := DigitChar(hundredths / 10), DigitChar(hundredths % 10);
    var r := NatToString(whole) + "." + [tens, ones];
    assert r[..|r| - 3] == NatToString(whole) && r[|r| - 2..] == [tens, ones];
    NatToStringValue(whole);
    assert [tens, ones][..1] == [tens] && [tens][..0] == [];
    assert DigitsValue([tens]) == hundredths / 10;
  }

  /** A number of hundredths renders as its whole part, a point and its
      two last digits. */
  lemma CentsRendering(n: nat)
    ensures Fixed2(n as real / 100.0) == NatToString(n / 100) + "." + [DigitChar(n % 100 / 10), DigitChar(n % 10)]
  {
    assert (n as real / 100.0) * 100.0 == n as real;
    assert Cents(n as real / 100.0) == n;
    assert n % 100 % 10 == n % 10;
  }

  function LowSimilarityReason(score: real): string {
    "Độ tương đồng thấp (score: " + Fixed2(score) + ")"
  }

  /** `_is_education_related`: a linear scan of the keyword list over the
      lower-cased question, stopping at the first hit. */
  method IsEducationRelated(question: string) returns (related: bool)
    ensures related <==> ContainsAny(Lower(question), EducationKeywords)
  {
    var questionLower := Lower(question);
    for i := 0 to |EducationKeywords|
      invariant forall j :: 0 <= j < i ==> !Contains(questionLower, EducationKeywords[j])
    {
      if Contains(questionLower, EducationKeywords[i]) {
        return true;
      }
    }
    return false;
  }

  /** `is_out_of_domain`. The scores are gathered in a loop and the best is
      taken, as sorting in descending order and reading the head does; any
      score Python cannot compare raises inside the guarded block and the
      detector then fails open. */
  method IsOutOfDomain(question: string, docs: seq<ScoreField>, enabled: bool, threshold: real)
    returns (isOod: bool, reason: string)
    ensures !enabled ==> !isOod && reason == ""
    ensures enabled && ContainsAny(Lower(question), EducationKeywords) ==> !isOod && reason == ""
    ensures enabled && !ContainsAny(Lower(question), EducationKeywords) && |docs| == 0 ==>
      isOod && reason == NoDocumentsReason
    ensures |docs| > 0 && !AllNumeric(docs) ==> !isOod && reason == ""
    ensures enabled && !ContainsAny(Lower(question), EducationKeywords) && |docs| > 0 && AllNumeric(docs) ==>
      (isOod <==> TopScore(docs) < threshold) && reason == (if isOod then LowSimilarityReason(TopScore(docs)) else "")
  {
    if !enabled {
      return false, "";
    }
    var related := IsEducationRelated(question);
    if related {
      return false, "";
    }
    if |docs| == 0 {
      return true, NoDocumentsReason;
    }
    var scores: seq<real> := [];
    for i := 0 to |docs|
      invariant |scores| == i
      invariant forall j :: 0 <= j < i ==> !docs[j].NonNumeric? && scores[j] == ScoreOf(docs[j])
    {
      if docs[i].NonNumeric? {
        return false, "";
      }
      scores := scores + [ScoreOf(docs[i])];
    }
    var top := scores[0];
    for i := 1 to |scores|
      invariant forall j :: 0 <= j < i ==> scores[j] <= top
      invariant exists j :: 0 <= j < i && scores[j] == top
    {
      if scores[i] > top {
        top := scores[i];
      }
    }
    assert top == TopScore(docs);
    if top < threshold {
      return true, LowSimilarityReason(top);
    }
    return false, "";
  }

  /** `get_ood_response`: the configured reply, whatever the question. */
  function GetOodResponse(question: string, defaultResponse: string): (r: string)
    ensures r == defaultResponse
  {
    defaultResponse
  }
}
