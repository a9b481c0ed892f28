/** The analytics rules with their Vietnamese literals exactly as the
    service file holds them. Each of those literals is the UTF-8 encoding
    of a Vietnamese word read back one byte per character through the Thai
    code page 874: a Vietnamese letter became a character of the Thai block
    U+0E00 to U+0E7F, usually together with another Thai character, a C1
    control character or a no-break space. SmartAnalytics holds the decoded
    Vietnamese, which the rest of the model uses; this module states what
    the rules do with the literals as written. */
module SmartAnalyticsAsWritten {
  import opened Text
  import opened SmartAnalytics

  /** A character of the Thai block. */
  predicate IsThai(c: char) {
    '\U{0E00}' <= c <= '\U{0E7F}'
  }

  /** Text without Thai characters, as every Vietnamese or English message is. */
  predicate ThaiFree(s: string) {
    forall i :: 0 <= i < |s| ==> !IsThai(s[i])
  }

  /** The keyword table of `detectCategoryByKeywords` as written. */
  function KeywordsAsWritten(c: Category): seq<string> {
    match c
    case TuitionFees => ["h\U{0E41}\U{0E1B}\U{008D}c ph\U{0E23}\U{0E0D}", "ph\U{0E23}\U{0E0D}", "chi ph\U{0E23}\U{0E0D}", "ti\U{0E41}\U{0E1B}\U{0081}n h\U{0E41}\U{0E1B}\U{008D}c", "t\U{0E23}\U{00A0}i ch\U{0E23}\U{0E0D}nh", "gi\U{0E23}\U{0E01}"]
    case Admissions => ["tuy\U{0E41}\U{0E1B}\U{0083}n sinh", "\U{0E24}\U{0091}i\U{0E41}\U{0E1B}\U{0083}m", "x\U{0E23}\U{0E09}t tuy\U{0E41}\U{0E1B}\U{0083}n", "\U{0E24}\U{0091}\U{0E24}\U{0083}ng k\U{0E23}\U{0E1D}", "nh\U{0E41}\U{0E1A}\U{0E0D}p h\U{0E41}\U{0E1B}\U{008D}c", "thi"]
    case Programs => ["ng\U{0E23}\U{00A0}nh", "chuy\U{0E23}\U{0E0A}n ng\U{0E23}\U{00A0}nh", "khoa", "ch\U{0E26}\U{0E10}\U{0E26}\U{0E01}ng tr\U{0E23}\U{0E0C}nh", "m\U{0E23}\U{0E14}n h\U{0E41}\U{0E1B}\U{008D}c"]
    case Facilities => ["k\U{0E23}\U{0E1D} t\U{0E23}\U{0E1A}c", "c\U{0E26}\U{0E01} s\U{0E41}\U{0E1B}\U{009F} v\U{0E41}\U{0E1A}\U{0E0D}t ch\U{0E41}\U{0E1A}\U{0E05}t", "th\U{0E26}\U{0E10} vi\U{0E41}\U{0E1B}\U{0087}n", "ph\U{0E23}\U{0E12}ng lab"]
    case Career => ["vi\U{0E41}\U{0E1B}\U{0087}c l\U{0E23}\U{00A0}m", "ngh\U{0E41}\U{0E1B}\U{0081} nghi\U{0E41}\U{0E1B}\U{0087}p", "job", "career", "t\U{0E26}\U{0E10}\U{0E26}\U{0E01}ng lai"]
    case General => []
  }

  /** `detectCategoryByKeywords` as written: the first category, in
      declaration order, with a keyword of the written table in the
      content, otherwise `General`. */
  function DetectCategoryAsWritten(content: string): (r: Category)
    ensures r == General <==>
      !ContainsAny(content, KeywordsAsWritten(TuitionFees)) && !ContainsAny(content, KeywordsAsWritten(Admissions))
      && !ContainsAny(content, KeywordsAsWritten(Programs)) && !ContainsAny(content, KeywordsAsWritten(Facilities))
      && !ContainsAny(content, KeywordsAsWritten(Career))
    ensures r != General ==> ContainsAny(content, KeywordsAsWritten(r))
  {
    if ContainsAny(content, KeywordsAsWritten(TuitionFees)) then TuitionFees
    else if ContainsAny(content, KeywordsAsWritten(Admissions)) then Admissions
    else if ContainsAny(content, KeywordsAsWritten(Programs)) then Programs
    else if ContainsAny(content, KeywordsAsWritten(Facilities)) then Facilities
    else if ContainsAny(content, KeywordsAsWritten(Career)) then Career
    else General
  }

  /** No word of `words` occurs in Thai-free text when each holds a Thai
      character, at the position `marks` gives. */
  lemma MarkedWordsAbsent(s: string, words: seq<string>, marks: seq<nat>)
    requires ThaiFree(s) && |marks| == |words|
    requires forall k :: 0 <= k < |words| ==> marks[k] < |words[k]| && IsThai(words[k][marks[k]])
    ensures !ContainsAny(s, words)
  {
    NoWordOccurs(s, words, marks);
  }

  /** On Thai-free text only the plain-ASCII keywords of the written table
      can match: "thi" for admissions, "khoa" for programs, "job" and
      "career" for careers. Tuition fees and facilities are never chosen. */
  lemma ThaiFreeCategoryAsWritten(content: string)
    requires ThaiFree(content)
    ensures DetectCategoryAsWritten(content) ==
      if Contains(content, "thi") then Admissions
      else if Contains(content, "khoa") then Programs
      else if Contains(content, "job") || Contains(content, "career") then Career
      else General
  {
    MarkedWordsAbsent(content, KeywordsAsWritten(TuitionFees), [1, 2, 6, 2, 1, 2]);
    MarkedWordsAbsent(content, KeywordsAsWritten(Facilities), [1, 1, 2, 2]);
    AdmissionsAsWritten(content);
    ProgramsAsWritten(content);
    CareerAsWritten(content);
  }

  /** The admissions row as written reduces to "thi" on Thai-free text. */
  lemma AdmissionsAsWritten(content: string)
    requires ThaiFree(content)
    ensures ContainsAny(content, KeywordsAsWritten(Admissions)) <==> Contains(content, "thi")
  {
    var words := KeywordsAsWritten(Admissions);
    MarkedWordsAbsent(content, words[..5], [3, 0, 1, 0, 2]);
    assert words == words[..5] + ["thi"];
    ContainsAnyAppend(content, words[..5], ["thi"]);
    assert ContainsAny(content, ["thi"]) <==> Contains(content, "thi") by {
      assert ["thi"][0] == "thi";
    }
  }

  /** The programs row as written reduces to "khoa" on Thai-free text. */
  lemma ProgramsAsWritten(content: string)
    requires ThaiFree(content)
    ensures ContainsAny(content, KeywordsAsWritten(Programs)) <==> Contains(content, "khoa")
  {
    var words := KeywordsAsWritten(Programs);
    MarkedWordsAbsent(content, words[..2], [2, 4]);
    MarkedWordsAbsent(content, words[3..], [2, 1]);
    assert words == words[..2] + ["khoa"] + words[3..];
    ContainsAnyAppend(content, words[..2], ["khoa"]);
    assert ContainsAny(content, ["khoa"]) <==> Contains(content, "khoa") by {
      assert ["khoa"][0] == "khoa";
    }
    ContainsAnyAppend(content, words[..2] + ["khoa"], words[3..]);
  }

  /** The career row as written reduces to "job" and "career" on Thai-free text. */
  lemma CareerAsWritten(content: string)
    requires ThaiFree(content)
    ensures ContainsAny(content, KeywordsAsWritten(Career)) <==> Contains(content, "job") || Contains(content, "career")
  {
    var words := KeywordsAsWritten(Career);
    MarkedWordsAbsent(content, words[..2], [2, 3]);
    MarkedWordsAbsent(content, words[4..], [1]);
    assert words == words[..2] + ["job", "career"] + words[4..];
    ContainsAnyAppend(content, words[..2], ["job", "career"]);
    assert ContainsAny(content, ["job", "career"]) <==> Contains(content, "job") || Contains(content, "career") by {
      assert ["job", "career"][0] == "job" && ["job", "career"][1] == "career";
    }
    ContainsAnyAppend(content, words[..2] + ["job", "career"], words[4..]);
  }

  /** A question about tuition fees, "học phí", falls through to `General`
      as written; with the decoded table it is a tuition question. */
  lemma FeeQuestionAsWrittenIsGeneral()
    ensures DetectCategoryAsWritten("học phí") == General
    ensures DetectCategory("học phí") == TuitionFees
  {
    FeeQuestionFacts("học phí");
    ThaiFreeCategoryAsWritten("học phí");
    FeeQuestionsAreTuition("học phí");
  }

  /** "học phí" is Thai-free, holds "phí" and none of the ASCII keywords. */
  lemma FeeQuestionFacts(s: string)
    requires s == "học phí"
    ensures ThaiFree(s) && Contains(s, "phí")
    ensures !Contains(s, "thi") && !Contains(s, "khoa") && !Contains(s, "job") && !Contains(s, "career")
  {
    FeeQuestionHoldsFee(s);
    FeeQuestionLacksAscii(s);
  }

  /** The fee word sits at position 4 of "học phí". */
  lemma FeeQuestionHoldsFee(s: string)
    requires s == "học phí"
    ensures Contains(s, "phí")
  {
    assert OccursAt(s, "phí", 4);
    ContainsIff(s, "phí");
  }

  /** No letter t, k, j or a appears in "học phí", so no ASCII keyword does. */
  lemma FeeQuestionLacksAscii(s: string)
    requires s == "học phí"
    ensures !Contains(s, "thi") && !Contains(s, "khoa") && !Contains(s, "job") && !Contains(s, "career")
  {
    ContainedWordChars(s, "thi", 0);
    ContainedWordChars(s, "khoa", 0);
    ContainedWordChars(s, "job", 0);
    ContainedWordChars(s, "career", 1);
  }

  // ---------------------------------------------------------------- sentiment

  /** The word lists of `detectSentiment` as written. */
  const PositiveWordsAsWritten: seq<string> := ["t\U{0E41}\U{0E1B}\U{0091}t", "hay", "tuy\U{0E41}\U{0E1B}\U{0087}t v\U{0E41}\U{0E1B}\U{009D}i", "c\U{0E41}\U{0E1A}\U{0E03}m \U{0E26}\U{0E01}n", "h\U{0E41}\U{0E1B}\U{0E0F}u \U{0E23}\U{0E0D}ch", "ok", "good", "thanks"]
  const NegativeWordsAsWritten: seq<string> := ["kh\U{0E23}\U{0E14}ng", "t\U{0E41}\U{0E1B}\U{0087}", "kh\U{0E23}\U{0E13}", "ph\U{0E41}\U{0E1B}\U{0E09}c t\U{0E41}\U{0E1A}\U{0E01}p", "kh\U{0E23}\U{0E14}ng hi\U{0E41}\U{0E1B}\U{0083}u", "bad", "difficult"]

  /** `detectSentiment` as written: the same strict-majority rule over the
      written lists. */
  function DetectSentimentAsWritten(content: string): (r: Sentiment)
    ensures r == Positive <==> CountContained(content, PositiveWordsAsWritten) > CountContained(content, NegativeWordsAsWritten)
    ensures r == Negative <==> CountContained(content, NegativeWordsAsWritten) > CountContained(content, PositiveWordsAsWritten)
    ensures r == Neutral <==> CountContained(content, PositiveWordsAsWritten) == CountContained(content, NegativeWordsAsWritten)
  {
    var positive := CountContained(content, PositiveWordsAsWritten);
    var negative := CountContained(content, NegativeWordsAsWritten);
    if positive > negative then Positive
    else if negative > positive then Negative
    else Neutral
  }

  /** On Thai-free text only the English words of the written lists count:
      "hay", "ok", "good" and "thanks" on the positive side, "bad" and
      "difficult" on the negative side. */
  lemma ThaiFreeSentimentAsWritten(content: string)
    requires ThaiFree(content)
    ensures CountContained(content, PositiveWordsAsWritten) == CountContained(content, ["hay", "ok", "good", "thanks"])
    ensures CountContained(content, NegativeWordsAsWritten) == CountContained(content, ["bad", "difficult"])
  {
    var p, n := PositiveWordsAsWritten, NegativeWordsAsWritten;
    MarkedWordsAbsent(content, p[..1], [1]);
    MarkedWordsAbsent(content, p[2..5], [3, 1, 1]);
    MarkedWordsAbsent(content, n[..5], [2, 1, 2, 2, 2]);
    assert p == p[..1] + ["hay"] + p[2..5] + ["ok", "good", "thanks"];
    CountContainedConcat(content, p[..1] + ["hay"] + p[2..5], ["ok", "good", "thanks"]);
    CountContainedConcat(content, p[..1] + ["hay"], p[2..5]);
    CountContainedConcat(content, p[..1], ["hay"]);
    CountContainedConcat(content, ["hay"], ["ok", "good", "thanks"]);
    assert ["hay"] + ["ok", "good", "thanks"] == ["hay", "ok", "good", "thanks"];
    assert n == n[..5] + ["bad", "difficult"];
    CountContainedConcat(content, n[..5], ["bad", "difficult"]);
  }

  /** "không hiểu" ("I do not understand") is neutral as written; with the
      decoded lists it is negative. */
  lemma NotUnderstoodAsWrittenIsNeutral()
    ensures DetectSentimentAsWritten("không hiểu") == Neutral
    ensures DetectSentiment("không hiểu") == Negative
  {
    NotUnderstoodFacts("không hiểu");
    ThaiFreeSentimentAsWritten("không hiểu");
    NotUnderstoodOutweighsOnePositive("không hiểu");
  }

  /** "không hiểu" is Thai-free and holds none of the English words and
      none of the decoded positive words. */
  lemma NotUnderstoodFacts(s: string)
    requires s == "không hiểu"
    ensures ThaiFree(s) && Contains(s, s)
    ensures CountContained(s, ["hay", "ok", "good", "thanks"]) == 0
    ensures CountContained(s, ["bad", "difficult"]) == 0
    ensures CountContained(s, PositiveWords) == 0
  {
    NoWordOccurs(s, ["hay", "ok", "good", "thanks"], [1, 0, 1, 0]);
    NoWordOccurs(s, ["bad", "difficult"], [1, 0]);
    NoWordOccurs(s, PositiveWords, [1, 1, 0, 1, 1, 0, 1, 0]);
    assert IsPrefix(s, s);
  }

  // ---------------------------------------------------------------- display names

  /** `translateCategory` as written. */
  function TranslateAsWritten(c: Category): (r: string)
    ensures |r| > 0
    ensures r == Translate(c) <==> c == General
  {
    match c
    case TuitionFees => "H\U{0E41}\U{0E1B}\U{008D}c ph\U{0E23}\U{0E0D}"
    case Admissions => "Tuy\U{0E41}\U{0E1B}\U{0083}n sinh"
    case Programs => "Ch\U{0E26}\U{0E10}\U{0E26}\U{0E01}ng tr\U{0E23}\U{0E0C}nh"
    case Facilities => "C\U{0E26}\U{0E01} s\U{0E41}\U{0E1B}\U{009F} v\U{0E41}\U{0E1A}\U{0E0D}t ch\U{0E41}\U{0E1A}\U{0E05}t"
    case Career => "Ngh\U{0E41}\U{0E1B}\U{0081} nghi\U{0E41}\U{0E1B}\U{0087}p"
    case General => "Chung"
  }

  // ---------------------------------------------------------------- message accuracy

  /** The character class of the accent test as written: its 179 entries
      are these 46 distinct characters, repeated. Each accented letter's
      two UTF-8 bytes became a Thai character and, for the second byte,
      often a C1 control or a no-break space. */
  const VietnameseClassAsWritten: set<char> := ThaiCharsAsWritten + ControlCharsAsWritten

  /** The Thai characters of the class as written. */
  const ThaiCharsAsWritten: set<char> := {
      '\U{0E23}', '\U{0E01}', '\U{0E41}', '\U{0E1A}', '\U{0E03}', '\U{0E02}', '\U{0E07}', '\U{0E05}',
      '\U{0E0D}', '\U{0E09}', '\U{0E0B}', '\U{0E24}', '\U{0E11}', '\U{0E0F}', '\U{0E17}', '\U{0E13}',
      '\U{0E15}', '\U{0E08}', '\U{0E19}', '\U{0E1B}', '\U{0E1D}', '\U{0E0A}', '\U{0E1F}', '\U{0E0C}',
      '\U{0E12}', '\U{0E14}', '\U{0E26}', '\U{0E25}', '\U{0E10}'}

  /** The C1 controls and the no-break space of the class as written. */
  const ControlCharsAsWritten: set<char> := {
      '\U{00A0}', '\U{0083}', '\U{0081}', '\U{0087}', '\U{0085}', '\U{008B}', '\U{0089}', '\U{008D}',
      '\U{008F}', '\U{0093}', '\U{0091}', '\U{0099}', '\U{0095}', '\U{0097}', '\U{009D}', '\U{009B}',
      '\U{009F}'}

  predicate HasVietnameseLetterAsWritten(s: string) {
    exists i :: 0 <= i < |s| && s[i] in VietnameseClassAsWritten
  }

  /** A character the misreading produces: a Thai one, a C1 control
      character or a no-break space. */
  predicate MisreadMark(c: char) {
    IsThai(c) || '\U{0080}' <= c <= '\U{00A0}'
  }

  /** Every character of the written class is a misreading mark. */
  lemma LettersAsWrittenAreMarks()
    ensures forall c :: c in VietnameseClassAsWritten ==> MisreadMark(c)
  {
  }

  /** `calculateMessageAccuracy` as written. */
  function MessageAccuracyAsWritten(content: string): (r: real)
    ensures 0.75 <= r <= 1.0
  {
    AccuracyScore(content, HasVietnameseLetterAsWritten(content))
  }

  /** Text without misreading marks never earns the accent bonus as written. */
  lemma AccentBonusNeedsMarks(content: string)
    requires forall i :: 0 <= i < |content| ==> !MisreadMark(content[i])
    ensures MessageAccuracyAsWritten(content) == AccuracyScore(content, false)
  {
    LettersAsWrittenAreMarks();
  }

  /** The one-letter message "á" scores 0.75 as written and 0.8 with the
      decoded class. */
  lemma AccentBonusLostAsWritten()
    ensures MessageAccuracyAsWritten("á") == 0.75
    ensures MessageAccuracy("á") == 0.8
  {
    AccentBonusNeedsMarks("á");
    AcuteAIsVietnamese("á");
  }

  /** "á" is the second letter of the decoded accent class. */
  lemma AcuteAIsVietnamese(s: string)
    requires s == "á"
    ensures HasVietnameseLetter(s)
  {
    assert VietnameseLetters[1] == s[0];
  }
}
