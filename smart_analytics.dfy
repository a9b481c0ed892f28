/** The rule-based analytics of the admin server: keyword rules give each
    user message a category, a sentiment and a complexity; the messages
    are counted per category and per sentiment; a satisfaction score is
    derived and clamped. The repository queries are outside the model:
    the events they return are a parameter. Numbers are reals. */
module SmartAnalytics {
  import opened Text

  /** `AnalyticsEventType`. */
  datatype EventType =
    | ConversationStarted
    | MessageSent
    | MessageReceived
    | HumanHandoffRequested
    | HumanHandoffConnected
    | ConversationEnded
    | UserFeedback
    | ResponseGenerated
    | DocumentRetrieved
    | ErrorOccurred
    | AiEvaluation

  /** One analytics event, with the fields the rules read. */
  datatype Event = Event(eventType: EventType, conversationId: string, messageContent: Option<string>)

  /** `message.messageContent || ''`. */
  function ContentOf(e: Event): string {
    if e.messageContent.Some? then e.messageContent.value else ""
  }

  /** The contents of the `MESSAGE_SENT` events, in order. */
  function UserContents(messages: seq<Event>): (r: seq<string>)
    ensures |r| <= |messages|
  {
    if |messages| == 0 then []
    else (if messages[0].eventType == MessageSent then [ContentOf(messages[0])] else []) + UserContents(messages[1..])
  }

  // ---------------------------------------------------------------- categories

  datatype Category = TuitionFees | Admissions | Programs | Facilities | Career | General

  /** The keyword categories in declaration order; `General` is the fallback. */
  const DeclaredCategories: seq<Category> := [TuitionFees, Admissions, Programs, Facilities, Career]

  function Keywords(c: Category): seq<string> {
    match c
    case TuitionFees => ["học phí", "phí", "chi phí", "tiền học", "tài chính", "giá"]
    case Admissions => ["tuyển sinh", "điểm", "xét tuyển", "đăng ký", "nhập học", "thi"]
    case Programs => ["ngành", "chuyên ngành", "khoa", "chương trình", "môn học"]
    case Facilities => ["ký túc", "cơ sở vật chất", "thư viện", "phòng lab"]
    case Career => ["việc làm", "nghề nghiệp", "job", "career", "tương lai"]
    case General => []
  }

  /** The position of a declared category in `DeclaredCategories`, its only one. */
  function Rank(c: Category): (r: nat)
    ensures c != General ==> r < |DeclaredCategories| && DeclaredCategories[r] == c
    ensures forall j :: 0 <= j < |DeclaredCategories| && DeclaredCategories[j] == c ==> j == r
  {
    match c
    case TuitionFees => 0
    case Admissions => 1
    case Programs => 2
    case Facilities => 3
    case Career => 4
    case General => 5
  }

  /** The index of the first category of `cats` with a keyword in
      `content`, or `|cats|` when none has one. */
  function FirstMatching(content: string, cats: seq<Category>): (r: nat)
    ensures r <= |cats|
    ensures r < |cats| ==> ContainsAny(content, Keywords(cats[r]))
    ensures forall j :: 0 <= j < r ==> !ContainsAny(content, Keywords(cats[j]))
  {
    if |cats| == 0 then 0
    else if ContainsAny(content, Keywords(cats[0])) then 0
    else 1 + FirstMatching(content, cats[1..])
  }

  /** `detectCategoryByKeywords`: the first declared category with a
      keyword in the content, otherwise `General`. */
  function DetectCategory(content: string): (r: Category)
    ensures r == General <==>
      forall i :: 0 <= i < |DeclaredCategories| ==> !ContainsAny(content, Keywords(DeclaredCategories[i]))
    ensures r != General ==>
      ContainsAny(content, Keywords(r))
      && forall i :: 0 <= i < Rank(r) ==> !ContainsAny(content, Keywords(DeclaredCategories[i]))
  {
    var k := FirstMatching(content, DeclaredCategories);
    if k < |DeclaredCategories| then DeclaredCategories[k] else General
  }

  /** A fee keyword wins over every other category's keywords. */
  lemma FeeQuestionsAreTuition(content: string)
    requires Contains(content, "phí")
    ensures DetectCategory(content) == TuitionFees
  {
    assert Keywords(TuitionFees)[1] == "phí";
  }

  /** `translateCategory`: the Vietnamese display name. Every category has
      a non-empty entry, so the `|| category` fallback is never taken. */
  function Translate(c: Category): (r: string)
    ensures |r| > 0
  {
    match c
    case TuitionFees => "Học phí"
    case Admissions => "Tuyển sinh"
    case Programs => "Chương trình"
    case Facilities => "Cơ sở vật chất"
    case Career => "Nghề nghiệp"
    case General => "Chung"
  }

  /** Distinct categories get distinct display names. */
  lemma TranslateInjective(a: Category, b: Category)
    ensures Translate(a) == Translate(b) ==> a == b
  {
    if a != b {
      match a
      case TuitionFees => assert Translate(a)[0] == 'H';
      case Admissions => assert Translate(a)[0] == 'T';
      case Programs => assert Translate(a)[1] == 'h';
      case Facilities => assert Translate(a)[1] == 'ơ';
      case Career => assert Translate(a)[0] == 'N';
      case General => assert Translate(a)[1] == 'h' && |Translate(a)| == 5;
    }
  }

  // ---------------------------------------------------------------- sentiment

  datatype Sentiment = Positive | Neutral | Negative

  const PositiveWords: seq<string> := ["tốt", "hay", "tuyệt vời", "cảm ơn", "hữu ích", "ok", "good", "thanks"]
  const NegativeWords: seq<string> := ["không", "tệ", "khó", "phức tạp", "không hiểu", "bad", "difficult"]

  /** `detectSentiment`: the side with more listed words present wins; a
      tie is neutral. Each listed word counts once, however often it occurs. */
  function DetectSentiment(content: string): (r: Sentiment)
    ensures r == Positive <==> CountContained(content, PositiveWords) > CountContained(content, NegativeWords)
    ensures r == Negative <==> CountContained(content, NegativeWords) > CountContained(content, PositiveWords)
    ensures r == Neutral <==> CountContained(content, PositiveWords) == CountContained(content, NegativeWords)
  {
    var positive := CountContained(content, PositiveWords);
    var negative := CountContained(content, NegativeWords);
    if positive > negative then Positive
    else if negative > positive then Negative
    else Neutral
  }

  /** A message with no listed word, positive or negative, is neutral. */
  lemma NoListedWordIsNeutral(content: string)
    requires !ContainsAny(content, PositiveWords) && !ContainsAny(content, NegativeWords)
    ensures DetectSentiment(content) == Neutral
  {
  }

  /** Listed words on one side only decide the sentiment for that side. */
  lemma OneSidedWordsDecide(content: string)
    ensures ContainsAny(content, PositiveWords) && !ContainsAny(content, NegativeWords) ==>
      DetectSentiment(content) == Positive
    ensures ContainsAny(content, NegativeWords) && !ContainsAny(content, PositiveWords) ==>
      DetectSentiment(content) == Negative
  {
  }

  /** The text of a word containing another word contains that word too. */
  lemma ContainsPrefixOf(s: string, w: string, p: string)
    requires Contains(s, w) && IsPrefix(p, w)
    ensures Contains(s, p)
  {
    ContainsIff(s, w);
    var i: nat :| OccursAt(s, w, i);
    assert s[i..i + |p|] == w[..|p|];
    assert OccursAt(s, p, i);
    ContainsIff(s, p);
  }

  /** Two distinct listed words present count twice. */
  lemma {:induction false} CountContainedTwo(s: string, words: seq<string>, i: nat, j: nat)
    requires i < j < |words| && Contains(s, words[i]) && Contains(s, words[j])
    ensures CountContained(s, words) >= 2
  {
    if i == 0 {
      assert words[1..][j - 1] == words[j];
      assert ContainsAny(s, words[1..]);
    } else {
      assert words[1..][i - 1] == words[i] && words[1..][j - 1] == words[j];
      CountContainedTwo(s, words[1..], i - 1, j - 1);
    }
  }

  /** "không hiểu" also contains "không", so it weighs two negative words:
      it outweighs any single positive word. */
  lemma NotUnderstoodOutweighsOnePositive(content: string)
    requires Contains(content, "không hiểu") && CountContained(content, PositiveWords) <= 1
    ensures DetectSentiment(content) == Negative
  {
    assert NegativeWords[4] == "không hiểu" && NegativeWords[0] == "không";
    ContainsPrefixOf(content, "không hiểu", "không");
    CountContainedTwo(content, NegativeWords, 0, 4);
  }

  // ---------------------------------------------------------------- complexity

  datatype Complexity = Simple | Medium | Complex

  /** How often `?` occurs (`content.match(/\?/g)`). */
  function QuestionMarks(s: string): nat {
    multiset(s)['?']
  }

  /** `detectComplexity`: long, wordy or multi-question messages are
      complex; moderately long or wordy ones medium; the rest simple. */
  function DetectComplexity(content: string): (r: Complexity)
    ensures r == Complex <==> |content| > 200 || JsSplitCount(content) > 30 || QuestionMarks(content) > 1
    ensures r == Medium <==>
      !(|content| > 200 || JsSplitCount(content) > 30 || QuestionMarks(content) > 1)
      && (|content| > 50 || JsSplitCount(content) > 10)
  {
    var wordCount := JsSplitCount(content);
    if |content| > 200 || wordCount > 30 || QuestionMarks(content) > 1 then Complex
    else if |content| > 50 || wordCount > 10 then Medium
    else Simple
  }

  function Level(c: Complexity): nat {
    match c
    case Simple => 0
    case Medium => 1
    case Complex => 2
  }

  /** Appending text to a message never makes it simpler. */
  lemma AppendingNeverSimplifies(s: string, t: string)
    ensures Level(DetectComplexity(s)) <= Level(DetectComplexity(s + t))
  {
    SpaceRunsAppend(s, t);
    assert multiset(s + t) == multiset(s) + multiset(t);
  }

  /** A message with two question marks is complex whatever its length. */
  lemma TwoQuestionsAreComplex(s: string, t: string, u: string)
    ensures DetectComplexity(s + "?" + t + "?" + u) == Complex
  {
    var m := s + "?" + t + "?" + u;
    assert multiset(m) == multiset(s) + multiset("?") + multiset(t) + multiset("?") + multiset(u);
  }

  // ---------------------------------------------------------------- message accuracy

  /** The lower-case Vietnamese letters of the accent test, in the class's
      order, one group per base vowel. */
  const VietnameseLetters: string :=
    "àáạảã" + "âầấậẩẫ" + "ăằắặẳẵ" + "èéẹẻẽ" + "êềếệểễ" + "ìíịỉĩ" + "òóọỏõ" + "ôồốộổỗ" +
    "ơờớợởỡ" + "ùúụủũ" + "ưừứựửữ" + "ỳýỵỷỹ" + "đ"

  predicate HasVietnameseLetter(s: string) {
    exists i :: 0 <= i < |s| && s[i] in VietnameseLetters
  }

  /** `calculateMessageAccuracy`: 0.75, plus 0.1 for a question mark, 0.1
      for a length strictly between 20 and 200, 0.05 for a Vietnamese
      letter, capped at 1. */
  function MessageAccuracy(content: string): (r: real)
    ensures 0.75 <= r <= 1.0
    ensures !('?' in content) && !(20 < |content| < 200) && !HasVietnameseLetter(content) ==> r == 0.75
    ensures '?' in content && 20 < |content| < 200 && HasVietnameseLetter(content) ==> r == 1.0
  {
    AccuracyScore(content, HasVietnameseLetter(content))
  }

  /** The accuracy score once the outcome of the accent test is known. */
  function AccuracyScore(content: string, accented: bool): real {
    var a := 0.75 + (if '?' in content then 0.1 else 0.0)
                   + (if 20 < |content| < 200 then 0.1 else 0.0)
                   + (if accented then 0.05 else 0.0);
    if a < 1.0 then a else 1.0
  }

  // ---------------------------------------------------------------- grouping

  /** The distinct keys in order of first occurrence: the iteration order
      of a JavaScript `Map` filled by `set` on first sight. */
  function FirstSeen<K(==)>(keys: seq<K>): seq<K> {
    if |keys| == 0 then []
    else
      var prev := FirstSeen(keys[..|keys| - 1]);
      if keys[|keys| - 1] in prev then prev else prev + [keys[|keys| - 1]]
  }

  predicate NoDuplicates<K(==)>(s: seq<K>) {
    forall i, j :: 0 <= i < j < |s| ==> s[i] != s[j]
  }

  /** Each key appears once, and exactly the keys that occur appear. */
  lemma {:induction false} FirstSeenSpec<K>(keys: seq<K>)
    ensures NoDuplicates(FirstSeen(keys))
    ensures forall k :: k in FirstSeen(keys) <==> k in keys
  {
    if |keys| > 0 {
      var init := keys[..|keys| - 1];
      FirstSeenSpec(init);
      assert keys == init + [keys[|keys| - 1]];
    }
  }

  /** How many entries of `keys` equal `k`. */
  function CountOf<K(==)>(keys: seq<K>, k: K): nat {
    if |keys| == 0 then 0
    else CountOf(keys[..|keys| - 1], k) + (if keys[|keys| - 1] == k then 1 else 0)
  }

  /** A key that occurs is counted at least once. */
  lemma {:induction false} CountOfPositive<K>(keys: seq<K>, k: K)
    ensures CountOf(keys, k) > 0 <==> k in keys
  {
    if |keys| > 0 {
      var init := keys[..|keys| - 1];
      CountOfPositive(init, k);
      assert keys == init + [keys[|keys| - 1]];
    }
  }

  /** Every key of `FirstSeen` has a positive count. */
  lemma FirstSeenCounted<K>(keys: seq<K>)
    ensures forall k :: k in FirstSeen(keys) ==> CountOf(keys, k) > 0
  {
    forall k: K | k in FirstSeen(keys) ensures CountOf(keys, k) > 0 {
      FirstSeenSpec(keys);
      CountOfPositive(keys, k);
    }
  }

  /** The sum of the scores of the entries whose key is `k`. */
  function ScoreSum<K(==)>(keys: seq<K>, scores: seq<real>, k: K): real
    requires |keys| == |scores|
  {
    if |keys| == 0 then 0.0
    else ScoreSum(keys[..|keys| - 1], scores[..|scores| - 1], k) + (if keys[|keys| - 1] == k then scores[|scores| - 1] else 0.0)
  }

  /** A key that does not occur has nothing summed. */
  lemma {:induction false} ScoreSumAbsent<K>(keys: seq<K>, scores: seq<real>, k: K)
    requires |keys| == |scores| && k !in keys
    ensures ScoreSum(keys, scores, k) == 0.0
  {
    if |keys| > 0 {
      assert keys[..|keys| - 1] <= keys;
      ScoreSumAbsent(keys[..|keys| - 1], scores[..|scores| - 1], k);
    }
  }

  /** Scores within [lo, hi] sum to between `lo` and `hi` times the count. */
  lemma {:induction false} ScoreSumBounds<K>(keys: seq<K>, scores: seq<real>, k: K, lo: real, hi: real)
    requires |keys| == |scores|
    requires forall i :: 0 <= i < |scores| ==> lo <= scores[i] <= hi
    ensures SumWithin(lo, hi, CountOf(keys, k) as real, ScoreSum(keys, scores, k))
  {
    if |keys| > 0 {
      var init, last := keys[..|keys| - 1], scores[|scores| - 1];
      ScoreSumBounds(init, scores[..|scores| - 1], k, lo, hi);
      var c, sum := CountOf(init, k), ScoreSum(init, scores[..|scores| - 1], k);
      if keys[|keys| - 1] == k {
        assert CountOf(keys, k) == c + 1 && ScoreSum(keys, scores, k) == sum + last;
        BoundsStep(lo, hi, c as real, sum, last);
      } else {
        assert CountOf(keys, k) == c && ScoreSum(keys, scores, k) == sum;
      }
    }
  }

  /** `sum` lies between `lo` and `hi` times the count `n`. */
  predicate SumWithin(lo: real, hi: real, n: real, sum: real) {
    lo * n <= sum <= hi * n
  }

  /** Adding one more score within [lo, hi] keeps the sum within the bounds times one more. */
  lemma BoundsStep(lo: real, hi: real, c: real, sum: real, x: real)
    requires SumWithin(lo, hi, c, sum) && lo <= x <= hi
    ensures SumWithin(lo, hi, c + 1.0, sum + x)
  {
    assert lo * (c + 1.0) == lo * c + lo && hi * (c + 1.0) == hi * c + hi;
  }

  /** One entry of a JavaScript tally map: a count and a score sum. */
  datatype Tally = Tally(count: nat, accuracySum: real)

  /** The `forEach` loop of `categorizeQuestions` and `analyzeComplexity`:
      the first entry for a key sets `{ count: 1, accuracySum }`, later
      ones increment the count and add to the sum. */
  method GroupTally<K(==)>(keys: seq<K>, scores: seq<real>) returns (order: seq<K>, tallies: map<K, Tally>)
    requires |keys| == |scores|
    ensures order == FirstSeen(keys)
    ensures forall k :: k in tallies <==> k in keys
    ensures forall k :: k in tallies ==> tallies[k] == Tally(CountOf(keys, k), ScoreSum(keys, scores, k))
  {
    order := [];
    tallies := map[];
    for i := 0 to |keys|
      invariant order == FirstSeen(keys[..i])
      invariant forall k: K :: k in tallies <==> k in keys[..i]
      invariant forall k: K :: k in tallies ==> tallies[k] == Tally(CountOf(keys[..i], k), ScoreSum(keys[..i], scores[..i], k))
    {
      assert keys[..i + 1][..i] == keys[..i];
      assert keys[..i + 1] == keys[..i] + [keys[i]];
      FirstSeenSpec(keys[..i]);
      CountOfPositive(keys[..i], keys[i]);
      var key := keys[i];
      ghost var before := tallies;
      if key in tallies {
        tallies := tallies[key := Tally(tallies[key].count + 1, tallies[key].accuracySum + scores[i])];
      } else {
        order := order + [key];
        tallies := tallies[key := Tally(1, scores[i])];
      }
      forall k: K | k in tallies
        ensures tallies[k] == Tally(CountOf(keys[..i + 1], k), ScoreSum(keys[..i + 1], scores[..i + 1], k))
      {
        TallyStep(keys, scores, i, k);
        if k in before {
          assert before[k] == Tally(CountOf(keys[..i], k), ScoreSum(keys[..i], scores[..i], k));
        } else {
          CountOfPositive(keys[..i], k);
          ScoreSumAbsent(keys[..i], scores[..i], k);
        }
      }
    }
    assert keys[..|keys|] == keys && scores[..|scores|] == scores;
  }

  /** Counting and summing one more entry. */
  lemma TallyStep<K>(keys: seq<K>, scores: seq<real>, i: nat, k: K)
    requires |keys| == |scores| && i < |keys|
    ensures CountOf(keys[..i + 1], k) == CountOf(keys[..i], k) + (if keys[i] == k then 1 else 0)
    ensures ScoreSum(keys[..i + 1], scores[..i + 1], k) == ScoreSum(keys[..i], scores[..i], k) + (if keys[i] == k then scores[i] else 0.0)
  {
    assert keys[..i + 1][..i] == keys[..i] && scores[..i + 1][..i] == scores[..i];
  }

  /** A sum between `lo` and `hi` times a positive count has its average
      between `lo` and `hi`. */
  lemma AverageBounds(sum: real, n: real, lo: real, hi: real)
    requires n > 0.0 && SumWithin(lo, hi, n, sum)
    ensures lo <= sum / n <= hi
  {
  }

  /** One output row: a key, its count and its average accuracy. */
  datatype Row<K> = Row(key: K, count: nat, avgAccuracy: real)

  /** The map's entries in insertion order, with `accuracySum / count`. */
  function GroupRows<K(==)>(keys: seq<K>, scores: seq<real>): (r: seq<Row<K>>)
    requires |keys| == |scores|
    ensures |r| == |FirstSeen(keys)|
    ensures forall i :: 0 <= i < |r| ==> r[i].key == FirstSeen(keys)[i] && r[i].count == CountOf(keys, r[i].key) > 0
  {
    var order := FirstSeen(keys);
    FirstSeenCounted(keys);
    seq(|order|, i requires 0 <= i < |order| =>
      Row(order[i], CountOf(keys, order[i]), ScoreSum(keys, scores, order[i]) / CountOf(keys, order[i]) as real))
  }

  /** `Array.from(map.entries()).map(...)` after the tally loop: one row
      per key in insertion order, with `accuracySum / count`. */
  method EntryRows<K(==)>(keys: seq<K>, scores: seq<real>) returns (rows: seq<Row<K>>)
    requires |keys| == |scores|
    ensures rows == GroupRows(keys, scores)
  {
    var order, tallies := GroupTally(keys, scores);
    forall i | 0 <= i < |order| ensures order[i] in tallies && tallies[order[i]].count > 0 {
      FirstSeenSpec(keys);
      FirstSeenCounted(keys);
      assert order[i] in FirstSeen(keys);
    }
    rows := seq(|order|, i requires 0 <= i < |order| =>
      Row(order[i], tallies[order[i]].count, tallies[order[i]].accuracySum / tallies[order[i]].count as real));
  }

  /** With every score in [lo, hi], every average is in [lo, hi]. */
  lemma GroupRowsAverageBounds<K>(keys: seq<K>, scores: seq<real>, lo: real, hi: real)
    requires |keys| == |scores|
    requires forall i :: 0 <= i < |scores| ==> lo <= scores[i] <= hi
    ensures forall r :: r in GroupRows(keys, scores) ==> lo <= r.avgAccuracy <= hi
  {
    var rows := GroupRows(keys, scores);
    forall i | 0 <= i < |rows| ensures lo <= rows[i].avgAccuracy <= hi {
      var k := rows[i].key;
      var n := CountOf(keys, k) as real;
      var sum := ScoreSum(keys, scores, k);
      ScoreSumBounds(keys, scores, k, lo, hi);
      AverageBounds(sum, n, lo, hi);
    }
  }

  // ---------------------------------------------------------------- sorting

  /** Inserting `x` before the first row whose count does not exceed its
      own keeps a descending list descending and ties in order. */
  function InsertByCount<K>(x: Row<K>, s: seq<Row<K>>): seq<Row<K>> {
    if |s| == 0 then [x]
    else if s[0].count <= x.count then [x] + s
    else [s[0]] + InsertByCount(x, s[1..])
  }

  /** `.sort((a, b) => b.count - a.count)`: a stable sort by count, largest first. */
  function SortByCount<K>(rows: seq<Row<K>>): seq<Row<K>> {
    if |rows| == 0 then [] else InsertByCount(rows[0], SortByCount(rows[1..]))
  }

  predicate Descending<K>(s: seq<Row<K>>) {
    forall i, j :: 0 <= i < j < |s| ==> s[i].count >= s[j].count
  }

  /** The rows with a given count, in their order. */
  function WithCount<K>(s: seq<Row<K>>, n: nat): seq<Row<K>> {
    if |s| == 0 then []
    else (if s[0].count == n then [s[0]] else []) + WithCount(s[1..], n)
  }

  /** Inserting adds exactly the one row. */
  lemma {:induction false} InsertByCountPermutes<K>(x: Row<K>, s: seq<Row<K>>)
    ensures multiset(InsertByCount(x, s)) == multiset(s) + multiset{x}
  {
    if |s| > 0 && s[0].count > x.count {
      InsertByCountPermutes(x, s[1..]);
      assert s == [s[0]] + s[1..];
    }
  }

  /** A bound on every count survives insertion of a row within it. */
  lemma {:induction false} InsertByCountBounded<K>(x: Row<K>, s: seq<Row<K>>, b: nat)
    requires x.count <= b && forall i :: 0 <= i < |s| ==> s[i].count <= b
    ensures forall i :: 0 <= i < |InsertByCount(x, s)| ==> InsertByCount(x, s)[i].count <= b
  {
    if |s| > 0 && s[0].count > x.count {
      InsertByCountBounded(x, s[1..], b);
    }
  }

  lemma {:induction false} InsertByCountDescending<K>(x: Row<K>, s: seq<Row<K>>)
    requires Descending(s)
    ensures Descending(InsertByCount(x, s))
  {
    var r := InsertByCount(x, s);
    if |s| == 0 {
    } else if s[0].count <= x.count {
      forall i, j | 0 <= i < j < |r| ensures r[i].count >= r[j].count {
        assert r[j] == s[j - 1];
        if i > 0 {
          assert r[i] == s[i - 1];
        } else {
          assert s[0].count >= s[j - 1].count;
        }
      }
    } else {
      var rest := InsertByCount(x, s[1..]);
      InsertByCountDescending(x, s[1..]);
      InsertByCountBounded(x, s[1..], s[0].count);
      forall i, j | 0 <= i < j < |r| ensures r[i].count >= r[j].count {
        assert r[j] == rest[j - 1];
        if i > 0 {
          assert r[i] == rest[i - 1];
        }
      }
    }
  }

  /** Rows of the inserted row's count see it first: insertion is stable. */
  lemma {:induction false} InsertByCountStable<K>(x: Row<K>, s: seq<Row<K>>, n: nat)
    ensures WithCount(InsertByCount(x, s), n) == (if x.count == n then [x] else []) + WithCount(s, n)
  {
    var r := InsertByCount(x, s);
    if |s| == 0 {
    } else if s[0].count <= x.count {
      assert r[1..] == s;
    } else {
      var rest := InsertByCount(x, s[1..]);
      assert r == [s[0]] + rest && r[0] == s[0] && r[1..] == rest;
      InsertByCountStable(x, s[1..], n);
      if x.count == n {
        assert WithCount(r, n) == WithCount(rest, n) == [x] + WithCount(s[1..], n);
        assert WithCount(s, n) == WithCount(s[1..], n);
      } else {
        assert WithCount(rest, n) == WithCount(s[1..], n);
      }
    }
  }

  /** The sort yields the rows in descending count order, as a
      permutation, and rows of equal count keep their relative order. */
  lemma {:induction false} SortByCountSpec<K>(rows: seq<Row<K>>)
    ensures Descending(SortByCount(rows))
    ensures multiset(SortByCount(rows)) == multiset(rows)
    ensures forall n: nat :: WithCount(SortByCount(rows), n) == WithCount(rows, n)
  {
    if |rows| > 0 {
      var sortedRest := SortByCount(rows[1..]);
      SortByCountSpec(rows[1..]);
      InsertByCountDescending(rows[0], sortedRest);
      InsertByCountPermutes(rows[0], sortedRest);
      assert rows == [rows[0]] + rows[1..];
      forall n: nat ensures WithCount(SortByCount(rows), n) == WithCount(rows, n) {
        InsertByCountStable(rows[0], sortedRest, n);
      }
    }
  }

  // ---------------------------------------------------------------- categorizeQuestions

  function CategoryKeys(contents: seq<string>): (r: seq<Category>)
    ensures |r| == |contents| && forall i :: 0 <= i < |contents| ==> r[i] == DetectCategory(Lower(contents[i]))
  {
    seq(|contents|, i requires 0 <= i < |contents| => DetectCategory(Lower(contents[i])))
  }

  function CategoryScores(contents: seq<string>): (r: seq<real>)
    ensures |r| == |contents| && forall i :: 0 <= i < |contents| ==> r[i] == MessageAccuracy(Lower(contents[i]))
  {
    seq(|contents|, i requires 0 <= i < |contents| => MessageAccuracy(Lower(contents[i])))
  }

  /** The rows with their display names. */
  function Translated(rows: seq<Row<Category>>): (r: seq<Row<string>>)
    ensures |r| == |rows|
    ensures forall i :: 0 <= i < |rows| ==> r[i] == Row(Translate(rows[i].key), rows[i].count, rows[i].avgAccuracy)
  {
    seq(|rows|, i requires 0 <= i < |rows| => Row(Translate(rows[i].key), rows[i].count, rows[i].avgAccuracy))
  }

  /** Every category row of the user messages, before sorting. */
  function CategoryRows(messages: seq<Event>): seq<Row<string>> {
    var contents := UserContents(messages);
    Translated(GroupRows(CategoryKeys(contents), CategoryScores(contents)))
  }

  /** The value of `categorizeQuestions`. */
  function TopCategories(messages: seq<Event>): seq<Row<string>> {
    Take(SortByCount(CategoryRows(messages)), 5)
  }

  /** `categorizeQuestions`: user messages are lower-cased, categorised and
      tallied; the rows are sorted by count and the first five kept. */
  method CategorizeQuestions(messages: seq<Event>) returns (top: seq<Row<string>>)
    ensures top == TopCategories(messages)
  {
    var userMessages := UserContents(messages);
    var rows := EntryRows(CategoryKeys(userMessages), CategoryScores(userMessages));
    top := Take(SortByCount(Translated(rows)), 5);
  }

  /** The first `n` rows of the sorted list: at most `n`, largest count
      first, drawn from the rows, and no row left out has a larger count
      than a row kept. */
  lemma TopOfSorted<K>(rows: seq<Row<K>>, n: nat)
    ensures var top := Take(SortByCount(rows), n);
      |top| <= n && Descending(top) && multiset(top) <= multiset(rows)
      && forall x, y :: x in multiset(rows) - multiset(top) && y in top ==> x.count <= y.count
  {
    var sorted := SortByCount(rows);
    SortByCountSpec(rows);
    var k := |Take(sorted, n)|;
    PrefixOfDescending(sorted, k);
  }

  /** A prefix of a descending list is descending, and a row past the
      prefix has no larger count than a row in it. */
  lemma PrefixOfDescending<K>(sorted: seq<Row<K>>, k: nat)
    requires Descending(sorted) && k <= |sorted|
    ensures Descending(sorted[..k]) && multiset(sorted[..k]) <= multiset(sorted)
    ensures forall x, y :: x in multiset(sorted) - multiset(sorted[..k]) && y in sorted[..k] ==> x.count <= y.count
  {
    var top := sorted[..k];
    SplitAt(sorted, k);
    assert Descending(top) by {
      forall i, j | 0 <= i < j < |top| ensures top[i].count >= top[j].count {
        assert top[i] == sorted[i] && top[j] == sorted[j];
      }
    }
    forall x, y | x in multiset(sorted) - multiset(top) && y in top ensures x.count <= y.count {
      RestBelowTop(sorted, k, x, y);
    }
  }

  /** A row after position `k` of a descending list has no larger count
      than a row before it. */
  lemma RestBelowTop<K>(sorted: seq<Row<K>>, k: nat, x: Row<K>, y: Row<K>)
    requires Descending(sorted) && k <= |sorted| && x in sorted[k..] && y in sorted[..k]
    ensures x.count <= y.count
  {
    var i :| 0 <= i < |sorted[k..]| && sorted[k..][i] == x;
    var j :| 0 <= j < |sorted[..k]| && sorted[..k][j] == y;
    assert sorted[k + i] == x && sorted[j] == y;
  }

  /** Every category row has a positive count and an average accuracy in [0.75, 1]. */
  lemma CategoryRowsBounds(messages: seq<Event>)
    ensures forall r :: r in CategoryRows(messages) ==> r.count > 0 && 0.75 <= r.avgAccuracy <= 1.0
  {
    var contents := UserContents(messages);
    var keys, scores := CategoryKeys(contents), CategoryScores(contents);
    var g := GroupRows(keys, scores);
    GroupRowsAverageBounds(keys, scores, 0.75, 1.0);
    forall r | r in CategoryRows(messages) ensures r.count > 0 && 0.75 <= r.avgAccuracy <= 1.0 {
      var i :| 0 <= i < |g| && CategoryRows(messages)[i] == r;
      assert g[i] in g;
    }
  }

  /** `categorizeQuestions` returns at most five rows, largest count first,
      each with a positive count and an average accuracy in [0.75, 1], all
      taken from the category rows; a row left out has no larger count
      than any kept. */
  lemma TopCategoriesSpec(messages: seq<Event>)
    ensures var top := TopCategories(messages);
      |top| <= 5 && Descending(top)
      && multiset(top) <= multiset(CategoryRows(messages))
      && (forall r :: r in top ==> r.count > 0 && 0.75 <= r.avgAccuracy <= 1.0)
      && forall x, y :: x in multiset(CategoryRows(messages)) - multiset(top) && y in top ==> x.count <= y.count
  {
    var rows := CategoryRows(messages);
    var top := TopCategories(messages);
    TopOfSorted(rows, 5);
    CategoryRowsBounds(messages);
    forall r | r in top ensures r.count > 0 && 0.75 <= r.avgAccuracy <= 1.0 {
      assert r in multiset(top);
      assert r in multiset(rows);
    }
  }

  /** Each category row counts exactly the user messages of its category,
      and different rows belong to different categories. */
  lemma CategoryRowsCount(messages: seq<Event>, i: nat)
    requires i < |CategoryRows(messages)|
    ensures var contents := UserContents(messages);
      exists c :: CategoryRows(messages)[i].key == Translate(c)
        && CategoryRows(messages)[i].count == CountOf(CategoryKeys(contents), c)
  {
    var contents := UserContents(messages);
    var g := GroupRows(CategoryKeys(contents), CategoryScores(contents));
    assert CategoryRows(messages)[i].key == Translate(g[i].key);
  }

  // ---------------------------------------------------------------- analyzeComplexity

  function ComplexityKeys(contents: seq<string>): (r: seq<Complexity>)
    ensures |r| == |contents| && forall i :: 0 <= i < |contents| ==> r[i] == DetectComplexity(contents[i])
  {
    seq(|contents|, i requires 0 <= i < |contents| => DetectComplexity(contents[i]))
  }

  function ComplexityScores(contents: seq<string>): (r: seq<real>)
    ensures |r| == |contents| && forall i :: 0 <= i < |contents| ==> r[i] == MessageAccuracy(contents[i])
  {
    seq(|contents|, i requires 0 <= i < |contents| => MessageAccuracy(contents[i]))
  }

  /** `analyzeComplexity`: like the categories, on the content as written
      (not lower-cased), unsorted and not truncated. */
  method AnalyzeComplexity(messages: seq<Event>) returns (rows: seq<Row<Complexity>>)
    ensures var contents := UserContents(messages);
      rows == GroupRows(ComplexityKeys(contents), ComplexityScores(contents))
    ensures |rows| <= 3
  {
    var userMessages := UserContents(messages);
    var keys := ComplexityKeys(userMessages);
    rows := EntryRows(keys, ComplexityScores(userMessages));
    FirstSeenSpec(keys);
    AtMostThreeLevels(FirstSeen(keys));
  }

  /** A list without duplicates has as many elements as it has entries. */
  lemma {:induction false} DistinctCardinality<K>(s: seq<K>)
    requires NoDuplicates(s)
    ensures |set x | x in s| == |s|
  {
    if |s| > 0 {
      var init := s[..|s| - 1];
      DistinctCardinality(init);
      assert s == init + [s[|s| - 1]];
      assert (set x | x in s) == (set x | x in init) + {s[|s| - 1]};
      assert s[|s| - 1] !in init;
    }
  }

  lemma {:induction false} SubsetCardinality<T>(a: set<T>, b: set<T>)
    requires a <= b
    ensures |a| <= |b|
    decreases |a|
  {
    if a != {} {
      var x :| x in a;
      SubsetCardinality(a - {x}, b - {x});
    }
  }

  /** A list of distinct complexities has at most three entries. */
  lemma AtMostThreeLevels(s: seq<Complexity>)
    requires NoDuplicates(s)
    ensures |s| <= 3
  {
    DistinctCardinality(s);
    var levels := set x | x in s;
    forall x | x in levels ensures x in {Simple, Medium, Complex} {
      match x
      case Simple =>
      case Medium =>
      case Complex =>
    }
    SubsetCardinality(levels, {Simple, Medium, Complex});
  }

  // ---------------------------------------------------------------- analyzeSentiment

  /** How many of the contents, lower-cased, have sentiment `s`. */
  function SentimentTally(contents: seq<string>, s: Sentiment): nat {
    if |contents| == 0 then 0
    else
      var last := if DetectSentiment(Lower(contents[|contents| - 1])) == s then 1 else 0;
      SentimentTally(contents[..|contents| - 1], s) + last
  }

  /** The three tallies together count every message once. */
  lemma {:induction false} SentimentTalliesSum(contents: seq<string>)
    ensures SentimentTally(contents, Positive) + SentimentTally(contents, Neutral)
      + SentimentTally(contents, Negative) == |contents|
  {
    if |contents| > 0 {
      SentimentTalliesSum(contents[..|contents| - 1]);
    }
  }

  datatype SentimentRow = SentimentRow(sentiment: Sentiment, count: nat, percentage: real)

  /** `(count / (total || 1)) * 100`. */
  function Percentage(count: nat, total: nat): real {
    (count as real / (if total == 0 then 1 else total) as real) * 100.0
  }

  /** The row of sentiment `s`: how many of `contents` have it, and that
      count as a percentage of all of them. */
  function RowFor(contents: seq<string>, s: Sentiment): SentimentRow {
    SentimentRow(s, SentimentTally(contents, s), Percentage(SentimentTally(contents, s), |contents|))
  }

  /** `analyzeSentiment`: the three rows in the order positive, neutral,
      negative, counting the user messages of each sentiment. */
  method AnalyzeSentiment(messages: seq<Event>) returns (rows: seq<SentimentRow>)
    ensures var contents := UserContents(messages);
      rows == [RowFor(contents, Positive), RowFor(contents, Neutral), RowFor(contents, Negative)]
      && rows[0].count + rows[1].count + rows[2].count == |contents|
  {
    var userMessages := UserContents(messages);
    var counts := map[Positive := 0, Neutral := 0, Negative := 0];
    forall s: Sentiment ensures s in counts && counts[s] == SentimentTally(userMessages[..0], s) {
      match s
      case Positive =>
      case Neutral =>
      case Negative =>
    }
    for i := 0 to |userMessages|
      invariant forall s: Sentiment :: s in counts && counts[s] == SentimentTally(userMessages[..i], s)
    {
      assert userMessages[..i + 1][..i] == userMessages[..i];
      var sentiment := DetectSentiment(Lower(userMessages[i]));
      counts := counts[sentiment := counts[sentiment] + 1];
    }
    assert userMessages[..|userMessages|] == userMessages;
    SentimentTalliesSum(userMessages);
    var total := |userMessages|;
    rows := [
      SentimentRow(Positive, counts[Positive], Percentage(counts[Positive], total)),
      SentimentRow(Neutral, counts[Neutral], Percentage(counts[Neutral], total)),
      SentimentRow(Negative, counts[Negative], Percentage(counts[Negative], total))];
  }

  /** With at least one user message the percentages add up to 100; with
      none they are all 0. */
  lemma PercentagesSumToHundred(contents: seq<string>)
    ensures var n := |contents|;
      var sum := Percentage(SentimentTally(contents, Positive), n) + Percentage(SentimentTally(contents, Neutral), n)
        + Percentage(SentimentTally(contents, Negative), n);
      (n > 0 ==> sum == 100.0) && (n == 0 ==> sum == 0.0)
  {
    SentimentTalliesSum(contents);
    if |contents| > 0 {
      SharesSumToHundred(SentimentTally(contents, Positive) as real, SentimentTally(contents, Neutral) as real,
        SentimentTally(contents, Negative) as real, |contents| as real);
    }
  }

  lemma SharesSumToHundred(a: real, b: real, c: real, n: real)
    requires n > 0.0 && a + b + c == n
    ensures (a / n) * 100.0 + (b / n) * 100.0 + (c / n) * 100.0 == 100.0
  {
    assert a / n + b / n + c / n == (a + b + c) / n;
  }

  // ---------------------------------------------------------------- satisfaction

  /** `sentimentDistribution.find(s => s.sentiment === x)?.percentage || 0`. */
  function PercentageOf(rows: seq<SentimentRow>, s: Sentiment): real {
    if |rows| == 0 then 0.0
    else if rows[0].sentiment == s then rows[0].percentage
    else PercentageOf(rows[1..], s)
  }

  /** The satisfaction formula before clamping. */
  function RawSatisfaction(rows: seq<SentimentRow>, accuracy: real, helpfulness: real): real {
    0.5 + (PercentageOf(rows, Positive) / 100.0) * 0.3 - (PercentageOf(rows, Negative) / 100.0) * 0.2
      + accuracy * 0.3 + helpfulness * 0.2
  }

  /** `calculateSatisfaction`: the formula clamped to [0, 1]. */
  function CalculateSatisfaction(rows: seq<SentimentRow>, accuracy: real, helpfulness: real): (r: real)
    ensures 0.0 <= r <= 1.0
    ensures var raw := RawSatisfaction(rows, accuracy, helpfulness);
      (0.0 <= raw <= 1.0 ==> r == raw) && (raw < 0.0 ==> r == 0.0) && (raw > 1.0 ==> r == 1.0)
  {
    var satisfaction := RawSatisfaction(rows, accuracy, helpfulness);
    var lower := if satisfaction > 0.0 then satisfaction else 0.0;
    if lower < 1.0 then lower else 1.0
  }

  /** Percentages and scores in range keep the formula at 0.3 or above, so
      only the upper clamp can ever apply. */
  lemma SatisfactionNeverClampedToZero(rows: seq<SentimentRow>, accuracy: real, helpfulness: real)
    requires forall i :: 0 <= i < |rows| ==> 0.0 <= rows[i].percentage <= 100.0
    requires 0.0 <= accuracy <= 1.0 && 0.0 <= helpfulness <= 1.0
    ensures CalculateSatisfaction(rows, accuracy, helpfulness) >= 0.3
  {
    PercentageOfInRange(rows, Positive);
    PercentageOfInRange(rows, Negative);
  }

  lemma {:induction false} PercentageOfInRange(rows: seq<SentimentRow>, s: Sentiment)
    requires forall i :: 0 <= i < |rows| ==> 0.0 <= rows[i].percentage <= 100.0
    ensures 0.0 <= PercentageOf(rows, s) <= 100.0
  {
    if |rows| > 0 && rows[0].sentiment != s {
      PercentageOfInRange(rows[1..], s);
    }
  }

  /** A higher accuracy never lowers the satisfaction. */
  lemma SatisfactionMonotoneInAccuracy(rows: seq<SentimentRow>, a1: real, a2: real, helpfulness: real)
    requires a1 <= a2
    ensures CalculateSatisfaction(rows, a1, helpfulness) <= CalculateSatisfaction(rows, a2, helpfulness)
  {
  }

  /** The percentages that `AnalyzeSentiment` produces lie in [0, 100]. */
  lemma AnalysisPercentagesInRange(contents: seq<string>, s: Sentiment)
    ensures 0.0 <= Percentage(SentimentTally(contents, s), |contents|) <= 100.0
  {
    SentimentTalliesSum(contents);
    PercentageBounds(SentimentTally(contents, s), |contents|);
  }

  lemma PercentageBounds(count: nat, total: nat)
    requires count <= total
    ensures 0.0 <= Percentage(count, total) <= 100.0
  {
    var n := if total == 0 then 1 else total;
    AverageBounds(count as real, n as real, 0.0, 1.0);
  }
}
