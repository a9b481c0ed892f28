/** The query classifier of the RAG service: scores a lower-cased query
    against six keyword/pattern tables, picks the best category, and reads
    off intent, context needs and complexity with fixed word lists. */
module QueryAnalysis {
  import opened Text
  import opened Regex

  /** The categories of `query_patterns`, in declaration order. */
  datatype Category = SpecificProgram | AdmissionProcess | FeesScholarships
                    | FacilitiesCampus | CareerProspects | GeneralInfo

  const Categories: seq<Category> :=
    [SpecificProgram, AdmissionProcess, FeesScholarships, FacilitiesCampus, CareerProspects, GeneralInfo]

  /** Position of a category in the table, its only one. */
  function CategoryIndex(c: Category): (k: nat)
    ensures k < |Categories| && Categories[k] == c
    ensures forall j :: 0 <= j < |Categories| && Categories[j] == c ==> j == k
  {
    match c
    case SpecificProgram => 0
    case AdmissionProcess => 1
    case FeesScholarships => 2
    case FacilitiesCampus => 3
    case CareerProspects => 4
    case GeneralInfo => 5
  }

  /** The key naming a category (also the prompt specialisation key). */
  function CategoryName(c: Category): string {
    match c
    case SpecificProgram => "specific_program"
    case AdmissionProcess => "admission_process"
    case FeesScholarships => "fees_scholarships"
    case FacilitiesCampus => "facilities_campus"
    case CareerProspects => "career_prospects"
    case GeneralInfo => "general_info"
  }

  /** The analysis type: a category, or "general" when nothing scored. */
  datatype QueryType = General | Typed(category: Category)

  /** One entry of `query_patterns`: its keywords and its regular expressions. */
  datatype CategoryTable = CategoryTable(category: Category, keywords: seq<string>, patterns: seq<seq<Atom>>)

  /** Both lists are non-empty, so the confidence shares are defined. */
  predicate WellFormed(t: CategoryTable) {
    |t.keywords| > 0 && |t.patterns| > 0
  }

  const Sp: Atom := Plus(Space)
  const Wd: Atom := Plus(Word)

  /** `query_patterns`, in declaration order. */
  const QueryPatterns: seq<CategoryTable> := [
    CategoryTable(SpecificProgram,
      ["ngành", "chuyên ngành", "khoa", "bằng cử nhân", "bằng thạc sĩ", "công nghệ thông tin", "kinh tế",
       "luật", "y khoa", "kỹ thuật", "quản trị kinh doanh", "tài chính", "marketing", "du lịch"],
      [[Lit("ngành"), Sp, Wd],
       [Lit("chuyên ngành"), Sp, Wd],
       [Lit("khoa"), Sp, Wd],
       [Lit("học"), Sp, Wd, Sp, Lit("ở"), Sp, Lit("đâu")]]),
    CategoryTable(AdmissionProcess,
      ["xét tuyển", "tuyển sinh", "đăng ký", "hồ sơ", "thủ tục", "điều kiện", "yêu cầu", "phương thức",
       "kỳ thi", "điểm chuẩn", "thời gian", "deadline", "hạn chót", "nộp hồ sơ"],
      [[Lit("làm"), Sp, Lit("thế"), Sp, Lit("nào"), Sp, Lit("để")],
       [Lit("cách"), Sp, Wd],
       [Lit("quy"), Sp, Lit("trình"), Sp, Wd],
       [Lit("thủ"), Sp, Lit("tục"), Sp, Wd]]),
    CategoryTable(FeesScholarships,
      ["học phí", "chi phí", "tiền học", "học bổng", "miễn giảm", "hỗ trợ tài chính", "vay vốn", "trả góp",
       "giá cả", "phí"],
      [[Lit("học"), Sp, Lit("phí"), Sp, Wd],
       [Lit("chi"), Sp, Lit("phí"), Sp, Wd],
       [Lit("bao"), Sp, Lit("nhiêu"), Sp, Lit("tiền")],
       [Lit("giá"), Sp, Wd]]),
    CategoryTable(FacilitiesCampus,
      ["cơ sở vật chất", "thư viện", "phòng lab", "ký túc xá", "căng tin", "sân chơi", "wifi", "máy tính",
       "thiết bị", "địa chỉ", "vị trí"],
      [[Lit("có"), Sp, Wd, Sp, Lit("không")],
       [Lit("ở"), Sp, Lit("đâu")],
       [Lit("địa"), Sp, Lit("chỉ"), Sp, Wd]]),
    CategoryTable(CareerProspects,
      ["việc làm", "nghề nghiệp", "cơ hội", "tương lai", "ra trường", "mức lương", "công ty", "doanh nghiệp",
       "thực tập"],
      [[Lit("ra"), Sp, Lit("trường"), Sp, Lit("làm"), Sp, Lit("gì")],
       [Lit("cơ"), Sp, Lit("hội"), Sp, Lit("việc"), Sp, Lit("làm")],
       [Lit("tương"), Sp, Lit("lai"), Sp, Wd]]),
    CategoryTable(GeneralInfo,
      ["trường", "đại học", "thông tin", "giới thiệu", "lịch sử", "thành lập", "danh tiếng", "xếp hạng",
       "chất lượng"],
      [[Lit("trường"), Sp, Wd, Sp, Lit("như"), Sp, Lit("thế"), Sp, Lit("nào")],
       [Lit("giới"), Sp, Lit("thiệu"), Sp, Lit("về"), Sp, Wd]])
  ]

  lemma QueryPatternsShape()
    ensures FollowsCategories(QueryPatterns)
  {
  }

  const FollowUpWords: seq<string> := ["còn", "thêm", "nữa", "khác", "tiếp theo", "và"]
  const ClarificationWords: seq<string> := ["ý nghĩa", "có nghĩa", "hiểu", "rõ hơn", "chi tiết"]
  const ComparisonMarkers: seq<string> := ["so với", "khác", "giống", "tương tự", "hơn", "kém"]

  /** How many of `pats` `re.search` finds in `q`. */
  function CountSearch(q: string, pats: seq<seq<Atom>>): (n: nat)
    ensures n <= |pats|
    ensures n > 0 <==> exists i :: 0 <= i < |pats| && Search(q, pats[i])
  {
    if |pats| == 0 then 0
    else
      var init := pats[..|pats| - 1];
      assert forall i :: 0 <= i < |init| ==> init[i] == pats[i];
      CountSearch(q, init) + (if Search(q, pats[|pats| - 1]) then 1 else 0)
  }

  /** `_calculate_type_confidence`: keyword share weighted 0.7 plus pattern share weighted 0.3. */
  function TypeConfidence(q: string, t: CategoryTable): real
    requires WellFormed(t)
  {
    (CountContained(q, t.keywords) as real / |t.keywords| as real) * 0.7
      + (CountSearch(q, t.patterns) as real / |t.patterns| as real) * 0.3
  }

  lemma RatioBounds(k: nat, n: nat)
    requires k <= n && n > 0
    ensures 0.0 <= k as real / n as real <= 1.0
    ensures k as real / n as real > 0.0 <==> k > 0
  {
  }

  /** A confidence lies in [0, 1], and is positive exactly when some keyword
      or some pattern of the category is found. */
  lemma {:induction false} ConfidenceBounds(q: string, t: CategoryTable)
    requires WellFormed(t)
    ensures 0.0 <= TypeConfidence(q, t) <= 1.0
    ensures TypeConfidence(q, t) > 0.0 <==>
      ContainsAny(q, t.keywords) || exists i :: 0 <= i < |t.patterns| && Search(q, t.patterns[i])
  {
    RatioBounds(CountContained(q, t.keywords), |t.keywords|);
    RatioBounds(CountSearch(q, t.patterns), |t.patterns|);
  }

  /** `_calculate_type_confidence`, counting with two loops. */
  method CalculateTypeConfidence(q: string, t: CategoryTable) returns (conf: real)
    requires WellFormed(t)
    ensures conf == TypeConfidence(q, t)
    ensures 0.0 <= conf <= 1.0
  {
    var keywords := t.keywords;
    var patterns := t.patterns;
    var keywordMatches := 0;
    for i := 0 to |keywords|
      invariant keywordMatches == CountContained(q, keywords[..i])
    {
      CountContainedAppend(q, keywords[..i], keywords[i]);
      assert keywords[..i + 1] == keywords[..i] + [keywords[i]];
      if Contains(q, keywords[i]) {
        keywordMatches := keywordMatches + 1;
      }
    }
    var patternMatches := 0;
    for i := 0 to |patterns|
      invariant patternMatches == CountSearch(q, patterns[..i])
    {
      assert patterns[..i + 1][..i] == patterns[..i];
      if Search(q, patterns[i]) {
        patternMatches := patternMatches + 1;
      }
    }
    assert keywords[..|keywords|] == keywords;
    assert patterns[..|patterns|] == patterns;
    conf := (keywordMatches as real / |keywords| as real) * 0.7 + (patternMatches as real / |patterns| as real) * 0.3;
    ConfidenceBounds(q, t);
  }

  /** Every table keyword, category by category. */
  function AllKeywords(tables: seq<CategoryTable>): seq<string> {
    if |tables| == 0 then [] else AllKeywords(tables[..|tables| - 1]) + tables[|tables| - 1].keywords
  }

  /** The distinct keywords of `tables` found in `q`. */
  function KeywordsIn(q: string, tables: seq<CategoryTable>): set<string> {
    set k | k in AllKeywords(tables) && Contains(q, k)
  }

  /** The distinct keywords of `query_patterns` found in `q`. */
  function KeywordSet(q: string): set<string> {
    KeywordsIn(q, QueryPatterns)
  }

  /** `_extract_keywords` over the analyzer's tables: a loop over the tables
      collecting found keywords; duplicates disappear because the result is
      a set. */
  method ExtractKeywords(q: string, tables: seq<CategoryTable>) returns (keywords: set<string>)
    ensures keywords == KeywordsIn(q, tables)
    ensures forall k :: k in keywords ==> Contains(q, k)
  {
    keywords := {};
    for i := 0 to |tables|
      invariant keywords == set k | k in AllKeywords(tables[..i]) && Contains(q, k)
    {
      var table := tables[i].keywords;
      assert tables[..i + 1][..i] == tables[..i];
      for j := 0 to |table|
        invariant keywords == set k | k in AllKeywords(tables[..i]) + table[..j] && Contains(q, k)
      {
        assert table[..j + 1] == table[..j] + [table[j]];
        if Contains(q, table[j]) {
          keywords := keywords + {table[j]};
        }
      }
      assert table[..|table|] == table;
    }
    assert tables[..|tables|] == tables;
  }

  datatype Intent = InformationSeeking | ActionSeeking | Comparison | FollowUp

  const QuestionWords: seq<string> := ["gì", "ai", "đâu", "khi nào", "như thế nào", "tại sao", "bao nhiêu"]
  const ActionWords: seq<string> := ["đăng ký", "nộp", "làm", "thực hiện", "liên hệ"]
  const ComparisonWords: seq<string> := ["so với", "khác", "giống", "tương tự", "hơn"]

  /** `_analyze_intent`: question word, then action word, then comparison,
      then a follow-up word when there is context; otherwise information seeking. */
  function AnalyzeIntent(q: string, hasContext: bool): (r: Intent)
    ensures ContainsAny(q, QuestionWords) ==> r == InformationSeeking
    ensures r == ActionSeeking <==> !ContainsAny(q, QuestionWords) && ContainsAny(q, ActionWords)
    ensures r == Comparison <==>
      !ContainsAny(q, QuestionWords) && !ContainsAny(q, ActionWords) && ContainsAny(q, ComparisonWords)
    ensures r == FollowUp <==>
      hasContext && !ContainsAny(q, QuestionWords) && !ContainsAny(q, ActionWords)
      && !ContainsAny(q, ComparisonWords) && ContainsAny(q, FollowUpWords)
  {
    if ContainsAny(q, QuestionWords) then InformationSeeking
    else if ContainsAny(q, ActionWords) then ActionSeeking
    else if ContainsAny(q, ComparisonWords) then Comparison
    else if hasContext && ContainsAny(q, FollowUpWords) then FollowUp
    else InformationSeeking
  }

  /** "khác" is both a follow-up and a comparison word, so a query holding it
      is never classed as a follow-up. */
  lemma KhacIsNeverFollowUp(q: string, hasContext: bool)
    requires Contains(q, "khác")
    ensures AnalyzeIntent(q, hasContext) != FollowUp
  {
    assert ComparisonWords[1] == "khác";
  }

  const Pronouns: seq<string> := ["nó", "đó", "này", "kia", "đấy", "ấy"]

  /** `_requires_context`. */
  function RequiresContext(q: string): (r: bool)
    ensures r <==> WordCount(q) <= 3 || ContainsAny(q, Pronouns) || ContainsAny(q, FollowUpWords)
                   || ContainsAny(q, ClarificationWords)
  {
    if WordCount(q) <= 3 then true
    else if ContainsAny(q, Pronouns) then true
    else if ContainsAny(q, FollowUpWords) then true
    else ContainsAny(q, ClarificationWords)
  }

  datatype ContextKind = FollowUpContext | ClarificationContext | ComparisonContext

  /** `_get_context_type`: the first marker list that matches, or none. */
  function ContextTypeOf(q: string): (r: Option<ContextKind>)
    ensures r == None <==>
      !ContainsAny(q, FollowUpWords) && !ContainsAny(q, ClarificationWords) && !ContainsAny(q, ComparisonMarkers)
    ensures r == Some(FollowUpContext) <==> ContainsAny(q, FollowUpWords)
    ensures r == Some(ClarificationContext) <==> !ContainsAny(q, FollowUpWords) && ContainsAny(q, ClarificationWords)
    ensures r == Some(ComparisonContext) <==>
      !ContainsAny(q, FollowUpWords) && !ContainsAny(q, ClarificationWords) && ContainsAny(q, ComparisonMarkers)
  {
    if ContainsAny(q, FollowUpWords) then Some(FollowUpContext)
    else if ContainsAny(q, ClarificationWords) then Some(ClarificationContext)
    else if ContainsAny(q, ComparisonMarkers) then Some(ComparisonContext)
    else None
  }

  /** A follow-up or clarification context type always comes with requires_context. */
  lemma ContextTypeImpliesRequired(q: string)
    requires ContextTypeOf(q) == Some(FollowUpContext) || ContextTypeOf(q) == Some(ClarificationContext)
    ensures RequiresContext(q)
  {
  }

  datatype QueryComplexity = Simple | Medium | Complex

  /** `_determine_complexity`. */
  function DetermineComplexity(q: string): (r: QueryComplexity)
    ensures r == Complex <==>
      Contains(q, "và") || Contains(q, "hoặc") || Contains(q, "?") || WordCount(q) > 15
    ensures r == Medium <==>
      !(Contains(q, "và") || Contains(q, "hoặc") || Contains(q, "?") || WordCount(q) > 15)
      && WordCount(q) > 8 && |KeywordSet(q)| > 2
    ensures r == Simple <==>
      !(Contains(q, "và") || Contains(q, "hoặc") || Contains(q, "?") || WordCount(q) > 15)
      && !(WordCount(q) > 8 && |KeywordSet(q)| > 2)
  {
    var wordCount := WordCount(q);
    if Contains(q, "và") || Contains(q, "hoặc") || Contains(q, "?") then Complex
    else if wordCount > 15 then Complex
    else if wordCount > 8 && |KeywordSet(q)| > 2 then Medium
    else Simple
  }

  /** A query holding "và" is complex, has follow-up context and needs context. */
  lemma VaMarksFollowUp(q: string)
    requires Contains(q, "và")
    ensures DetermineComplexity(q) == Complex
    ensures ContextTypeOf(q) == Some(FollowUpContext)
    ensures RequiresContext(q)
  {
    assert FollowUpWords[5] == "và";
  }

  /** The running strict maximum of `analyze_query` over `tables`: the
      first category with the largest confidence, or General with
      confidence zero when every confidence is zero. */
  method BestType(q: string, tables: seq<CategoryTable>) returns (bestType: QueryType, maxConfidence: real)
    requires forall j :: 0 <= j < |tables| ==> WellFormed(tables[j])
    ensures forall j :: 0 <= j < |tables| ==> TypeConfidence(q, tables[j]) <= maxConfidence
    ensures bestType == General <==> forall j :: 0 <= j < |tables| ==> TypeConfidence(q, tables[j]) == 0.0
    ensures bestType == General ==> maxConfidence == 0.0
    ensures bestType.Typed? ==>
      exists k :: 0 <= k < |tables| && tables[k].category == bestType.category
        && maxConfidence == TypeConfidence(q, tables[k])
        && forall j :: 0 <= j < k ==> TypeConfidence(q, tables[j]) < maxConfidence
  {
    maxConfidence := 0.0;
    bestType := General;
    var bestIndex := -1;
    for i := 0 to |tables|
      invariant -1 <= bestIndex < i
      invariant bestIndex == -1 ==> bestType == General && maxConfidence == 0.0
      invariant bestIndex >= 0 ==>
        bestType == Typed(tables[bestIndex].category) && maxConfidence == TypeConfidence(q, tables[bestIndex])
        && maxConfidence > 0.0
        && forall j :: 0 <= j < bestIndex ==> TypeConfidence(q, tables[j]) < maxConfidence
      invariant forall j :: 0 <= j < i ==> 0.0 <= TypeConfidence(q, tables[j]) <= maxConfidence
    {
      var confidence := CalculateTypeConfidence(q, tables[i]);
      if confidence > maxConfidence {
        maxConfidence := confidence;
        bestType := Typed(tables[i].category);
        bestIndex := i;
      }
    }
  }

  /** The tables are well formed and list the categories in declaration order. */
  predicate FollowsCategories(tables: seq<CategoryTable>) {
    |tables| == |Categories| && forall j :: 0 <= j < |tables| ==> tables[j].category == Categories[j] && WellFormed(tables[j])
  }

  /** `t` with confidence `conf` is what `analyze_query` must pick from
      `tables` (whose entries follow `Categories`): no category scores
      more, General exactly when every category scores zero, otherwise the
      category scores `conf` and every earlier one strictly less. */
  predicate FirstBest(q: string, tables: seq<CategoryTable>, t: QueryType, conf: real) {
    FollowsCategories(tables)
    && (forall j :: 0 <= j < |tables| ==> TypeConfidence(q, tables[j]) <= conf)
    && (t == General <==> forall j :: 0 <= j < |tables| ==> TypeConfidence(q, tables[j]) == 0.0)
    && (t == General ==> conf == 0.0)
    && (t.Typed? ==>
          var k := CategoryIndex(t.category);
          conf == TypeConfidence(q, tables[k]) && forall j :: 0 <= j < k ==> TypeConfidence(q, tables[j]) < conf)
  }

  /** In a table whose entries follow `Categories`, the result of
      `BestType` is the first best category, found at its own index. */
  lemma FirstMaxAtIndex(q: string, tables: seq<CategoryTable>, t: QueryType, m: real)
    requires FollowsCategories(tables)
    requires forall j :: 0 <= j < |tables| ==> TypeConfidence(q, tables[j]) <= m
    requires t == General <==> forall j :: 0 <= j < |tables| ==> TypeConfidence(q, tables[j]) == 0.0
    requires t == General ==> m == 0.0
    requires t.Typed? ==>
      exists k :: 0 <= k < |tables| && tables[k].category == t.category
        && m == TypeConfidence(q, tables[k])
        && forall j :: 0 <= j < k ==> TypeConfidence(q, tables[j]) < m
    ensures FirstBest(q, tables, t, m)
  {
    if t.Typed? {
      var k :| 0 <= k < |tables| && tables[k].category == t.category
          && m == TypeConfidence(q, tables[k])
          && forall j :: 0 <= j < k ==> TypeConfidence(q, tables[j]) < m;
      assert Categories[k] == t.category;
    }
  }

  /** The analysis record `analyze_query` returns. */
  datatype Analysis = Analysis(queryType: QueryType, confidence: real, keywords: set<string>, intent: Intent,
                               contextType: Option<ContextKind>, requiresContext: bool,
                               complexity: QueryComplexity)

  /** `analyze_query`: lower-cases the query, picks the best type over
      `query_patterns` and fills in the other fields from the helpers. */
  method AnalyzeQuery(query: string, hasContext: bool) returns (a: Analysis)
    ensures FirstBest(Lower(query), QueryPatterns, a.queryType, a.confidence)
    ensures var q := Lower(query);
      a.keywords == KeywordSet(q) && a.intent == AnalyzeIntent(q, hasContext)
      && a.requiresContext == RequiresContext(q) && a.contextType == ContextTypeOf(q)
      && a.complexity == DetermineComplexity(q)
  {
    var q := Lower(query);
    QueryPatternsShape();
    var bestType, maxConfidence := BestType(q, QueryPatterns);
    FirstMaxAtIndex(q, QueryPatterns, bestType, maxConfidence);
    var keywords := ExtractKeywords(q, QueryPatterns);
    a := Analysis(bestType, maxConfidence, keywords, AnalyzeIntent(q, hasContext), ContextTypeOf(q),
                  RequiresContext(q), DetermineComplexity(q));
  }
}
