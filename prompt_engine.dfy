/** The prompt builder of the RAG service: the system text is the base
    prompt, then optional guidance for the query type and for the context
    type, then the recent conversation, then the document and contact
    block; the template adds the retrieved context, the chat history and
    the user input. The query, the enhanced query and the retrieved
    documents are accepted by the source but not used, so they are not
    parameters here. */
module PromptEngine {
  import opened Text

  const BasePrompt: string := @"
Bạn là một chuyên viên tư vấn tuyển sinh thông minh, chuyên nghiệp và thân thiện của Trường Đại học Đông Á. 
Bạn có khả năng hiểu ngữ cảnh cuộc trò chuyện và đưa ra những câu trả lời chính xác, hữu ích.

🎯 **Nhiệm vụ chính**:
- Tư vấn chính xác về tuyển sinh, ngành học, học phí, học bổng và mọi thông tin liên quan đến trường
- Hiểu và sử dụng ngữ cảnh cuộc trò chuyện để đưa ra câu trả lời phù hợp
- Luôn dựa vào thông tin chính thức từ dữ liệu được cung cấp

📌 **Nguyên tắc trả lời**:
1. **Ngữ cảnh**: Luôn xem xét ngữ cảnh cuộc trò chuyện trước đó để hiểu đúng ý định của người hỏi
2. **Chính xác**: Chỉ sử dụng thông tin có trong dữ liệu được cung cấp
3. **Thân thiện**: Giọng văn ấm áp, chuyên nghiệp nhưng gần gũi
4. **Cụ thể**: Đưa ra thông tin chi tiết, có cấu trúc rõ ràng
5. **Hướng dẫn**: Luôn sẵn sàng hướng dẫn bước tiếp theo hoặc cung cấp thông tin liên hệ khi cần

🚫 **Không được**:
- Phỏng đoán thông tin không có trong dữ liệu
- Bỏ qua ngữ cảnh cuộc trò chuyện
- Trả lời máy móc, thiếu cảm xúc
"
  const SpecializedPrompts: map<string, string> := map[
    "specific_program" := @"
Đây là câu hỏi về chương trình đào tạo cụ thể. Hãy tập trung vào:
- Thông tin chi tiết về ngành/chuyên ngành
- Cơ hội nghề nghiệp sau tốt nghiệp
- Điều kiện đầu vào và yêu cầu học tập
- Cấu trúc chương trình và thời gian đào tạo
",
    "admission_process" := @"
Đây là câu hỏi về quy trình tuyển sinh. Hãy tập trung vào:
- Các bước cụ thể trong quy trình xét tuyển
- Thời gian và deadline quan trọng
- Hồ sơ và giấy tờ cần thiết
- Phương thức xét tuyển và điểm chuẩn
",
    "fees_scholarships" := @"
Đây là câu hỏi về tài chính. Hãy tập trung vào:
- Mức học phí cụ thể theo từng ngành
- Các loại học bổng và điều kiện nhận
- Hình thức thanh toán và hỗ trợ tài chính
- So sánh chi phí với lợi ích nhận được
",
    "facilities_campus" := @"
Đây là câu hỏi về cơ sở vật chất. Hãy tập trung vào:
- Mô tả chi tiết các tiện ích và cơ sở
- Vị trí và cách thức tiếp cận
- Chất lượng và tình trạng hiện tại
- Dịch vụ hỗ trợ sinh viên
",
    "career_prospects" := @"
Đây là câu hỏi về triển vọng nghề nghiệp. Hãy tập trung vào:
- Cơ hội việc làm cụ thể sau tốt nghiệp
- Mức lương và điều kiện làm việc
- Các công ty và đối tác tuyển dụng
- Hỗ trợ tìm việc từ trường
",
    "follow_up" := @"
Đây là câu hỏi tiếp theo trong cuộc trò chuyện. Hãy:
- Tham khảo thông tin đã thảo luận trước đó
- Bổ sung thêm chi tiết liên quan
- Làm rõ những điểm chưa được giải thích đầy đủ
- Kết nối với ngữ cảnh cuộc trò chuyện
",
    "clarification" := @"
Người dùng cần làm rõ thông tin. Hãy:
- Giải thích chi tiết và dễ hiểu
- Đưa ra ví dụ cụ thể nếu cần
- Phân tích từng khía cạnh của vấn đề
- Đảm bảo người dùng hiểu đúng và đầy đủ
"
  ]
  const DocumentBlock: string := @"

**Sử dụng thông tin từ tài liệu**:
- Dựa vào thông tin trong {context} để trả lời
- Nếu không tìm thấy thông tin cần thiết, hãy thành thật nói rằng bạn không có thông tin đó
- Luôn ưu tiên thông tin chính thức từ trường
- Có thể tham khảo lịch sử trò chuyện trong {chat_history} để hiểu rõ hơn ngữ cảnh

**Thông tin liên hệ khi cần hỗ trợ thêm**:
📞 Hotline: 0236.3.650.403
📧 Email: tuyensinh@donga.edu.vn
🌐 Website: https://donga.edu.vn
📍 Địa chỉ: 33 Xô Viết Nghệ Tĩnh, Hải Châu, Đà Nẵng
"

  const TypeHeader: string := "\n\n**Hướng dẫn đặc biệt cho loại câu hỏi này**:\n"
  const ContextHeader: string := "\n\n**Hướng dẫn xử lý ngữ cảnh**:\n"
  const HistoryTitle: string := "\n\n**Ngữ cảnh cuộc trò chuyện**:\n"
  const HistoryIntro: string :=
    "Hãy xem xét thông tin sau từ cuộc trò chuyện trước đó để hiểu rõ hơn câu hỏi hiện tại:\n\n"
  const HistoryFooter: string :=
    "\nHãy sử dụng ngữ cảnh này để đưa ra câu trả lời phù hợp và có liên kết với cuộc trò chuyện."
  const UserLabel: string := "Người dùng"
  const AdvisorLabel: string := "Tư vấn viên"

  /** One context message as the prompt sees it: a role string and a content. */
  datatype ContextEntry = ContextEntry(role: string, content: string)

  /** The two fields of a query analysis the prompt reads; an absent
      analysis is `None`. */
  datatype AnalysisView = AnalysisView(queryType: Option<string>, contextType: Option<string>)

  /** A prompt engine: the base system prompt and the guidance per query
      or context type that its constructor sets and nothing changes. */
  datatype Engine = Engine(basePrompt: string, specializedPrompts: map<string, string>)

  /** `PromptEngine()`: the engine with the built-in texts. */
  function NewEngine(): (e: Engine)
    ensures "" !in e.specializedPrompts
  {
    Engine(BasePrompt, SpecializedPrompts)
  }

  /** One message of a chat prompt template. */
  datatype PromptPart = PromptPart(speaker: string, text: string)

  function RoleLabel(role: string): (r: string)
    ensures r == UserLabel <==> role == "USER"
  {
    if role == "USER" then UserLabel else AdvisorLabel
  }

  function HistoryLine(m: ContextEntry): string {
    RoleLabel(m.role) + ": " + m.content + "\n"
  }

  /** The line of each message, in order. */
  function Lines(msgs: seq<ContextEntry>): (r: seq<string>)
    ensures |r| == |msgs| && forall i :: 0 <= i < |msgs| ==> r[i] == HistoryLine(msgs[i])
  {
    seq(|msgs|, i requires 0 <= i < |msgs| => HistoryLine(msgs[i]))
  }

  /** The history lines of `msgs`, one per message, in order. */
  function HistoryLines(msgs: seq<ContextEntry>): string {
    Concat(Lines(msgs))
  }

  /** One more message adds its line at the end. */
  lemma HistoryLinesSnoc(s: seq<ContextEntry>, m: ContextEntry)
    ensures HistoryLines(s + [m]) == HistoryLines(s) + HistoryLine(m)
  {
    var ls := Lines(s + [m]);
    assert ls[..|s|] == Lines(s);
    assert ls[|s|] == HistoryLine(m);
  }

  /** The lines of two consecutive stretches are the lines of each, in order. */
  lemma HistoryLinesAppend(a: seq<ContextEntry>, b: seq<ContextEntry>)
    ensures HistoryLines(a + b) == HistoryLines(a) + HistoryLines(b)
  {
    assert Lines(a + b) == Lines(a) + Lines(b);
    ConcatAppend(Lines(a), Lines(b));
  }

  /** `context_messages[-6:] if len(context_messages) > 6 else context_messages`. */
  function RecentSix(msgs: seq<ContextEntry>): (r: seq<ContextEntry>)
    ensures |r| <= 6 && |r| <= |msgs| && r == msgs[|msgs| - |r|..]
    ensures |msgs| <= 6 ==> r == msgs
  {
    if |msgs| > 6 then msgs[|msgs| - 6..] else msgs
  }

  /** The conversation section of the system text; empty without context. */
  function HistoryBlock(msgs: seq<ContextEntry>): string {
    if |msgs| == 0 then "" else HistoryTitle + HistoryIntro + HistoryLines(RecentSix(msgs)) + HistoryFooter
  }

  /** Messages older than the last six never reach the prompt. */
  lemma HistoryIgnoresOlder(older: seq<ContextEntry>, msgs: seq<ContextEntry>)
    requires |msgs| >= 6
    ensures HistoryBlock(older + msgs) == HistoryBlock(msgs)
  {
    assert (older + msgs)[|older + msgs| - 6..] == msgs[|msgs| - 6..];
  }

  /** `_build_conversation_context_prompt`: the section text accumulated line by line. */
  method BuildConversationContextPrompt(msgs: seq<ContextEntry>) returns (contextPrompt: string)
    ensures contextPrompt == HistoryBlock(msgs)
    ensures |msgs| > 0 ==> IsPrefix(HistoryTitle, contextPrompt)
  {
    if |msgs| == 0 {
      return "";
    }
    contextPrompt := HistoryTitle;
    contextPrompt := contextPrompt + HistoryIntro;
    ghost var head := contextPrompt;
    var recent := if |msgs| > 6 then msgs[|msgs| - 6..] else msgs;
    for i := 0 to |recent|
      invariant contextPrompt == head + HistoryLines(recent[..i])
    {
      assert recent[..i + 1] == recent[..i] + [recent[i]];
      HistoryLinesSnoc(recent[..i], recent[i]);
      AppendAssoc(head, HistoryLines(recent[..i]), HistoryLine(recent[i]));
      contextPrompt := contextPrompt + HistoryLine(recent[i]);
    }
    assert recent[..|recent|] == recent;
    contextPrompt := contextPrompt + HistoryFooter;
    AppendAssoc(HistoryTitle, HistoryIntro, HistoryLines(recent));
    AppendAssoc(HistoryTitle, HistoryIntro + HistoryLines(recent), HistoryFooter);
    ConcatEnds(HistoryTitle, HistoryIntro + HistoryLines(recent) + HistoryFooter);
  }

  /** The guidance for the query type, present iff the type is a key of the table. */
  function TypeGuidance(e: Engine, analysis: Option<AnalysisView>): (r: string)
    ensures r != "" <==>
      analysis.Some? && analysis.value.queryType.Some? && analysis.value.queryType.value in e.specializedPrompts
  {
    if analysis.Some? && analysis.value.queryType.Some? && analysis.value.queryType.value in e.specializedPrompts
    then TypeHeader + e.specializedPrompts[analysis.value.queryType.value]
    else ""
  }

  /** The guidance for the context type, present iff that type is a
      non-empty key of the table, whatever the query type. */
  function ContextGuidance(e: Engine, analysis: Option<AnalysisView>): (r: string)
    requires "" !in e.specializedPrompts
    ensures r != "" <==>
      analysis.Some? && analysis.value.contextType.Some? && analysis.value.contextType.value in e.specializedPrompts
  {
    if analysis.Some? && analysis.value.contextType.Some? && analysis.value.contextType.value != ""
       && analysis.value.contextType.value in e.specializedPrompts
    then ContextHeader + e.specializedPrompts[analysis.value.contextType.value]
    else ""
  }

  /** The system text of `create_context_aware_prompt`. */
  function SystemPrompt(e: Engine, msgs: seq<ContextEntry>, analysis: Option<AnalysisView>): (r: string)
    requires "" !in e.specializedPrompts
    ensures IsPrefix(e.basePrompt, r) && IsSuffix(DocumentBlock, r)
  {
    var middle := TypeGuidance(e, analysis) + ContextGuidance(e, analysis) + HistoryBlock(msgs);
    Framed(e.basePrompt, middle, DocumentBlock);
    e.basePrompt + middle + DocumentBlock
  }

  /** `create_context_aware_prompt`: four parts in a fixed order (system text,
      retrieved context, chat history, user input). */
  function CreateContextAwarePrompt(e: Engine, msgs: seq<ContextEntry>, analysis: Option<AnalysisView>): (p: seq<PromptPart>)
    requires "" !in e.specializedPrompts
    ensures |p| == 4
    ensures p[0].speaker == "system" && p[1].speaker == "system" && p[2].speaker == "system" && p[3].speaker == "human"
    ensures IsPrefix(e.basePrompt, p[0].text) && IsSuffix(DocumentBlock, p[0].text)
    ensures p[3].text == "{input}"
  {
    [PromptPart("system", SystemPrompt(e, msgs, analysis)),
     PromptPart("system", "Thông tin liên quan từ cơ sở dữ liệu:\n{context}"),
     PromptPart("system", "Lịch sử cuộc trò chuyện: {chat_history}"),
     PromptPart("human", "{input}")]
  }

  /** Neither "general_info" nor "comparison" has guidance of its own. */
  lemma UnspecialisedTypes(other: Option<string>)
    ensures TypeGuidance(NewEngine(), Some(AnalysisView(Some("general_info"), other))) == ""
    ensures ContextGuidance(NewEngine(), Some(AnalysisView(other, Some("comparison")))) == ""
  {
  }

  /** `create_simple_prompt`: the base text, followed by the guidance of the
      type when it has one, then the context and the input. */
  function CreateSimplePrompt(e: Engine, queryType: string): (p: seq<PromptPart>)
    ensures |p| == 3 && p[0].speaker == "system" && p[2].speaker == "human"
    ensures queryType !in e.specializedPrompts ==> p[0].text == e.basePrompt
    ensures queryType in e.specializedPrompts ==> p[0].text == e.basePrompt + "\n\n" + e.specializedPrompts[queryType]
  {
    var systemPrompt := if queryType in e.specializedPrompts then e.basePrompt + "\n\n" + e.specializedPrompts[queryType]
                        else e.basePrompt;
    [PromptPart("system", systemPrompt),
     PromptPart("system", "Thông tin từ cơ sở dữ liệu: {context}"),
     PromptPart("human", "{input}")]
  }
}
