/** The chat orchestration: one user turn is appended to the conversation
    context, the context is read back and folded into the query, the
    answer is streamed token by token, and the full answer is appended as
    the assistant turn. The token stream of the answer engine is a
    parameter: the tokens it produces and, when it raises, after how many
    tokens it does. */
module ChatOrchestration {
  import opened Text
  import opened ConversationContext
  import opened ContextCaching

  /** One streamed item. */
  datatype StreamItem = StreamItem(delta: string, conversationId: string)

  const ErrorText: string := "Xin lỗi, tôi đang gặp sự cố kỹ thuật. Vui lòng thử lại sau."

  function Deltas(items: seq<StreamItem>): (r: seq<string>)
    ensures |r| == |items| && forall i :: 0 <= i < |items| ==> r[i] == items[i].delta
  {
    seq(|items|, i requires 0 <= i < |items| => items[i].delta)
  }

  lemma DeltasSnoc(items: seq<StreamItem>, it: StreamItem)
    ensures Deltas(items + [it]) == Deltas(items) + [it.delta]
  {
    assert Deltas(items + [it])[..|items|] == Deltas(items);
  }

  /** One line of the context summary: speaker, then the first 100 characters and "...". */
  function SummaryLine(m: ContextMessage): string {
    (if m.role == User then "Người dùng" else "Tư vấn viên") + ": " + Take(m.content, 100) + "..."
  }

  /** The summary lines of the last six context messages, in order. */
  function SummaryLines(ctx: seq<ContextMessage>): (r: seq<string>)
    ensures var recent := if |ctx| > 6 then ctx[|ctx| - 6..] else ctx;
      |r| == |recent| && forall i :: 0 <= i < |r| ==> r[i] == SummaryLine(recent[i])
  {
    var recent := if |ctx| > 6 then ctx[|ctx| - 6..] else ctx;
    seq(|recent|, i requires 0 <= i < |recent| => SummaryLine(recent[i]))
  }

  const ContextTitle: string := "\nNgữ cảnh cuộc trò chuyện gần đây:\n"
  const QueryClosing: string :=
    "\n\nHãy trả lời câu hỏi hiện tại với sự hiểu biết về ngữ cảnh cuộc trò chuyện trước đó.\n"

  /** `_enhance_query_with_context`: the message alone without context;
      otherwise a title, the summary lines joined by newlines, the message
      and a closing instruction. */
  function EnhanceQueryWithContext(message: string, ctx: seq<ContextMessage>): (r: string)
    ensures |ctx| == 0 ==> r == message
    ensures |ctx| > 0 ==> IsPrefix(ContextTitle, r) && IsSuffix(message + QueryClosing, r)
  {
    if |ctx| == 0 then message
    else
      var summary := SummaryLines(ctx);
      if |summary| > 0 then
        var middle := Join(summary, "\n") + "\n\nCâu hỏi hiện tại: ";
        Framed(ContextTitle, middle, message + QueryClosing);
        ContextTitle + middle + (message + QueryClosing)
      else message
  }

  /** Context older than the last six messages does not change the query. */
  lemma EnhanceIgnoresOlder(message: string, older: seq<ContextMessage>, ctx: seq<ContextMessage>)
    requires |ctx| >= 6
    ensures EnhanceQueryWithContext(message, older + ctx) == EnhanceQueryWithContext(message, ctx)
  {
    assert (older + ctx)[|older + ctx| - 6..] == ctx[|ctx| - 6..];
  }

  /** A message just added at `now` is the newest message of a read at `now`. */
  lemma {:induction false} AddedMessageIsRead(msgs: seq<Message>, m: Message, now: int)
    requires m.timestamp == now
    ensures var r := ContextRead(Trimmed(msgs + [m], now), None, now);
      |r| > 0 && r[|r| - 1] == ContextMessage(m.role, m.content, m.timestamp)
  {
    var t := Trimmed(msgs + [m], now);
    AppendThenTrimKeepsNewest(msgs, m, now);
    var init := t[..|t| - 1];
    assert t == init + [m];
    assert NewerThan(t, now - WindowSeconds) == NewerThan(init, now - WindowSeconds) + [m];
  }

  /** What the stream yields: every token, or, when the answer engine
      raises after `failure` tokens, those tokens and then the error text. */
  function StreamedDeltas(tokens: seq<string>, failure: Option<nat>): (r: seq<string>)
    ensures failure.None? ==> r == tokens
    ensures failure.Some? ==>
      |r| == (if failure.value < |tokens| then failure.value else |tokens|) + 1
      && r[..|r| - 1] <= tokens && r[|r| - 1] == ErrorText
  {
    if failure.None? then tokens
    else (if failure.value < |tokens| then tokens[..failure.value] else tokens) + [ErrorText]
  }

  /** The assistant turn that is stored: the whole answer, or the error text. */
  function Reply(tokens: seq<string>, failure: Option<nat>): string {
    if failure.None? then Concat(tokens) else ErrorText
  }

  /** The `async for` of `process_message_stream`: every token is added to
      the running answer and yielded with the conversation id. */
  method StreamTokens(tokens: seq<string>, conversationId: string) returns (fullResponse: string, items: seq<StreamItem>)
    ensures fullResponse == Concat(tokens)
    ensures Deltas(items) == tokens
    ensures forall i :: 0 <= i < |items| ==> items[i].conversationId == conversationId
  {
    fullResponse := "";
    items := [];
    for i := 0 to |tokens|
      invariant fullResponse == Concat(tokens[..i])
      invariant |items| == i
      invariant forall j :: 0 <= j < i ==> items[j] == StreamItem(tokens[j], conversationId)
    {
      assert tokens[..i + 1][..i] == tokens[..i];
      fullResponse := fullResponse + tokens[i];
      items := items + [StreamItem(tokens[i], conversationId)];
    }
    assert tokens[..|tokens|] == tokens;
  }

  class ChatService {
    const userId: int
    const userEmail: string
    const conversationId: string
    const contextManager: ContextManager

    /** The constructor: the supplied id if truthy, else a fresh one; the
        context store comes from the cache. */
    constructor (userId: int, userEmail: string, conversationId: Option<string>, freshId: string, cache: ContextCache)
      requires cache.Valid()
      modifies cache
      ensures cache.Valid()
      ensures this.conversationId == if conversationId.Some? && conversationId.value != "" then conversationId.value else freshId
      ensures contextManager.conversationId == this.conversationId
      ensures this.conversationId in old(cache.contexts) ==> contextManager == old(cache.contexts)[this.conversationId]
    {
      this.userId := userId;
      this.userEmail := userEmail;
      var id := if conversationId.Some? && conversationId.value != "" then conversationId.value else freshId;
      this.conversationId := id;
      var cm := cache.GetOrCreateContextManager(userId, id, userEmail);
      this.contextManager := cm;
    }

    /** The answer part of `process_message_stream`: the tokens are streamed
        and the whole answer stored as the assistant turn; if the answer
        engine raises after `failure` tokens, the fixed error text is stored
        and yielded instead. */
    method StreamAndStore(tokens: seq<string>, failure: Option<nat>, replyTime: int) returns (items: seq<StreamItem>)
      modifies contextManager
      ensures forall i :: 0 <= i < |items| ==> items[i].conversationId == conversationId
      ensures Deltas(items) == StreamedDeltas(tokens, failure)
      ensures contextManager.messages
        == Trimmed(old(contextManager.messages) + [Message(Assistant, Reply(tokens, failure), replyTime, contextManager.conversationId)], replyTime)
      ensures var last := contextManager.messages[|contextManager.messages| - 1];
        last.role == Assistant && last.timestamp == replyTime && last.content == Reply(tokens, failure)
      ensures failure.None? ==> Reply(tokens, failure) == Concat(Deltas(items))
      ensures failure.Some? ==> items[|items| - 1].delta == ErrorText
    {
      var streamed := if failure.Some? && failure.value < |tokens| then tokens[..failure.value] else tokens;
      var fullResponse;
      fullResponse, items := StreamTokens(streamed, conversationId);
      if failure.Some? {
        contextManager.AddMessage(Assistant, ErrorText, replyTime);
        DeltasSnoc(items, StreamItem(ErrorText, conversationId));
        items := items + [StreamItem(ErrorText, conversationId)];
      } else {
        contextManager.AddMessage(Assistant, fullResponse, replyTime);
      }
    }

    /** `process_message_stream`. The user turn is stored at `userTime`, the
        context is read and the query enhanced, then the answer is streamed
        and stored at `replyTime`. `query` is what the answer engine is
        asked. */
    method ProcessMessageStream(message: string, tokens: seq<string>, failure: Option<nat>,
                                userTime: int, replyTime: int)
      returns (items: seq<StreamItem>, query: string)
      modifies contextManager
      ensures forall i :: 0 <= i < |items| ==> items[i].conversationId == conversationId
      ensures Deltas(items) == StreamedDeltas(tokens, failure)
      ensures var afterUser := Trimmed(old(contextManager.messages) + [Message(User, message, userTime, contextManager.conversationId)], userTime);
        query == EnhanceQueryWithContext(message, ContextRead(afterUser, None, userTime))
        && contextManager.messages
           == Trimmed(afterUser + [Message(Assistant, Reply(tokens, failure), replyTime, contextManager.conversationId)], replyTime)
      ensures var last := contextManager.messages[|contextManager.messages| - 1];
        last.role == Assistant && last.timestamp == replyTime && last.content == Reply(tokens, failure)
      ensures failure.None? ==> Reply(tokens, failure) == Concat(Deltas(items))
      ensures failure.Some? ==> items[|items| - 1].delta == ErrorText
    {
      contextManager.AddMessage(User, message, userTime);
      var contextMessages := contextManager.GetContextMessages(None, userTime);
      query := EnhanceQueryWithContext(message, contextMessages);
      items := StreamAndStore(tokens, failure, replyTime);
    }
  }
}
