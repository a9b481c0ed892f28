/** The per-conversation context store: an in-memory message buffer that
    is trimmed by age and by count after each append, and read back through
    a shorter time window. Times are integer seconds supplied by the caller.
    The store's backend history manager is always disabled, so every
    backend branch is absent here. */
module ConversationContext {
  import opened Text

  /** `RoleType`, with the string values its members carry. */
  datatype Role = User | Assistant | System

  function RoleValue(r: Role): (v: string)
    ensures v in {"USER", "ASSISTANT", "SYSTEM"}
  {
    match r
    case User => "USER"
    case Assistant => "ASSISTANT"
    case System => "SYSTEM"
  }

  /** One buffered message. */
  datatype Message = Message(role: Role, content: string, timestamp: int, conversationId: string)

  /** What a context read hands out for one message. */
  datatype ContextMessage = ContextMessage(role: Role, content: string, timestamp: int)

  const MaxContextLength: nat := 20
  const ContextWindowMinutes: nat := 30
  const WindowSeconds: int := ContextWindowMinutes * 60

  /** The messages strictly newer than `cutoff`, in their original order. */
  function NewerThan(msgs: seq<Message>, cutoff: int): (r: seq<Message>)
    ensures |r| <= |msgs|
    ensures forall i :: 0 <= i < |r| ==> r[i].timestamp > cutoff
  {
    if |msgs| == 0 then []
    else
      var last := msgs[|msgs| - 1];
      NewerThan(msgs[..|msgs| - 1], cutoff) + (if last.timestamp > cutoff then [last] else [])
  }

  /** Filtering keeps exactly the messages newer than the cutoff: a message
      that is newer occurs in the result as often as in the input. */
  lemma {:induction false} NewerThanCount(msgs: seq<Message>, cutoff: int, m: Message)
    ensures multiset(NewerThan(msgs, cutoff))[m] == if m.timestamp > cutoff then multiset(msgs)[m] else 0
  {
    if |msgs| > 0 {
      var init, last := msgs[..|msgs| - 1], msgs[|msgs| - 1];
      NewerThanCount(init, cutoff, m);
      var kept := if last.timestamp > cutoff then [last] else [];
      SnocSplit(msgs);
      assert NewerThan(msgs, cutoff) == NewerThan(init, cutoff) + kept;
      assert multiset(NewerThan(msgs, cutoff)) == multiset(NewerThan(init, cutoff)) + multiset(kept);
    }
  }

  /** Filtering distributes over concatenation, so it preserves order. */
  lemma {:induction false} NewerThanAppend(a: seq<Message>, b: seq<Message>, cutoff: int)
    ensures NewerThan(a + b, cutoff) == NewerThan(a, cutoff) + NewerThan(b, cutoff)
    decreases |b|
  {
    if |b| > 0 {
      var initB := b[..|b| - 1];
      assert (a + b)[..|a + b| - 1] == a + initB;
      NewerThanAppend(a, initB, cutoff);
    } else {
      assert a + b == a;
    }
  }

  /** `_cleanup_old_messages`: keep what is newer than twice the window,
      then at most twice `max_context_length` of the newest. */
  function Trimmed(msgs: seq<Message>, now: int): seq<Message> {
    var recent := NewerThan(msgs, now - 2 * WindowSeconds);
    if |recent| > 2 * MaxContextLength then recent[|recent| - 2 * MaxContextLength..] else recent
  }

  lemma TrimmedBounds(msgs: seq<Message>, now: int)
    ensures |Trimmed(msgs, now)| <= 2 * MaxContextLength
    ensures forall i :: 0 <= i < |Trimmed(msgs, now)| ==> Trimmed(msgs, now)[i].timestamp > now - 2 * WindowSeconds
    ensures var recent := NewerThan(msgs, now - 2 * WindowSeconds);
            Trimmed(msgs, now) == recent[|recent| - |Trimmed(msgs, now)|..]
  {
  }

  /** Appending a message stamped `now` and trimming keeps that message, last. */
  lemma {:induction false} AppendThenTrimKeepsNewest(msgs: seq<Message>, m: Message, now: int)
    requires m.timestamp == now
    ensures var t := Trimmed(msgs + [m], now); |t| > 0 && t[|t| - 1] == m
  {
    assert (msgs + [m])[..|msgs + [m]| - 1] == msgs;
  }

  /** When every message is recent enough, only the count cap applies:
      the newest forty are kept. */
  lemma {:induction false} CountCapDominates(msgs: seq<Message>, now: int)
    requires forall i :: 0 <= i < |msgs| ==> msgs[i].timestamp > now - 2 * WindowSeconds
    ensures Trimmed(msgs, now) == if |msgs| > 2 * MaxContextLength then msgs[|msgs| - 2 * MaxContextLength..] else msgs
  {
    AllNewerKept(msgs, now - 2 * WindowSeconds);
  }

  lemma {:induction false} AllNewerKept(msgs: seq<Message>, cutoff: int)
    requires forall i :: 0 <= i < |msgs| ==> msgs[i].timestamp > cutoff
    ensures NewerThan(msgs, cutoff) == msgs
  {
    if |msgs| > 0 {
      AllNewerKept(msgs[..|msgs| - 1], cutoff);
    }
  }

  /** `get_context_messages`: the limit used (`limit or max_context_length`). */
  function EffectiveLimit(limit: Option<int>): int {
    if limit.Some? && limit.value != 0 then limit.value else MaxContextLength
  }

  function Project(msgs: seq<Message>): (r: seq<ContextMessage>)
    ensures |r| == |msgs|
    ensures forall i :: 0 <= i < |msgs| ==>
      r[i] == ContextMessage(msgs[i].role, msgs[i].content, msgs[i].timestamp)
  {
    seq(|msgs|, i requires 0 <= i < |msgs| => ContextMessage(msgs[i].role, msgs[i].content, msgs[i].timestamp))
  }

  /** The read: window filter, then the last `limit` (Python slice `[-limit:]`). */
  function ContextRead(msgs: seq<Message>, limit: Option<int>, now: int): seq<ContextMessage> {
    Project(PyTail(NewerThan(msgs, now - WindowSeconds), EffectiveLimit(limit)))
  }

  /** The user questions, in order. */
  function UserQuestions(msgs: seq<Message>): (r: seq<string>)
    ensures |r| <= |msgs|
  {
    if |msgs| == 0 then []
    else
      var last := msgs[|msgs| - 1];
      UserQuestions(msgs[..|msgs| - 1]) + (if last.role == User then [last.content] else [])
  }

  function CountRole(msgs: seq<Message>, role: Role): nat {
    if |msgs| == 0 then 0
    else CountRole(msgs[..|msgs| - 1], role) + (if msgs[|msgs| - 1].role == role then 1 else 0)
  }

  lemma {:induction false} UserQuestionsCount(msgs: seq<Message>)
    ensures |UserQuestions(msgs)| == CountRole(msgs, User)
  {
    if |msgs| > 0 {
      UserQuestionsCount(msgs[..|msgs| - 1]);
    }
  }

  /** User and assistant messages together never outnumber the buffer. */
  lemma {:induction false} RoleCountsBounded(msgs: seq<Message>)
    ensures CountRole(msgs, User) + CountRole(msgs, Assistant) <= |msgs|
  {
    if |msgs| > 0 {
      RoleCountsBounded(msgs[..|msgs| - 1]);
    }
  }

  const NoConversationText: string := "Chưa có cuộc trò chuyện nào."
  const NoQuestionText: string := "Chưa có câu hỏi nào từ người dùng."

  /** One numbered topic line of the summary. */
  function TopicLine(i: nat, question: string): string {
    NatToString(i) + ". " + Take(question, 50) + "..."
  }

  function TopicLines(questions: seq<string>, first: nat): (r: seq<string>)
    ensures |r| == |questions|
    ensures forall i :: 0 <= i < |questions| ==> r[i] == TopicLine(first + i, questions[i])
  {
    if |questions| == 0 then [] else [TopicLine(first, questions[0])] + TopicLines(questions[1..], first + 1)
  }

  /** The lines `get_conversation_summary` joins with newlines. */
  function SummaryLines(msgs: seq<Message>): seq<string> {
    var questions := UserQuestions(msgs);
    if |msgs| == 0 then [NoConversationText]
    else if |questions| == 0 then [NoQuestionText]
    else
      var recent := if |questions| > 3 then questions[|questions| - 3..] else questions;
      SummaryHead(|msgs|, |questions|) + TopicLines(recent, 1)
  }

  /** The three lines before the topics: the message count, the question
      count and the topics title. */
  function SummaryHead(messageCount: nat, questionCount: nat): (r: seq<string>)
    ensures |r| == 3
  {
    ["Cuộc trò chuyện có " + NatToString(messageCount) + " tin nhắn",
     "Người dùng đã hỏi " + NatToString(questionCount) + " câu hỏi",
     "Các chủ đề gần đây:"]
  }

  /** The summary lists at most the last three questions, each cut to 50
      characters, numbered from 1, in order. */
  lemma SummaryShape(msgs: seq<Message>)
    ensures var q := UserQuestions(msgs); var lines := SummaryLines(msgs);
      |msgs| > 0 && |q| > 0 ==>
        var k := if |q| > 3 then 3 else |q|;
        |lines| == 3 + k && k <= 3 &&
        forall j :: 3 <= j < |lines| ==> lines[j] == TopicLine(j - 2, q[|q| - k + j - 3])
  {
    var q := UserQuestions(msgs);
    if |msgs| > 0 && |q| > 0 {
      assert SummaryLines(msgs) == SummaryHead(|msgs|, |q|) + TopicLines(if |q| > 3 then q[|q| - 3..] else q, 1);
      TopicsAfterHead(SummaryHead(|msgs|, |q|), q);
    }
  }

  /** Three head lines followed by the topics of the last (at most) three
      questions put question `i` of those at line `i + 3`, numbered `i + 1`. */
  lemma TopicsAfterHead(head: seq<string>, q: seq<string>)
    requires |head| == 3 && |q| > 0
    ensures var k := if |q| > 3 then 3 else |q|;
      var lines := head + TopicLines(if |q| > 3 then q[|q| - 3..] else q, 1);
      |lines| == 3 + k && forall j :: 3 <= j < |lines| ==> lines[j] == TopicLine(j - 2, q[|q| - k + j - 3])
  {
  }

  /** What `get_context_stats` reports. */
  datatype ContextStats = ContextStats(totalMessages: nat, userMessages: nat, assistantMessages: nat,
                                       conversationId: string, oldestMessage: Option<int>, newestMessage: Option<int>)

  class ContextManager {
    const userId: int
    const conversationId: string
    const userEmail: string
    var messages: seq<Message>

    constructor (userId: int, conversationId: string, userEmail: string)
      ensures this.userId == userId && this.conversationId == conversationId && this.userEmail == userEmail
      ensures messages == []
    {
      this.userId := userId;
      this.conversationId := conversationId;
      this.userEmail := userEmail;
      messages := [];
    }

    /** `add_message`: append a message stamped `now`, then trim. */
    method AddMessage(role: Role, content: string, now: int)
      modifies this
      ensures messages == Trimmed(old(messages) + [Message(role, content, now, conversationId)], now)
      ensures |messages| > 0 && messages[|messages| - 1] == Message(role, content, now, conversationId)
    {
      messages := messages + [Message(role, content, now, conversationId)];
      CleanupOldMessages(now);
      AppendThenTrimKeepsNewest(old(messages), Message(role, content, now, conversationId), now);
    }

    /** `_cleanup_old_messages`. */
    method CleanupOldMessages(now: int)
      modifies this
      ensures messages == Trimmed(old(messages), now)
    {
      var cutoff := now - 2 * WindowSeconds;
      messages := NewerThan(messages, cutoff);
      if |messages| > 2 * MaxContextLength {
        messages := messages[|messages| - 2 * MaxContextLength..];
      }
    }

    /** `get_context_messages`: only messages inside the window, at most the
        limit, the most recent ones; empty when nothing qualifies. */
    function GetContextMessages(limit: Option<int>, now: int): (r: seq<ContextMessage>)
      reads this
      ensures forall i :: 0 <= i < |r| ==> r[i].timestamp > now - WindowSeconds
      ensures EffectiveLimit(limit) > 0 ==> |r| <= EffectiveLimit(limit)
      ensures |NewerThan(messages, now - WindowSeconds)| == 0 ==> r == []
      ensures EffectiveLimit(limit) > 0 && |NewerThan(messages, now - WindowSeconds)| > 0 ==> |r| > 0
      ensures var w := NewerThan(messages, now - WindowSeconds);
        |r| <= |w| && r == Project(w[|w| - |r|..])
      ensures var w, n := NewerThan(messages, now - WindowSeconds), EffectiveLimit(limit);
        (n > 0 ==> |r| == if |w| < n then |w| else n) && (n < 0 ==> |r| == if -n < |w| then |w| + n else 0)
    {
      ContextRead(messages, limit, now)
    }

    /** `get_conversation_summary`: a fixed sentence without messages or
        without user questions; otherwise the lines of `SummaryLines`, three
        header lines and one per recent question, joined by newlines. */
    function GetConversationSummary(): (r: string)
      reads this
      ensures |messages| == 0 ==> r == NoConversationText
      ensures |messages| > 0 && CountRole(messages, User) == 0 ==> r == NoQuestionText
      ensures |messages| > 0 && CountRole(messages, User) > 0 ==>
        r == Join(SummaryLines(messages), "\n")
        && |SummaryLines(messages)| == 3 + (if CountRole(messages, User) > 3 then 3 else CountRole(messages, User))
    {
      UserQuestionsCount(messages);
      SummaryShape(messages);
      Join(SummaryLines(messages), "\n")
    }

    /** `clear_context`. */
    method ClearContext()
      modifies this
      ensures messages == []
    {
      messages := [];
    }

    /** `get_context_stats`. */
    function GetContextStats(): (r: ContextStats)
      reads this
      ensures r.totalMessages == |messages|
      ensures r.userMessages == CountRole(messages, User) && r.assistantMessages == CountRole(messages, Assistant)
      ensures r.userMessages <= r.totalMessages && r.assistantMessages <= r.totalMessages
      ensures r.userMessages + r.assistantMessages <= r.totalMessages
      ensures r.conversationId == conversationId
      ensures r.oldestMessage.Some? <==> |messages| > 0
      ensures r.newestMessage.Some? <==> |messages| > 0
      ensures |messages| > 0 ==>
        r.oldestMessage.value == messages[0].timestamp && r.newestMessage.value == messages[|messages| - 1].timestamp
    {
      RoleCountsBounded(messages);
      ContextStats(|messages|, CountRole(messages, User), CountRole(messages, Assistant), conversationId,
                   if |messages| > 0 then Some(messages[0].timestamp) else None,
                   if |messages| > 0 then Some(messages[|messages| - 1].timestamp) else None)
    }
  }
}
