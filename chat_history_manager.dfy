/** The chat history manager of one conversation: the turns of the current
    session are cached locally and each one is queued, as a record that
    names either the guest or the registered user, for saving to the
    backend. Guests are recognised by their e-mail form
    `guest-{guestId}@example.com` (or `guest-{guestId}`) or by user id 0. */
module ChatHistory {
  import opened Text
  import opened ConversationContext

  const GuestPrefix: string := "guest-"
  const GuestDomain: string := "@example.com"

  /** `_is_guest_user`: the e-mail starts with `guest-`. */
  predicate IsGuestUser(email: string) {
    IsPrefix(GuestPrefix, email)
  }

  /** Guest e-mails are exactly the prefix followed by anything. */
  lemma GuestUserForm(email: string, rest: string)
    ensures IsGuestUser(GuestPrefix + rest)
    ensures IsGuestUser(email) <==> |email| >= |GuestPrefix| && email == GuestPrefix + email[|GuestPrefix|..]
  {
    ConcatEnds(GuestPrefix, rest);
    if |email| >= |GuestPrefix| && email == GuestPrefix + email[|GuestPrefix|..] {
      ConcatEnds(GuestPrefix, email[|GuestPrefix|..]);
    }
    if IsGuestUser(email) {
      assert email == email[..|GuestPrefix|] + email[|GuestPrefix|..];
    }
  }

  /** `(.+)` of `guest-(.+)@example\.com` can end at `j`: at least one
      character after the prefix, none of them a newline (`.` does not
      match one), and the domain right after it. */
  predicate GroupEndOk(email: string, j: int) {
    |GuestPrefix| < j && OccursAt(email, GuestDomain, j)
    && forall k :: |GuestPrefix| <= k < j ==> email[k] != '\n'
  }

  /** Greedy matching: the largest end at or below `j` that lets the whole
      pattern match, if any. */
  function GroupEnd(email: string, j: int): (r: Option<nat>)
    ensures r.Some? ==> r.value <= j && GroupEndOk(email, r.value)
                        && forall j' :: r.value < j' <= j ==> !GroupEndOk(email, j')
    ensures r.None? ==> forall j' :: j' <= j ==> !GroupEndOk(email, j')
    decreases j
  {
    if j <= |GuestPrefix| then None
    else if GroupEndOk(email, j) then Some(j)
    else GroupEnd(email, j - 1)
  }

  /** `_extract_guest_id`: the `(.+)` group of the anchored greedy match
      when the e-mail contains the domain; the rest after `guest-` when it
      does not; the e-mail itself otherwise (not a guest form, or the
      domain is there but the pattern fails). */
  function ExtractGuestId(email: string): (r: string)
    ensures !IsGuestUser(email) ==> r == email
    ensures IsGuestUser(email) && !Contains(email, GuestDomain) ==> r == email[|GuestPrefix|..]
    ensures IsGuestUser(email) && Contains(email, GuestDomain) ==>
      match GroupEnd(email, |email| - |GuestDomain|)
      case Some(j) => r == email[|GuestPrefix|..j]
      case None => r == email
  {
    if IsGuestUser(email) then
      if Contains(email, GuestDomain) then
        match GroupEnd(email, |email| - |GuestDomain|)
        case Some(j) => email[|GuestPrefix|..j]
        case None => email
      else email[|GuestPrefix|..]
    else email
  }

  /** A guest e-mail built from a non-empty id without newlines gives that id back. */
  lemma GuestIdRoundTrip(id: string)
    requires |id| > 0 && forall k :: 0 <= k < |id| ==> id[k] != '\n'
    ensures ExtractGuestId(GuestPrefix + id + GuestDomain) == id
  {
    var email := GuestPrefix + id + GuestDomain;
    var j := |GuestPrefix| + |id|;
    assert email[..|GuestPrefix|] == GuestPrefix;
    assert email[j..j + |GuestDomain|] == GuestDomain;
    assert OccursAt(email, GuestDomain, j);
    ContainsIff(email, GuestDomain);
    assert email[|GuestPrefix|..j] == id;
    assert GroupEndOk(email, j);
  }

  /** The short form `guest-{id}` gives the id back when the id does not
      contain the domain. */
  lemma ShortGuestIdRoundTrip(id: string)
    requires !Contains(GuestPrefix + id, GuestDomain)
    ensures ExtractGuestId(GuestPrefix + id) == id
  {
    var email := GuestPrefix + id;
    assert email[..|GuestPrefix|] == GuestPrefix;
    assert email[|GuestPrefix|..] == id;
  }

  /** One cached turn. */
  datatype CachedMessage = CachedMessage(role: Role, content: string)

  /** One queued save request; exactly one of `guestId` and `userId` is set. */
  datatype QueueEntry = QueueEntry(role: string, content: string, conversationId: string,
                                   guestId: Option<string>, userId: Option<int>)

  /** The role and content of a cached turn, as the context reads return them. */
  datatype RoleContent = RoleContent(role: Role, content: string)

  function Projected(msgs: seq<CachedMessage>): (r: seq<RoleContent>)
    ensures |r| == |msgs|
    ensures forall i :: 0 <= i < |msgs| ==> r[i] == RoleContent(msgs[i].role, msgs[i].content)
  {
    seq(|msgs|, i requires 0 <= i < |msgs| => RoleContent(msgs[i].role, msgs[i].content))
  }

  class ChatHistoryManager {
    const userId: int
    const email: string
    const conversationId: string
    const isGuest: bool
    const guestId: Option<string>
    var currentSessionMessages: seq<CachedMessage>
    var saveQueue: seq<QueueEntry>

    /** A guest has a guest id and a registered user has none. */
    predicate Valid()
      reads this
    {
      isGuest <==> guestId.Some?
    }

    /** The constructor: the conversation id is the fresh one supplied; the
        user is a guest by e-mail form or by user id 0. */
    constructor (userId: int, email: string, freshId: string)
      ensures Valid()
      ensures this.userId == userId && this.email == email && conversationId == freshId
      ensures isGuest <==> IsGuestUser(email) || userId == 0
      ensures isGuest ==> guestId == Some(ExtractGuestId(email))
      ensures currentSessionMessages == [] && saveQueue == []
    {
      this.userId := userId;
      this.email := email;
      conversationId := freshId;
      var guest := IsGuestUser(email) || userId == 0;
      isGuest := guest;
      guestId := if guest then Some(ExtractGuestId(email)) else None;
      currentSessionMessages := [];
      saveQueue := [];
    }

    /** The save request for one turn: the guest id for a guest, the user
        id otherwise. */
    function EntryFor(role: Role, content: string): (e: QueueEntry)
      reads this
      requires Valid()
      ensures e.guestId.Some? != e.userId.Some?
      ensures e.guestId.Some? <==> isGuest
      ensures isGuest ==> e.guestId == guestId
      ensures !isGuest ==> e.userId == Some(userId)
      ensures e.role == RoleValue(role) && e.content == content && e.conversationId == conversationId
    {
      if isGuest then QueueEntry(RoleValue(role), content, conversationId, guestId, None)
      else QueueEntry(RoleValue(role), content, conversationId, None, Some(userId))
    }

    /** `append_message`: the turn is cached and one save request is queued. */
    method AppendMessage(role: Role, content: string)
      requires Valid()
      modifies this
      ensures Valid()
      ensures currentSessionMessages == old(currentSessionMessages) + [CachedMessage(role, content)]
      ensures saveQueue == old(saveQueue) + [EntryFor(role, content)]
    {
      currentSessionMessages := currentSessionMessages + [CachedMessage(role, content)];
      var entry := EntryFor(role, content);
      saveQueue := saveQueue + [entry];
    }

    /** `get_conversation_context`: role and content of the last `limit`
        cached turns (all of them for `limit == 0`, as `[-0:]` is). */
    function GetConversationContext(limit: int): (r: seq<RoleContent>)
      reads this
      ensures limit > 0 ==> |r| == if limit < |currentSessionMessages| then limit else |currentSessionMessages|
      ensures limit == 0 ==> |r| == |currentSessionMessages|
      ensures |r| <= |currentSessionMessages|
      ensures forall i :: 0 <= i < |r| ==>
        var m := currentSessionMessages[|currentSessionMessages| - |r| + i];
        r[i] == RoleContent(m.role, m.content)
    {
      Projected(PyTail(currentSessionMessages, limit))
    }

    /** `clear_history`: the cache is emptied; queued saves stay queued. */
    method ClearHistory()
      modifies this
      ensures currentSessionMessages == [] && saveQueue == old(saveQueue)
    {
      currentSessionMessages := [];
    }
  }

  /** A context read right after an append ends with the appended turn. */
  lemma AppendedTurnIsRead(msgs: seq<CachedMessage>, role: Role, content: string, limit: int)
    requires limit >= 0
    ensures var r := Projected(PyTail(msgs + [CachedMessage(role, content)], limit));
      |r| > 0 && r[|r| - 1] == RoleContent(role, content)
  {
  }
}
