/** The human-handoff sessions of the admin server: a user asks for a human
    agent, the session waits, an admin accepts it, messages flow both ways
    and the session ends, or times out after sixty seconds of waiting.
    The session table is a sequence in creation order, a session's id is
    its position, and the clock is a millisecond parameter `now`. */
module HumanHandoffs {
  import opened Text

  datatype Status = Waiting | Connected | Ended | TimedOut

  predicate IsActive(s: Status) {
    s == Waiting || s == Connected
  }

  /** One stored session. */
  datatype Session = Session(
    conversationId: string,
    userId: Option<int>,
    guestId: Option<string>,
    initialMessage: string,
    status: Status,
    requestedAt: int,
    adminId: Option<int>,
    connectedAt: Option<int>,
    endedAt: Option<int>)

  /** The chat-history roles a handoff message is saved under. */
  datatype HistoryRole = UserRole | AssistantRole

  /** One message saved to the chat history. */
  datatype HistoryEntry = HistoryEntry(userId: Option<int>, guestId: Option<string>, role: HistoryRole,
                                       content: string, conversationId: string)

  /** What the socket gateway is asked to deliver. */
  datatype Notification =
    | AdminsNotified(sessionId: nat)
    | UserAccepted(sessionId: nat, adminId: int)
    | UserEnded(sessionId: nat)
    | ToAdmin(conversationId: string, adminId: int, message: string)
    | ToUser(conversationId: string, message: string, adminName: string)

  datatype HandoffError = NotFound(message: string) | BadRequest(message: string)

  datatype Result<T> = Ok(value: T) | Err(error: HandoffError)

  /** What `getStatus` reports. */
  datatype StatusReport = StatusReport(isWaiting: bool, isConnected: bool,
                                       adminName: Option<string>, timeoutRemaining: Option<int>)

  const WaitTimeoutMs: int := 60000

  const ActiveSessionExists: string :=
    "Bạn đã có phiên tư vấn đang hoạt động. Vui lòng hoàn thành phiên hiện tại trước khi tạo phiên mới."

  /** JavaScript truthiness of an optional number and an optional string. */
  predicate SetId(id: Option<int>) {
    id.Some? && id.value != 0
  }

  predicate SetGuest(id: Option<string>) {
    id.Some? && id.value != ""
  }

  /** The duplicate check of `create`: an active session of the same user
      id or of the same guest id. With neither id set the lookup has no
      condition and any stored session counts. */
  predicate HasConflict(sessions: seq<Session>, userId: Option<int>, guestId: Option<string>) {
    if !SetId(userId) && !SetGuest(guestId) then |sessions| > 0
    else exists i :: (0 <= i < |sessions| && IsActive(sessions[i].status)
                      && ((SetId(userId) && sessions[i].userId == userId)
                          || (SetGuest(guestId) && sessions[i].guestId == guestId)))
  }

  /** Two active sessions never share a set user id or a set guest id. */
  predicate OneActivePerRequester(sessions: seq<Session>) {
    forall i, j :: 0 <= i < j < |sessions| && IsActive(sessions[i].status) && IsActive(sessions[j].status) ==>
      !(SetId(sessions[i].userId) && sessions[i].userId == sessions[j].userId)
      && !(SetGuest(sessions[i].guestId) && sessions[i].guestId == sessions[j].guestId)
  }

  /** The newest waiting or connected session of a conversation. */
  function NewestActive(sessions: seq<Session>, conversationId: string): (r: Option<nat>)
    ensures r.Some? ==> r.value < |sessions| && sessions[r.value].conversationId == conversationId
                        && IsActive(sessions[r.value].status)
                        && forall j :: r.value < j < |sessions| ==>
                             !(sessions[j].conversationId == conversationId && IsActive(sessions[j].status))
    ensures r.None? ==> forall j :: 0 <= j < |sessions| ==>
                          !(sessions[j].conversationId == conversationId && IsActive(sessions[j].status))
  {
    if |sessions| == 0 then None
    else
      var last := |sessions| - 1;
      if sessions[last].conversationId == conversationId && IsActive(sessions[last].status) then Some(last)
      else NewestActive(sessions[..last], conversationId)
  }

  /** The oldest connected session of a conversation. */
  function FirstConnected(sessions: seq<Session>, conversationId: string): (r: Option<nat>)
    ensures r.Some? ==> r.value < |sessions| && sessions[r.value].conversationId == conversationId
                        && sessions[r.value].status == Connected
    ensures r.None? ==> forall j :: 0 <= j < |sessions| ==>
                          !(sessions[j].conversationId == conversationId && sessions[j].status == Connected)
  {
    if |sessions| == 0 then None
    else if sessions[0].conversationId == conversationId && sessions[0].status == Connected then Some(0)
    else
      var r := FirstConnected(sessions[1..], conversationId);
      if r.Some? then Some(r.value + 1) else None
  }

  /** Waiting time left: sixty seconds minus the time elapsed, never below zero. */
  function Remaining(requestedAt: int, now: int): (r: int)
    ensures r >= 0
    ensures r == 0 <==> now - requestedAt >= WaitTimeoutMs
    ensures r > 0 ==> r + (now - requestedAt) == WaitTimeoutMs
  {
    if WaitTimeoutMs - (now - requestedAt) > 0 then WaitTimeoutMs - (now - requestedAt) else 0
  }

  /** What `getStatus` reports for a found session. */
  function Report(s: Session, now: int): (r: StatusReport)
    ensures !(r.isWaiting && r.isConnected)
    ensures r.isConnected <==> s.status == Connected
    ensures r.isWaiting <==> s.status == Waiting && Remaining(s.requestedAt, now) > 0
    ensures r.timeoutRemaining.Some? ==> r.isWaiting && r.timeoutRemaining.value > 0
    ensures r.adminName.Some? ==> SetId(s.adminId)
  {
    if s.status == Waiting && Remaining(s.requestedAt, now) == 0 then StatusReport(false, false, None, None)
    else
      StatusReport(s.status == Waiting, s.status == Connected,
                   if SetId(s.adminId) then Some("Admin " + IntToString(s.adminId.value)) else None,
                   if s.status == Waiting then Some(Remaining(s.requestedAt, now)) else None)
  }

  /** A session that ended or timed out stays so. */
  predicate NoReopen(before: seq<Session>, after: seq<Session>) {
    |before| <= |after|
    && forall i :: 0 <= i < |before| && !IsActive(before[i].status) ==> !IsActive(after[i].status)
  }

  class HumanHandoffsService {
    var sessions: seq<Session>
    var history: seq<HistoryEntry>
    var notifications: seq<Notification>

    predicate Valid()
      reads this
    {
      OneActivePerRequester(sessions)
    }

    constructor ()
      ensures Valid() && sessions == [] && history == [] && notifications == []
    {
      sessions := [];
      history := [];
      notifications := [];
    }

    /** `create`: refused while the requester has an active session;
        otherwise a waiting session is stored and the admins notified. */
    method Create(conversationId: string, userId: Option<int>, guestId: Option<string>, message: string, now: int)
      returns (r: Result<nat>)
      requires Valid()
      modifies this
      ensures Valid() && NoReopen(old(sessions), sessions) && history == old(history)
      ensures HasConflict(old(sessions), userId, guestId) ==>
        r == Err(BadRequest(ActiveSessionExists)) && sessions == old(sessions) && notifications == old(notifications)
      ensures !HasConflict(old(sessions), userId, guestId) ==>
        r == Ok(|old(sessions)|)
        && sessions == old(sessions) + [Session(conversationId, userId, guestId, message, Waiting, now, None, None, None)]
        && notifications == old(notifications) + [AdminsNotified(|old(sessions)|)]
    {
      if HasConflict(sessions, userId, guestId) {
        return Err(BadRequest(ActiveSessionExists));
      }
      var id := |sessions|;
      var session := Session(conversationId, userId, guestId, message, Waiting, now, None, None, None);
      NewSessionKeepsUnique(sessions, session);
      sessions := sessions + [session];
      notifications := notifications + [AdminsNotified(id)];
      r := Ok(id);
    }

    /** `getStatus`: the newest active session of the conversation is
        reported; a waiting one whose sixty seconds are up is marked timed
        out first and reported as neither waiting nor connected. */
    method GetStatus(conversationId: string, now: int) returns (report: StatusReport)
      requires Valid()
      modifies this
      ensures Valid() && NoReopen(old(sessions), sessions)
      ensures history == old(history) && notifications == old(notifications)
      ensures !(report.isWaiting && report.isConnected)
      ensures match NewestActive(old(sessions), conversationId)
        case None => report == StatusReport(false, false, None, None) && sessions == old(sessions)
        case Some(i) =>
          report == Report(old(sessions)[i], now)
          && if old(sessions)[i].status == Waiting && Remaining(old(sessions)[i].requestedAt, now) == 0
             then sessions == old(sessions)[i := old(sessions)[i].(status := TimedOut, endedAt := Some(now))]
             else sessions == old(sessions)
    {
      var found := NewestActive(sessions, conversationId);
      if found.None? {
        return StatusReport(false, false, None, None);
      }
      var i := found.value;
      var s := sessions[i];
      if s.status == Waiting && Remaining(s.requestedAt, now) == 0 {
        DeactivateKeepsUnique(sessions, i, TimedOut);
        sessions := sessions[i := s.(status := TimedOut, endedAt := Some(now))];
      }
      report := Report(s, now);
    }

    /** `acceptHandoff`: a waiting session becomes connected to the admin. */
    method AcceptHandoff(sessionId: nat, adminId: int, now: int) returns (r: Result<Session>)
      requires Valid()
      modifies this
      ensures Valid() && NoReopen(old(sessions), sessions) && history == old(history)
      ensures sessionId >= |old(sessions)| ==>
        r == Err(NotFound("Handoff session not found")) && sessions == old(sessions) && notifications == old(notifications)
      ensures sessionId < |old(sessions)| && old(sessions)[sessionId].status != Waiting ==>
        r == Err(BadRequest("Session is not in waiting status")) && sessions == old(sessions)
        && notifications == old(notifications)
      ensures sessionId < |old(sessions)| && old(sessions)[sessionId].status == Waiting ==>
        var s := old(sessions)[sessionId].(status := Connected, adminId := Some(adminId), connectedAt := Some(now));
        r == Ok(s) && sessions == old(sessions)[sessionId := s]
        && notifications == old(notifications) + [UserAccepted(sessionId, adminId)]
    {
      if sessionId >= |sessions| {
        return Err(NotFound("Handoff session not found"));
      }
      if sessions[sessionId].status != Waiting {
        return Err(BadRequest("Session is not in waiting status"));
      }
      var s := sessions[sessionId].(status := Connected, adminId := Some(adminId), connectedAt := Some(now));
      assert forall j :: 0 <= j < |sessions| ==>
        IsActive(sessions[sessionId := s][j].status) == IsActive(sessions[j].status);
      sessions := sessions[sessionId := s];
      notifications := notifications + [UserAccepted(sessionId, adminId)];
      r := Ok(s);
    }

    /** `endHandoff`: any stored session ends, whatever its status. */
    method EndHandoff(sessionId: nat, now: int) returns (r: Result<Session>)
      requires Valid()
      modifies this
      ensures Valid() && NoReopen(old(sessions), sessions) && history == old(history)
      ensures sessionId >= |old(sessions)| ==>
        r == Err(NotFound("Handoff session not found")) && sessions == old(sessions) && notifications == old(notifications)
      ensures sessionId < |old(sessions)| ==>
        var s := old(sessions)[sessionId].(status := Ended, endedAt := Some(now));
        r == Ok(s) && sessions == old(sessions)[sessionId := s]
        && notifications == old(notifications) + [UserEnded(sessionId)]
    {
      if sessionId >= |sessions| {
        return Err(NotFound("Handoff session not found"));
      }
      var s := sessions[sessionId].(status := Ended, endedAt := Some(now));
      DeactivateKeepsUnique(sessions, sessionId, Ended);
      sessions := sessions[sessionId := s];
      notifications := notifications + [UserEnded(sessionId)];
      r := Ok(s);
    }

    /** `sendUserMessage`: needs a connected session of the conversation;
        the message is saved as the user's and passed to the admin. */
    method SendUserMessage(conversationId: string, message: string) returns (r: Result<string>)
      modifies this
      ensures sessions == old(sessions)
      ensures FirstConnected(sessions, conversationId).None? ==>
        r == Err(BadRequest("No active handoff session found for this conversation"))
        && history == old(history) && notifications == old(notifications)
      ensures FirstConnected(sessions, conversationId).Some? ==>
        var s := sessions[FirstConnected(sessions, conversationId).value];
        r == Ok("Message sent to admin")
        && history == old(history) + [HistoryEntry(s.userId, s.guestId, UserRole, message, conversationId)]
        && notifications == old(notifications)
           + (if SetId(s.adminId) then [ToAdmin(conversationId, s.adminId.value, message)] else [])
    {
      var found := FirstConnected(sessions, conversationId);
      if found.None? {
        return Err(BadRequest("No active handoff session found for this conversation"));
      }
      var s := sessions[found.value];
      history := history + [HistoryEntry(s.userId, s.guestId, UserRole, message, conversationId)];
      if SetId(s.adminId) {
        notifications := notifications + [ToAdmin(conversationId, s.adminId.value, message)];
      }
      r := Ok("Message sent to admin");
    }

    /** `sendMessage`: needs a connected session; an admin's message is
        saved as the assistant's and sent to the user, anyone else's is
        saved as the user's and sent to the admin. */
    method SendMessage(sessionId: nat, message: string, senderType: string, adminName: Option<string>)
      returns (r: Result<string>)
      modifies this
      ensures sessions == old(sessions)
      ensures sessionId >= |sessions| ==>
        r == Err(NotFound("Handoff session not found")) && history == old(history) && notifications == old(notifications)
      ensures sessionId < |sessions| && sessions[sessionId].status != Connected ==>
        r == Err(BadRequest("Session is not in connected state"))
        && history == old(history) && notifications == old(notifications)
      ensures sessionId < |sessions| && sessions[sessionId].status == Connected ==>
        var s := sessions[sessionId];
        r == Ok("Message sent successfully")
        && history == old(history)
           + [HistoryEntry(s.userId, s.guestId, if senderType == "admin" then AssistantRole else UserRole,
                           message, s.conversationId)]
        && notifications == old(notifications)
           + (if senderType == "admin"
              then [ToUser(s.conversationId, message,
                           if adminName.Some? && adminName.value != "" then adminName.value else "Admin")]
              else if SetId(s.adminId) then [ToAdmin(s.conversationId, s.adminId.value, message)] else [])
    {
      if sessionId >= |sessions| {
        return Err(NotFound("Handoff session not found"));
      }
      var s := sessions[sessionId];
      if s.status != Connected {
        return Err(BadRequest("Session is not in connected state"));
      }
      var role := if senderType == "admin" then AssistantRole else UserRole;
      history := history + [HistoryEntry(s.userId, s.guestId, role, message, s.conversationId)];
      if senderType == "admin" {
        var name := if adminName.Some? && adminName.value != "" then adminName.value else "Admin";
        notifications := notifications + [ToUser(s.conversationId, message, name)];
      } else if SetId(s.adminId) {
        notifications := notifications + [ToAdmin(s.conversationId, s.adminId.value, message)];
      }
      r := Ok("Message sent successfully");
    }
  }

  /** A session just created is the one its conversation's status reads,
      and it reads as waiting exactly until sixty seconds have passed. */
  lemma CreatedSessionWaitsSixtySeconds(sessions: seq<Session>, s: Session, now: int)
    requires s.status == Waiting
    ensures NewestActive(sessions + [s], s.conversationId) == Some(|sessions|)
    ensures Report(s, now).isWaiting <==> now - s.requestedAt < WaitTimeoutMs
    ensures !Report(s, now).isConnected
  {
  }

  /** A session stored after a passed duplicate check keeps requesters to
      one active session each. */
  lemma NewSessionKeepsUnique(sessions: seq<Session>, s: Session)
    requires OneActivePerRequester(sessions)
    requires !HasConflict(sessions, s.userId, s.guestId)
    ensures OneActivePerRequester(sessions + [s])
  {
    var all := sessions + [s];
    forall i, j | 0 <= i < j < |all| && IsActive(all[i].status) && IsActive(all[j].status)
      ensures !(SetId(all[i].userId) && all[i].userId == all[j].userId)
      ensures !(SetGuest(all[i].guestId) && all[i].guestId == all[j].guestId)
    {
      if j == |sessions| {
        assert all[i] == sessions[i];
      }
    }
  }

  /** Ending or timing out a session keeps requesters to one active session each. */
  lemma DeactivateKeepsUnique(sessions: seq<Session>, k: nat, status: Status)
    requires OneActivePerRequester(sessions) && k < |sessions| && !IsActive(status)
    ensures forall e :: OneActivePerRequester(sessions[k := sessions[k].(status := status, endedAt := e)])
  {
  }
}
