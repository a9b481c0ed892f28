/** The session registry: binds a user e-mail to the conversation it is
    currently having, reusing the conversation for 60 minutes after the
    last activity. Times are integer seconds supplied by the caller; the
    random UUID the registry mints is the `freshId` parameter. */
module SessionManagement {
  import opened Text

  /** One entry of the registry. */
  datatype Session = Session(conversationId: string, lastActivity: int)

  const SessionTimeoutMinutes: int := 60
  const TimeoutSeconds: int := SessionTimeoutMinutes * 60

  /** A session that a new request may still reuse (strictly inside the window). */
  predicate Live(s: Session, now: int) {
    now - s.lastActivity < TimeoutSeconds
  }

  /** A session that the cleanup sweep removes (strictly past the window). */
  predicate Expired(s: Session, now: int) {
    now - s.lastActivity > TimeoutSeconds
  }

  /** A caller-supplied id counts only when it is a non-empty string. */
  predicate Supplied(provided: Option<string>) {
    provided.Some? && provided.value != ""
  }

  /** The conversation id that resolving `user` at `now` yields. */
  function Resolve(sessions: map<string, Session>, user: string, provided: Option<string>,
                   freshId: string, now: int): string
  {
    if Supplied(provided) then provided.value
    else if user in sessions && Live(sessions[user], now) then sessions[user].conversationId
    else freshId
  }

  /** The registry after removing every expired session. */
  function Swept(sessions: map<string, Session>, now: int): map<string, Session> {
    map u | u in sessions && !Expired(sessions[u], now) :: sessions[u]
  }

  /** What `get_all_sessions` reports about one user. */
  datatype SessionInfo = SessionInfo(conversationId: string, lastActivity: int, minutesSinceLastActivity: real)
  datatype SessionsReport = SessionsReport(totalSessions: nat, sessions: map<string, SessionInfo>)

  class SessionManager {
    /** `user_sessions`: at most one session per user, by construction of a map. */
    var sessions: map<string, Session>

    constructor ()
      ensures sessions == map[]
    {
      sessions := map[];
    }

    /** `get_or_create_conversation_id`: resolves the id and records it as
        the user's session, refreshed at `now`. */
    method GetOrCreateConversationId(user: string, provided: Option<string>, freshId: string, now: int)
      returns (id: string)
      modifies this
      ensures id == Resolve(old(sessions), user, provided, freshId, now)
      ensures sessions == old(sessions)[user := Session(id, now)]
    {
      if Supplied(provided) {
        UpdateSession(user, provided.value, now);
        return provided.value;
      }
      if user in sessions {
        var session := sessions[user];
        if now - session.lastActivity < TimeoutSeconds {
          id := session.conversationId;
          UpdateSession(user, id, now);
          return id;
        }
      }
      id := freshId;
      UpdateSession(user, id, now);
    }

    /** `_update_session`: overwrites the user's entry; nobody else's changes. */
    method UpdateSession(user: string, conversationId: string, now: int)
      modifies this
      ensures sessions == old(sessions)[user := Session(conversationId, now)]
    {
      sessions := sessions[user := Session(conversationId, now)];
    }

    /** `clear_session`: removes the user's entry if there is one. */
    method ClearSession(user: string)
      modifies this
      ensures sessions == old(sessions) - {user}
    {
      if user in sessions {
        sessions := sessions - {user};
      }
    }

    /** `cleanup_expired_sessions`: collects the expired users, then deletes them. */
    method CleanupExpiredSessions(now: int)
      modifies this
      ensures sessions == Swept(old(sessions), now)
    {
      var expired: set<string> := {};
      var pending := sessions.Keys;
      while pending != {}
        invariant pending <= sessions.Keys
        invariant expired == set u | u in sessions.Keys - pending && Expired(sessions[u], now)
        decreases pending
      {
        var u :| u in pending;
        if Expired(sessions[u], now) {
          expired := expired + {u};
        }
        pending := pending - {u};
      }
      var toDelete := expired;
      while toDelete != {}
        invariant toDelete <= expired
        invariant sessions == old(sessions) - (expired - toDelete)
        decreases toDelete
      {
        var u :| u in toDelete;
        sessions := sessions - {u};
        toDelete := toDelete - {u};
      }
      assert sessions == old(sessions) - expired;
      assert sessions == Swept(old(sessions), now);
    }

    /** `get_all_sessions`: one report entry per registered user. */
    function GetAllSessions(now: int): (r: SessionsReport)
      reads this
      ensures r.totalSessions == |sessions|
      ensures r.sessions.Keys == sessions.Keys
      ensures forall u :: u in r.sessions ==>
        r.sessions[u].conversationId == sessions[u].conversationId &&
        r.sessions[u].lastActivity == sessions[u].lastActivity &&
        r.sessions[u].minutesSinceLastActivity == (now - sessions[u].lastActivity) as real / 60.0
    {
      SessionsReport(|sessions|,
        map u | u in sessions ::
          SessionInfo(sessions[u].conversationId, sessions[u].lastActivity,
                      (now - sessions[u].lastActivity) as real / 60.0))
    }
  }

  /** A caller-supplied id is returned verbatim, whatever the registry holds. */
  lemma ProvidedIdWins(sessions: map<string, Session>, user: string, id: string, freshId: string, now: int)
    requires id != ""
    ensures Resolve(sessions, user, Some(id), freshId, now) == id
  {
  }

  /** Two requests less than 60 minutes apart, without a supplied id,
      get the same conversation id. */
  lemma SessionStable(sessions: map<string, Session>, user: string, provided: Option<string>,
                      fresh1: string, fresh2: string, t1: int, t2: int)
    requires t2 - t1 < TimeoutSeconds
    ensures var id := Resolve(sessions, user, provided, fresh1, t1);
            Resolve(sessions[user := Session(id, t1)], user, None, fresh2, t2) == id
  {
  }

  /** After the window has passed, an id different from the old one is minted,
      provided the fresh UUID differs from the old id. */
  lemma SessionExpiry(sessions: map<string, Session>, user: string, freshId: string, now: int)
    requires user in sessions && now - sessions[user].lastActivity >= TimeoutSeconds
    requires freshId != sessions[user].conversationId
    ensures Resolve(sessions, user, None, freshId, now) == freshId
    ensures Resolve(sessions, user, None, freshId, now) != sessions[user].conversationId
  {
  }

  /** The sweep removes exactly the expired sessions and leaves the others as they were. */
  lemma SweptExactly(sessions: map<string, Session>, now: int, u: string)
    ensures u in Swept(sessions, now) <==> u in sessions && !Expired(sessions[u], now)
    ensures u in Swept(sessions, now) ==> Swept(sessions, now)[u] == sessions[u]
    ensures |Swept(sessions, now)| <= |sessions|
  {
    assert Swept(sessions, now).Keys <= sessions.Keys;
    SubsetCard(Swept(sessions, now).Keys, sessions.Keys);
  }

  lemma SubsetCard<T>(a: set<T>, b: set<T>)
    requires a <= b
    ensures |a| <= |b|
  {
    assert b == a + (b - a);
  }

  /** A session touched at `now` is neither expired at `now` nor sweeping
      it loses the refreshed entry: a resolve followed by a sweep keeps the user. */
  lemma ResolveThenSweepKeeps(sessions: map<string, Session>, user: string, provided: Option<string>,
                              freshId: string, now: int)
    ensures var id := Resolve(sessions, user, provided, freshId, now);
            var s := Swept(sessions[user := Session(id, now)], now);
            user in s && s[user].conversationId == id
  {
  }
}
