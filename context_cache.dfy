/** The process-wide cache of context stores, one per conversation id.
    A store is swept once it is empty or its newest message is more than
    two hours old. */
module ContextCaching {
  import opened Text
  import opened ConversationContext

  const CacheTimeoutMinutes: int := 120
  const CacheTimeoutSeconds: int := CacheTimeoutMinutes * 60

  /** A store the sweep removes: no messages, or the newest one too old. */
  predicate Stale(msgs: seq<Message>, now: int) {
    |msgs| == 0 || now - msgs[|msgs| - 1].timestamp > CacheTimeoutSeconds
  }

  /** A store that has just received a message is not swept for the next two hours. */
  lemma {:induction false} FreshStoreSurvives(msgs: seq<Message>, m: Message, t: int, now: int)
    requires m.timestamp == t && now - t <= CacheTimeoutSeconds
    ensures !Stale(Trimmed(msgs + [m], t), now)
  {
    AppendThenTrimKeepsNewest(msgs, m, t);
  }

  /** What `get_cache_stats` reports about one conversation. */
  datatype ConversationStats = ConversationStats(totalMessages: nat, userMessages: nat, assistantMessages: nat,
                                                 oldestMessage: Option<int>, newestMessage: Option<int>)
  datatype CacheStats = CacheStats(totalContexts: nat, conversations: map<string, ConversationStats>)

  function Summarise(s: ContextStats): (r: ConversationStats)
    ensures r.totalMessages == s.totalMessages && r.newestMessage == s.newestMessage
    ensures r.userMessages == s.userMessages && r.assistantMessages == s.assistantMessages
    ensures r.oldestMessage == s.oldestMessage
  {
    ConversationStats(s.totalMessages, s.userMessages, s.assistantMessages, s.oldestMessage, s.newestMessage)
  }

  class ContextCache {
    var contexts: map<string, ContextManager>

    /** Every store is filed under its own conversation id. */
    predicate Valid()
      reads this
    {
      forall c :: c in contexts ==> contexts[c].conversationId == c
    }

    constructor ()
      ensures contexts == map[] && Valid()
    {
      contexts := map[];
    }

    /** `get_or_create_context_manager`: the cached store for the id if there
        is one (whatever user it was created for), otherwise a new empty one. */
    method GetOrCreateContextManager(userId: int, conversationId: string, userEmail: string)
      returns (cm: ContextManager)
      requires Valid()
      modifies this
      ensures Valid()
      ensures conversationId in old(contexts) ==> cm == old(contexts)[conversationId] && contexts == old(contexts)
      ensures conversationId !in old(contexts) ==>
        fresh(cm) && cm.messages == [] && cm.userId == userId && cm.userEmail == userEmail &&
        contexts == old(contexts)[conversationId := cm]
      ensures cm.conversationId == conversationId
    {
      if conversationId in contexts {
        return contexts[conversationId];
      }
      cm := new ContextManager(userId, conversationId, userEmail);
      contexts := contexts[conversationId := cm];
    }

    /** `remove_context_manager`. */
    method RemoveContextManager(conversationId: string)
      requires Valid()
      modifies this
      ensures Valid()
      ensures contexts == old(contexts) - {conversationId}
    {
      if conversationId in contexts {
        contexts := contexts - {conversationId};
      }
    }

    /** `cleanup_expired_contexts`: collects the stale ids, then deletes them. */
    method CleanupExpiredContexts(now: int)
      requires Valid()
      modifies this
      ensures Valid()
      ensures contexts == map c | c in old(contexts) && !Stale(old(contexts)[c].messages, now) :: old(contexts)[c]
    {
      var expired: set<string> := {};
      var pending := contexts.Keys;
      while pending != {}
        invariant pending <= contexts.Keys
        invariant expired == set c | c in contexts.Keys - pending && Stale(contexts[c].messages, now)
        decreases pending
      {
        var c :| c in pending;
        if Stale(contexts[c].messages, now) {
          expired := expired + {c};
        }
        pending := pending - {c};
      }
      var toDelete := expired;
      while toDelete != {}
        invariant toDelete <= expired
        invariant contexts == old(contexts) - (expired - toDelete)
        decreases toDelete
      {
        var c :| c in toDelete;
        contexts := contexts - {c};
        toDelete := toDelete - {c};
      }
    }

    /** `get_cache_stats`: one entry per cached conversation, carrying that store's statistics. */
    function GetCacheStats(): (r: CacheStats)
      reads this, contexts.Values
      ensures r.totalContexts == |contexts|
      ensures r.conversations.Keys == contexts.Keys
      ensures forall c :: c in r.conversations ==>
        r.conversations[c].totalMessages == |contexts[c].messages| &&
        r.conversations[c].userMessages + r.conversations[c].assistantMessages <= r.conversations[c].totalMessages
      ensures forall c :: c in r.conversations ==> r.conversations[c] == Summarise(contexts[c].GetContextStats())
      ensures forall c :: c in r.conversations ==>
        r.conversations[c].userMessages == CountRole(contexts[c].messages, User) &&
        r.conversations[c].assistantMessages == CountRole(contexts[c].messages, Assistant)
    {
      CacheStats(|contexts|, map c | c in contexts :: Summarise(contexts[c].GetContextStats()))
    }

    /** `clear_all_contexts`. */
    method ClearAllContexts()
      modifies this
      ensures contexts == map[] && Valid()
    {
      contexts := map[];
    }
  }
}
