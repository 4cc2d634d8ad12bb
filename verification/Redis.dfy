/** The matchmaking keys in Redis and the atomic reservation script that runs over them. */
module Redis {
  import opened Wrappers
  import opened Identity
  import opened SortedSets

  type MatchId = string

  datatype QueueKey = QueueKey(room: string, mode: string, accountType: string)

  /** A key set with EX: it exists strictly before `expires`. */
  datatype Expiring<T> = Expiring(value: T, expires: Time)

  datatype Keys = Keys(
    queues: map<QueueKey, SortedSet>,
    locks: map<UserId, Expiring<MatchId>>,
    currentQueue: map<UserId, Expiring<QueueKey>>,
    activeMatch: map<UserId, Expiring<MatchId>>)

  const LOCK_TTL: nat := 10_000
  const QUEUE_TTL: nat := 900_000
  const MATCH_TTL: nat := 86_400_000
  const MAX_QUEUE_TIME: nat := 900_000

  predicate Exists<T>(m: map<UserId, Expiring<T>>, u: UserId, now: Time) { u in m && now < m[u].expires }

  function Queue(k: Keys, key: QueueKey): SortedSet { if key in k.queues then k.queues[key] else [] }

  function WithQueue(k: Keys, key: QueueKey, q: SortedSet): Keys { k.(queues := k.queues[key := q]) }

  // ---- The reservation script --------------------------------------------------------------------

  datatype ScriptReply = Nil | Locked(matchId: MatchId) | NewMatch(partner: UserId, matchId: MatchId)

  predicate Eligible(k: Keys, e: Entry, caller: UserId, lastPartner: UserId, now: Time) {
    e.id != caller && e.id != lastPartner && !Exists(k.locks, e.id, now)
  }

  function FirstEligible(k: Keys, q: SortedSet, caller: UserId, lastPartner: UserId, now: Time): Option<Entry> {
    if q == [] then None
    else if Eligible(k, q[0], caller, lastPartner, now) then Some(q[0])
    else FirstEligible(k, q[1..], caller, lastPartner, now)
  }

  function Lock(k: Keys, u: UserId, m: MatchId, now: Time): Keys {
    k.(locks := k.locks[u := Expiring(m, now + LOCK_TTL)])
  }

  function Reserve(k: Keys, key: QueueKey, caller: UserId, m: MatchId, lastPartner: UserId, now: Time): (Keys, ScriptReply) {
    var live := EvictThrough(Queue(k, key), now - MAX_QUEUE_TIME);
    var evicted := WithQueue(k, key, live);
    if Exists(k.locks, caller, now) then (evicted, Locked(k.locks[caller].value))
    else
      var queued := WithQueue(evicted, key, Add(live, now, caller));
      match FirstEligible(evicted, live, caller, lastPartner, now)
      case None => (queued, Nil)
      case Some(b) => (Lock(Lock(queued, caller, m, now), b.id, m, now), NewMatch(b.id, m))
  }

  lemma {:induction false} FirstEligibleIsLeast(k: Keys, q: SortedSet, caller: UserId, lastPartner: UserId, now: Time)
    ensures var r := FirstEligible(k, q, caller, lastPartner, now);
            && (r.Some? ==> r.value in q && Eligible(k, r.value, caller, lastPartner, now))
            && (r.None? <==> forall e :: e in q ==> !Eligible(k, e, caller, lastPartner, now))
            && (Sorted(q) ==> forall e :: e in q && Eligible(k, e, caller, lastPartner, now) ==>
                  r.Some? && (e == r.value || Before(r.value, e)))
  {
    if q != [] {
      FirstEligibleIsLeast(k, q[1..], caller, lastPartner, now);
      if Sorted(q) {
        SortedTail(q);
      }
    }
  }

  /** Locks are taken in pairs, by users who had none, and by the script alone. */
  lemma ReserveLocks(k: Keys, key: QueueKey, caller: UserId, m: MatchId, lastPartner: UserId, now: Time)
    ensures var (k', reply) := Reserve(k, key, caller, m, lastPartner, now);
            && (reply.NewMatch? ==>
                  && !Exists(k.locks, caller, now) && !Exists(k.locks, reply.partner, now) && reply.partner != caller
                  && k'.locks == k.locks[caller := Expiring(m, now + LOCK_TTL)][reply.partner := Expiring(m, now + LOCK_TTL)])
            && (!reply.NewMatch? ==> k'.locks == k.locks)
  {
    var live := EvictThrough(Queue(k, key), now - MAX_QUEUE_TIME);
    FirstEligibleIsLeast(WithQueue(k, key, live), live, caller, lastPartner, now);
  }

  lemma ReserveSparesNotes(k: Keys, key: QueueKey, caller: UserId, m: MatchId, lastPartner: UserId, now: Time)
    ensures Reserve(k, key, caller, m, lastPartner, now).0.activeMatch == k.activeMatch
  {
    hide EvictThrough, Add, FirstEligible;
  }

  /** A waiter the script may pair the caller with: in this queue for less than 15 minutes, not locked, not excluded. */
  ghost predicate Candidate(k: Keys, key: QueueKey, e: Entry, caller: UserId, lastPartner: UserId, now: Time) {
    e in Queue(k, key) && now - e.score < 900_000 && Eligible(k, e, caller, lastPartner, now)
  }

  ghost predicate QueuesSorted(k: Keys) { forall key :: key in k.queues ==> Sorted(k.queues[key]) }

  /**
   The script against a specification without a scan: it pairs the caller with the earliest
   candidate, pairs with nobody exactly when there is none, and changes nothing but the stale
   entries, the caller's entry and the two locks.
   */
  lemma ScriptIsFair(k: Keys, key: QueueKey, caller: UserId, m: MatchId, lastPartner: UserId, now: Time)
    requires QueuesSorted(k)
    ensures var (k', reply) := Reserve(k, key, caller, m, lastPartner, now);
            && QueuesSorted(k')
            && (reply.Locked? <==> Exists(k.locks, caller, now))
            && (reply.Nil? <==> !reply.Locked? && forall e :: !Candidate(k, key, e, caller, lastPartner, now))
            && (reply.Locked? ==> reply.matchId == k.locks[caller].value)
            && (reply.NewMatch? ==>
                  && reply.matchId == m
                  && exists b: Entry :: b.id == reply.partner && Candidate(k, key, b, caller, lastPartner, now)
                                 && forall e :: Candidate(k, key, e, caller, lastPartner, now) ==> e == b || Before(b, e))
  {
    var q := Queue(k, key);
    var live := EvictThrough(q, now - MAX_QUEUE_TIME);
    EvictFacts(q, now - MAX_QUEUE_TIME);
    AddFacts(live, now, caller);
    var evicted := WithQueue(k, key, live);
    FirstEligibleIsLeast(evicted, live, caller, lastPartner, now);
    assert forall e :: Candidate(k, key, e, caller, lastPartner, now)
                       <==> e in live && Eligible(evicted, e, caller, lastPartner, now);
    var r := FirstEligible(evicted, live, caller, lastPartner, now);
    if !Exists(k.locks, caller, now) && r.Some? {
      assert Candidate(k, key, r.value, caller, lastPartner, now);
    }
  }

  lemma ScriptFrame(k: Keys, key: QueueKey, caller: UserId, m: MatchId, lastPartner: UserId, now: Time)
    requires QueuesSorted(k)
    ensures var (k', reply) := Reserve(k, key, caller, m, lastPartner, now);
            && k'.currentQueue == k.currentQueue && k'.activeMatch == k.activeMatch
            && (forall other :: other != key ==> Queue(k', other) == Queue(k, other))
            && (forall e: Entry :: e.id != caller ==>
                  (e in Queue(k', key) <==> e in Queue(k, key) && now - e.score < MAX_QUEUE_TIME))
            && (forall e: Entry :: e.id == caller ==>
                  (e in Queue(k', key) <==> if reply.Locked? then e in Queue(k, key) && now - e.score < MAX_QUEUE_TIME
                                                 else e == Entry(now, caller)))
            && k'.locks == if reply.NewMatch?
                           then k.locks[caller := Expiring(m, now + LOCK_TTL)][reply.partner := Expiring(m, now + LOCK_TTL)]
                           else k.locks
  {
    hide EvictThrough, Add, FirstEligible, Sorted;
    var live := EvictThrough(Queue(k, key), now - MAX_QUEUE_TIME);
    assert Sorted(Queue(k, key)) by {
      NothingIsSorted();
    }
    EvictFacts(Queue(k, key), now - MAX_QUEUE_TIME);
    AddFacts(live, now, caller);
    var (k', reply) := Reserve(k, key, caller, m, lastPartner, now);
    assert Queue(k', key) == if reply.Locked? then live else Add(live, now, caller);
    assert forall other :: other != key ==> Queue(k', other) == Queue(k, other);
    hide Queue;
  }

  lemma NothingIsSorted()
    ensures Sorted([])
  {
  }

  /** When a session ends, the matchmaking keys of both participants are deleted. */
  function Forget(k: Keys, a: UserId, b: UserId): Keys {
    k.(activeMatch := k.activeMatch - {a, b}, currentQueue := k.currentQueue - {a, b})
  }

  /** The Redis client the services share. */
  class RedisClient {
    var queues: map<QueueKey, SortedSet>
    var locks: map<UserId, Expiring<MatchId>>
    var currentQueue: map<UserId, Expiring<QueueKey>>
    var activeMatch: map<UserId, Expiring<MatchId>>

    function View(): Keys
      reads this
    {
      Keys(queues, locks, currentQueue, activeMatch)
    }

    constructor ()
      ensures View() == Keys(map[], map[], map[], map[])
    {
      queues, locks, currentQueue, activeMatch := map[], map[], map[], map[];
    }

    /** The Lua script. */
    method ReservePair(key: QueueKey, caller: UserId, m: MatchId, lastPartner: UserId, now: Time) returns (reply: ScriptReply)
      modifies this
      ensures (View(), reply) == Reserve(old(View()), key, caller, m, lastPartner, now)
    {
      var waiting := EvictThrough(Queue(View(), key), now - MAX_QUEUE_TIME);
      queues := queues[key := waiting];
      if Exists(locks, caller, now) {
        return Locked(locks[caller].value);
      }
      var partner: Option<UserId> := None;
      var i := 0;
      while i < |waiting|
        invariant 0 <= i <= |waiting| && partner == None
        invariant FirstEligible(View(), waiting, caller, lastPartner, now)
               == FirstEligible(View(), waiting[i..], caller, lastPartner, now)
      {
        var u := waiting[i].id;
        if u != caller && u != lastPartner {
          if !Exists(locks, u, now) {
            partner := Some(u);
            break;
          }
        }
        i := i + 1;
      }
      queues := queues[key := Add(waiting, now, caller)];
      if partner.None? {
        return Nil;
      }
      locks := locks[caller := Expiring(m, now + LOCK_TTL)];
      locks := locks[partner.value := Expiring(m, now + LOCK_TTL)];
      return NewMatch(partner.value, m);
    }

    method ForgetUser(u: UserId)
      modifies this
      ensures View() == old(View()).(activeMatch := old(activeMatch) - {u}, currentQueue := old(currentQueue) - {u})
    {
      activeMatch := activeMatch - {u};
      currentQueue := currentQueue - {u};
    }
  }
}
