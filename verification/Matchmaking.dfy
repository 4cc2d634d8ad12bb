/** Joining and leaving queues: reserve in Redis, create the session, finalize. */
module Matchmaking {
  import opened Wrappers
  import opened Identity
  import opened SortedSets
  import opened Redis
  import Sessions
  import Registered
  import Guests

  /** How durable creation ends: stored, refused by a database constraint, or failed in some other way. */
  datatype Creation = Stored | Refused | Failed

  datatype JoinResult =
    | Queued
    | AlreadyMatched(matchId: MatchId)
    | Matched(matchId: MatchId, userA: UserId, userB: UserId)
    | Recovered(matchId: MatchId, userA: UserId, userB: UserId)
    | Raised

  datatype Joined = Joined(keys: Keys, result: JoinResult)

  /** Leave the old queue, if it is another one, and note the new one for 15 minutes. */
  function Requeue(k: Keys, user: UserId, key: QueueKey, now: Time): Keys {
    var dropped :=
      if Exists(k.currentQueue, user, now) && k.currentQueue[user].value != key
      then WithQueue(k, k.currentQueue[user].value, Remove(Queue(k, k.currentQueue[user].value), user))
      else k;
    dropped.(currentQueue := k.currentQueue[user := Expiring(key, now + QUEUE_TTL)])
  }

  function Finalize(k: Keys, key: QueueKey, a: UserId, b: UserId, m: MatchId, now: Time): Keys {
    WithQueue(k, key, Remove(Remove(Queue(k, key), a), b)).(
      locks := k.locks - {a, b},
      activeMatch := k.activeMatch[a := Expiring(m, now + MATCH_TTL)][b := Expiring(m, now + MATCH_TTL)])
  }

  /** A join from its script on. */
  function Reserving(k: Keys, user: UserId, key: QueueKey, lastPartner: UserId, m: MatchId, now: Time, creation: Creation): Joined {
    var (reserved, reply) := Reserve(k, key, user, m, lastPartner, now);
    match reply
    case Nil => Joined(reserved, Queued)
    case Locked(other) => Joined(reserved, AlreadyMatched(other))
    case NewMatch(partner, _) =>
      match creation
      case Stored => Joined(Finalize(reserved, key, user, partner, m, now), Matched(m, user, partner))
      case Refused => Joined(Finalize(reserved, key, user, partner, m, now), Recovered(m, user, partner))
      case Failed => Joined(reserved, Raised)
  }

  function Join(k: Keys, user: UserId, key: QueueKey, lastPartner: UserId, m: MatchId, now: Time, creation: Creation): Joined {
    if Exists(k.activeMatch, user, now) then Joined(k, AlreadyMatched(k.activeMatch[user].value))
    else Reserving(Requeue(k, user, key, now), user, key, lastPartner, m, now, creation)
  }

  function LeaveQueue(k: Keys, user: UserId, key: QueueKey): Keys {
    WithQueue(k, key, Remove(Queue(k, key), user))
  }

  /** MATCH_FOUND with an id, or QUEUED. */
  function Status(k: Keys, user: UserId, now: Time): Option<MatchId> {
    if Exists(k.activeMatch, user, now) then Some(k.activeMatch[user].value) else None
  }

  // ---- One live queue per user ------------------------------------------------------------------

  /** Neither evicted yet nor due for eviction. */
  predicate Fresh(e: Entry, now: Time) { now - e.score < 900_000 }

  predicate Waits(k: Keys, key: QueueKey, e: Entry) { e in Queue(k, key) }

  predicate Placed(k: Keys, key: QueueKey, e: Entry, now: Time) {
    && e.score <= now
    && Exists(k.currentQueue, e.id, now) && k.currentQueue[e.id].value == key
    && k.currentQueue[e.id].expires >= e.score + QUEUE_TTL
    && !Exists(k.activeMatch, e.id, now)
  }

  /** Every fresh entry is in the queue its user's current_queue names, and its user has no match. */
  ghost predicate OneQueueEach(k: Keys, now: Time) {
    && QueuesSorted(k)
    && forall key, e :: Waits(k, key, e) && Fresh(e, now) ==> Placed(k, key, e, now)
  }

  lemma RemoveEffect(k: Keys, key: QueueKey, user: UserId)
    requires QueuesSorted(k)
    ensures var k' := LeaveQueue(k, user, key);
            && QueuesSorted(k')
            && forall other, e :: Waits(k', other, e) <==> Waits(k, other, e) && !(other == key && e.id == user)
  {
    RemoveFacts(Queue(k, key), user);
  }

  lemma RequeueFacts(k: Keys, user: UserId, key: QueueKey, now: Time)
    requires OneQueueEach(k, now) && !Exists(k.activeMatch, user, now)
    ensures var k' := Requeue(k, user, key, now);
            && OneQueueEach(k', now)
            && k'.activeMatch == k.activeMatch && k'.locks == k.locks
            && (forall other, e :: Waits(k', other, e) ==> Waits(k, other, e))
            && (forall other, e :: Waits(k, other, e) && e.id != user ==> Waits(k', other, e))
  {
    if Exists(k.currentQueue, user, now) {
      RemoveEffect(k, k.currentQueue[user].value, user);
    }
    var k' := Requeue(k, user, key, now);
    forall other, e | Waits(k', other, e) && Fresh(e, now) ensures Placed(k', other, e, now) {
      assert Waits(k, other, e);
      assert Placed(k, other, e, now);
    }
  }

  lemma ReserveKeeps(k: Keys, user: UserId, key: QueueKey, lastPartner: UserId, m: MatchId, now: Time)
    requires OneQueueEach(k, now) && !Exists(k.activeMatch, user, now)
    requires Exists(k.currentQueue, user, now) && k.currentQueue[user] == Expiring(key, now + QUEUE_TTL)
    ensures var (k', reply) := Reserve(k, key, user, m, lastPartner, now);
            && OneQueueEach(k', now)
            && k'.activeMatch == k.activeMatch && k'.currentQueue == k.currentQueue
            && (reply.NewMatch? ==> reply.partner != user && !Exists(k.activeMatch, reply.partner, now)
                                    && Exists(k.currentQueue, reply.partner, now)
                                    && k.currentQueue[reply.partner].value == key)
  {
    ScriptIsFair(k, key, user, m, lastPartner, now);
    ScriptFrame(k, key, user, m, lastPartner, now);
    var (k', reply) := Reserve(k, key, user, m, lastPartner, now);
    forall other, e | Waits(k', other, e) && Fresh(e, now)
      ensures Placed(k', other, e, now)
    {
      if e != Entry(now, user) || other != key {
        assert Waits(k, other, e);
      }
    }
    if reply.NewMatch? {
      var b: Entry :| b.id == reply.partner && Candidate(k, key, b, user, lastPartner, now);
      assert Waits(k, key, b);
    }
  }

  lemma FinalizeKeeps(k: Keys, key: QueueKey, a: UserId, b: UserId, m: MatchId, now: Time)
    requires OneQueueEach(k, now)
    requires Exists(k.currentQueue, a, now) && k.currentQueue[a].value == key
    requires Exists(k.currentQueue, b, now) && k.currentQueue[b].value == key
    ensures OneQueueEach(Finalize(k, key, a, b, m, now), now)
  {
    var k1 := LeaveQueue(k, a, key);
    var k2 := LeaveQueue(k1, b, key);
    RemoveEffect(k, key, a);
    RemoveEffect(k1, key, b);
    var k' := Finalize(k, key, a, b, m, now);
    assert k'.queues == k2.queues;
    forall other, e | Waits(k', other, e) && Fresh(e, now)
      ensures Placed(k', other, e, now)
    {
      assert Waits(k2, other, e);
      assert Placed(k, other, e, now);
    }
  }

  /** What one join does to the matches there are. */
  lemma JoinKeeps(k: Keys, user: UserId, key: QueueKey, lastPartner: UserId, m: MatchId, now: Time, creation: Creation)
    requires OneQueueEach(k, now)
    ensures var j := Join(k, user, key, lastPartner, m, now, creation);
            && OneQueueEach(j.keys, now)
            && (j.result.Matched? || j.result.Recovered? ==>
                  && j.result.matchId == m && j.result.userA == user && j.result.userB != user
                  && !Exists(k.activeMatch, user, now) && !Exists(k.activeMatch, j.result.userB, now)
                  && j.keys.activeMatch
                     == k.activeMatch[user := Expiring(m, now + MATCH_TTL)][j.result.userB := Expiring(m, now + MATCH_TTL)])
            && (!(j.result.Matched? || j.result.Recovered?) ==> j.keys.activeMatch == k.activeMatch)
  {
    if !Exists(k.activeMatch, user, now) {
      var queued := Requeue(k, user, key, now);
      RequeueFacts(k, user, key, now);
      ReserveKeeps(queued, user, key, lastPartner, m, now);
      ScriptFrame(queued, key, user, m, lastPartner, now);
      var (reserved, reply) := Reserve(queued, key, user, m, lastPartner, now);
      if reply.NewMatch? {
        FinalizeKeeps(reserved, key, user, reply.partner, m, now);
      }
    }
  }

  lemma RequeuedCandidates(k: Keys, user: UserId, key: QueueKey, lastPartner: UserId, now: Time)
    requires OneQueueEach(k, now) && !Exists(k.activeMatch, user, now)
    ensures forall e :: Candidate(Requeue(k, user, key, now), key, e, user, lastPartner, now)
                        <==> Candidate(k, key, e, user, lastPartner, now)
  {
    RequeueFacts(k, user, key, now);
    var queued := Requeue(k, user, key, now);
    forall e: Entry ensures e.id != user ==> (e in Queue(queued, key) <==> e in Queue(k, key)) {
      assert Waits(queued, key, e) <==> e in Queue(queued, key);
      assert Waits(k, key, e) <==> e in Queue(k, key);
    }
    hide Requeue;
  }

  /** How a join that reserved a partner ends. */
  function PairedWith(m: MatchId, user: UserId, partner: UserId, creation: Creation): JoinResult {
    match creation
    case Stored => Matched(m, user, partner)
    case Refused => Recovered(m, user, partner)
    case Failed => Raised
  }

  /**
   The whole reply of a join: a user with a match, or with a lock, is told of it; anybody else is paired
   with the candidate who has waited longest, and queued exactly if there is no candidate.
   */
  lemma {:induction false} JoinIsFair(k: Keys, user: UserId, key: QueueKey, lastPartner: UserId, m: MatchId, now: Time,
                                      creation: Creation)
    requires OneQueueEach(k, now)
    ensures var r := Join(k, user, key, lastPartner, m, now, creation).result;
            if Exists(k.activeMatch, user, now) then r == AlreadyMatched(k.activeMatch[user].value)
            else if Exists(k.locks, user, now) then r == AlreadyMatched(k.locks[user].value)
            else if forall e :: !Candidate(k, key, e, user, lastPartner, now) then r == Queued
            else exists b: Entry :: Candidate(k, key, b, user, lastPartner, now) && r == PairedWith(m, user, b.id, creation)
                                    && forall e :: Candidate(k, key, e, user, lastPartner, now) && e != b ==>
                                         Before(b, e) && b.score <= e.score
  {
    if !Exists(k.activeMatch, user, now) {
      RequeueFacts(k, user, key, now);
      RequeuedCandidates(k, user, key, lastPartner, now);
      ScriptIsFair(Requeue(k, user, key, now), key, user, m, lastPartner, now);
      hide Requeue, Reserve, Finalize, Candidate, OneQueueEach;
    }
  }

  /** Entries of users other than `a` and `b` stay, except stale ones of queue `key`. */
  ghost predicate OthersStay(k: Keys, k': Keys, key: QueueKey, now: Time, a: UserId, b: UserId) {
    forall other, e: Entry :: e.id != a && e.id != b ==>
      (Waits(k', other, e) <==> Waits(k, other, e) && (other == key ==> Fresh(e, now)))
  }

  lemma ReserveFrame(k: Keys, key: QueueKey, caller: UserId, m: MatchId, lastPartner: UserId, now: Time)
    requires QueuesSorted(k) && !Exists(k.locks, caller, now)
    ensures var k' := Reserve(k, key, caller, m, lastPartner, now).0;
            && QueuesSorted(k') && k'.currentQueue == k.currentQueue && Waits(k', key, Entry(now, caller))
            && OthersStay(k, k', key, now, caller, caller)
  {
    ScriptFrame(k, key, caller, m, lastPartner, now);
    ScriptIsFair(k, key, caller, m, lastPartner, now);
    hide Reserve, Queue;
  }

  lemma FinalizeFrame(k: Keys, key: QueueKey, a: UserId, b: UserId, m: MatchId, now: Time)
    requires QueuesSorted(k)
    ensures var k' := Finalize(k, key, a, b, m, now);
            && QueuesSorted(k') && k'.currentQueue == k.currentQueue && k'.locks == k.locks - {a, b}
            && (forall other, e :: Waits(k', other, e) <==> Waits(k, other, e) && !(other == key && (e.id == a || e.id == b)))
  {
    var k1 := LeaveQueue(k, a, key);
    RemoveEffect(k, key, a);
    RemoveEffect(k1, key, b);
    assert Finalize(k, key, a, b, m, now).queues == LeaveQueue(k1, b, key).queues;
    hide LeaveQueue;
  }

  /** Everything a join does to the queues, their notes and the locks. */
  lemma {:induction false} JoinFrame(k: Keys, user: UserId, key: QueueKey, lastPartner: UserId, m: MatchId, now: Time,
                                     creation: Creation)
    requires OneQueueEach(k, now) && !Exists(k.activeMatch, user, now) && !Exists(k.locks, user, now)
    ensures var j := Join(k, user, key, lastPartner, m, now, creation);
            && j.keys.currentQueue == k.currentQueue[user := Expiring(key, now + 900_000)]
            && (j.result.Queued? ==>
                  Waits(j.keys, key, Entry(now, user)) && j.keys.locks == k.locks && OthersStay(k, j.keys, key, now, user, user))
            && (j.result.Raised? ==> Waits(j.keys, key, Entry(now, user)) && OthersStay(k, j.keys, key, now, user, user))
            && (j.result.Matched? || j.result.Recovered? ==>
                  && j.keys.locks == k.locks - {user, j.result.userB}
                  && (forall e :: Waits(j.keys, key, e) ==> e.id != user && e.id != j.result.userB)
                  && OthersStay(k, j.keys, key, now, user, j.result.userB))
  {
    hide Requeue, Reserve, Finalize, OneQueueEach, QueuesSorted, Waits;
    var queued := Requeue(k, user, key, now);
    RequeueFacts(k, user, key, now);
    RequeueNotes(k, user, key, now);
    ReserveFrame(queued, key, user, m, lastPartner, now);
    ReserveLocks(queued, key, user, m, lastPartner, now);
    var (reserved, reply) := Reserve(queued, key, user, m, lastPartner, now);
    assert OthersStay(k, reserved, key, now, user, user);
    if reply.NewMatch? {
      FinalizeFrame(reserved, key, user, reply.partner, m, now);
    }
  }

  lemma RequeueNotes(k: Keys, user: UserId, key: QueueKey, now: Time)
    requires OneQueueEach(k, now)
    ensures QueuesSorted(Requeue(k, user, key, now))
    ensures Requeue(k, user, key, now).currentQueue == k.currentQueue[user := Expiring(key, now + QUEUE_TTL)]
  {
    if Exists(k.currentQueue, user, now) {
      RemoveEffect(k, k.currentQueue[user].value, user);
    }
  }

  /** A user is never waiting in two queues, and never while matched. */
  lemma LiveInOneQueueAtMost(k: Keys, now: Time, q1: QueueKey, q2: QueueKey, e1: Entry, e2: Entry)
    requires OneQueueEach(k, now)
    requires Waits(k, q1, e1) && Waits(k, q2, e2) && e1.id == e2.id && Fresh(e1, now) && Fresh(e2, now)
    ensures q1 == q2 && e1 == e2 && !Exists(k.activeMatch, e1.id, now)
  {
    if q1 == q2 {
      SameMember(Queue(k, q1), e1, e2);
    }
  }

  lemma LeaveQueueKeeps(k: Keys, user: UserId, key: QueueKey, now: Time)
    requires OneQueueEach(k, now)
    ensures OneQueueEach(LeaveQueue(k, user, key), now)
  {
    RemoveEffect(k, key, user);
  }

  /** The user is out of the queue, and nothing else has changed. */
  ghost predicate Left(k: Keys, k': Keys, user: UserId, key: QueueKey) {
    && k'.locks == k.locks && k'.currentQueue == k.currentQueue && k'.activeMatch == k.activeMatch
    && (forall e :: Waits(k', key, e) ==> e.id != user)
    && (forall other, e: Entry :: (other != key || e.id != user) ==> (Waits(k', other, e) <==> Waits(k, other, e)))
  }

  // ---- The service -----------------------------------------------------------------------------

  /** The durable sessions: rows for registered users, hashes for guests. */
  class Database {
    var registered: map<MatchId, Registered.InterviewSession>
    var guests: map<MatchId, Guests.GuestSession>

    constructor ()
      ensures registered == map[] && guests == map[]
    {
      registered, guests := map[], map[];
    }
  }

  class MatchmakingService {
    const redis: RedisClient
    const db: Database

    constructor (redis: RedisClient, db: Database)
      ensures this.redis == redis && this.db == db
    {
      this.redis, this.db := redis, db;
    }

    /** Durable creation; `creation` is how the writes fare. */
    method CreateSession(m: MatchId, a: UserId, b: UserId, key: QueueKey, now: Time, creation: Creation)
      modifies db
      ensures creation != Stored ==> db.registered == old(db.registered) && db.guests == old(db.guests)
      ensures creation == Stored && key.accountType == "GUEST" ==>
                && m in db.guests && fresh(db.guests[m]) && db.guests == old(db.guests)[m := db.guests[m]]
                && db.guests[m].View() == Guests.NewGuest(a, b, key.room, key.mode, now)
                && db.registered == old(db.registered)
      ensures creation == Stored && key.accountType != "GUEST" ==>
                && m in db.registered && fresh(db.registered[m]) && db.registered == old(db.registered)[m := db.registered[m]]
                && db.registered[m].Separate()
                && db.registered[m].View() == Sessions.NewSession(a, b, key.room, key.mode, now)
                && db.guests == old(db.guests)
    {
      if creation == Stored {
        if key.accountType == "GUEST" {
          var session := new Guests.GuestSession(a, b, key.room, key.mode, now);
          db.guests := db.guests[m := session];
        } else {
          var session := new Registered.InterviewSession(a, b, key.room, key.mode, now);
          db.registered := db.registered[m := session];
        }
      }
    }

    method FinalizeMatch(key: QueueKey, a: UserId, b: UserId, m: MatchId, now: Time)
      modifies redis
      ensures redis.View() == Finalize(old(redis.View()), key, a, b, m, now)
    {
      redis.locks := redis.locks - {a, b};
      redis.queues := redis.queues[key := Remove(Remove(Queue(redis.View(), key), a), b)];
      redis.activeMatch := redis.activeMatch[a := Expiring(m, now + MATCH_TTL)];
      redis.activeMatch := redis.activeMatch[b := Expiring(m, now + MATCH_TTL)];
    }

    method MoveToQueue(user: UserId, key: QueueKey, now: Time)
      modifies redis
      ensures redis.View() == Requeue(old(redis.View()), user, key, now)
    {
      hide Remove;
      if Exists(redis.currentQueue, user, now) {
        var previous := redis.currentQueue[user].value;
        if previous != key {
          redis.queues := redis.queues[previous := Remove(Queue(redis.View(), previous), user)];
        }
      }
      redis.currentQueue := redis.currentQueue[user := Expiring(key, now + QUEUE_TTL)];
    }

    method JoinQueue(user: UserId, key: QueueKey, lastPartner: UserId, m: MatchId, now: Time, creation: Creation)
      returns (result: JoinResult)
      modifies redis, db
      ensures Joined(redis.View(), result) == Join(old(redis.View()), user, key, lastPartner, m, now, creation)
      ensures !result.Matched? ==> db.registered == old(db.registered) && db.guests == old(db.guests)
      ensures result.Matched? && key.accountType == "GUEST" ==>
                && m in db.guests && db.guests == old(db.guests)[m := db.guests[m]] && db.registered == old(db.registered)
                && db.guests[m].View() == Guests.NewGuest(user, result.userB, key.room, key.mode, now)
      ensures result.Matched? && key.accountType != "GUEST" ==>
                && m in db.registered && db.registered == old(db.registered)[m := db.registered[m]] && db.guests == old(db.guests)
                && db.registered[m].Separate()
                && db.registered[m].View() == Sessions.NewSession(user, result.userB, key.room, key.mode, now)
    {
      hide Reserve, Requeue, Finalize;
      if Exists(redis.activeMatch, user, now) {
        return AlreadyMatched(redis.activeMatch[user].value);
      }
      MoveToQueue(user, key, now);
      var reply := redis.ReservePair(key, user, m, lastPartner, now);
      match reply {
        case Nil => return Queued;
        case Locked(other) => return AlreadyMatched(other);
        case NewMatch(partner, _) =>
          CreateSession(m, user, partner, key, now, creation);
          match creation {
            case Stored =>
              FinalizeMatch(key, user, partner, m, now);
              return Matched(m, user, partner);
            case Refused =>
              FinalizeMatch(key, user, partner, m, now);
              return Recovered(m, user, partner);
            case Failed =>
              return Raised;
          }
      }
    }

    method Leave(user: UserId, key: QueueKey)
      modifies redis
      ensures redis.View() == LeaveQueue(old(redis.View()), user, key)
    {
      redis.queues := redis.queues[key := Remove(Queue(redis.View(), key), user)];
    }
  }
}
