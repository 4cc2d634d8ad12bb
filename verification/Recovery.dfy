/** A creation that fails after the reservation leaves two locks behind. What they do, and that they lapse. */
module Recovery {
  import opened Identity
  import opened SortedSets
  import opened Redis
  import opened Matchmaking
  import opened MatchRuns
  import S = Sessions

  lemma RaisedMeansReserved(k: Keys, user: UserId, key: QueueKey, lastPartner: UserId, m: MatchId, now: Time)
    requires OneQueueEach(k, now)
    requires Join(k, user, key, lastPartner, m, now, Failed).result.Raised?
    ensures var queued := Requeue(k, user, key, now);
            var (reserved, reply) := Reserve(queued, key, user, m, lastPartner, now);
            && Join(k, user, key, lastPartner, m, now, Failed).keys == reserved
            && !Exists(k.activeMatch, user, now) && OneQueueEach(queued, now)
            && reply.NewMatch? && reply.partner != user
            && reserved.locks == k.locks[user := Expiring(m, now + LOCK_TTL)][reply.partner := Expiring(m, now + LOCK_TTL)]
            && reserved.activeMatch == k.activeMatch
  {
    var queued := Requeue(k, user, key, now);
    RequeueFacts(k, user, key, now);
    ReserveKeeps(queued, user, key, lastPartner, m, now);
    ScriptFrame(queued, key, user, m, lastPartner, now);
  }

  lemma ReservedStayQueued(k: Keys, user: UserId, key: QueueKey, lastPartner: UserId, m: MatchId, now: Time)
    returns (partner: Entry)
    requires OneQueueEach(k, now)
    requires Join(k, user, key, lastPartner, m, now, Failed).result.Raised?
    ensures var k' := Join(k, user, key, lastPartner, m, now, Failed).keys;
            && Waits(k, key, partner) && Waits(k', key, partner) && Fresh(partner, now)
            && Waits(k', key, Entry(now, user))
            && partner.id == Reserve(Requeue(k, user, key, now), key, user, m, lastPartner, now).1.partner
  {
    RaisedMeansReserved(k, user, key, lastPartner, m, now);
    var queued := Requeue(k, user, key, now);
    RequeueFacts(k, user, key, now);
    ScriptIsFair(queued, key, user, m, lastPartner, now);
    ScriptFrame(queued, key, user, m, lastPartner, now);
    var reply := Reserve(queued, key, user, m, lastPartner, now).1;
    partner :| partner.id == reply.partner && Candidate(queued, key, partner, user, lastPartner, now);
    assert Waits(queued, key, partner);
  }

  /** A user without a match is told of one exactly while locked. */
  lemma LockedJoin(k: Keys, user: UserId, key: QueueKey, lastPartner: UserId, m: MatchId, now: Time, creation: Creation)
    requires !Exists(k.activeMatch, user, now)
    ensures var r := Join(k, user, key, lastPartner, m, now, creation).result;
            && (Exists(k.locks, user, now) ==> r == AlreadyMatched(k.locks[user].value))
            && (!Exists(k.locks, user, now) ==> !r.AlreadyMatched?)
  {
    hide Requeue, EvictThrough, FirstEligible, Add;
    RequeueSparesLocks(k, user, key, now);
  }

  /** Whichever of the two users retries is told of the match that was never created, exactly until the lock lapses. */
  lemma {:induction false} RetryReportsPhantomMatch(k: Keys, user: UserId, key: QueueKey, lastPartner: UserId,
                                                    m: MatchId, now: Time,
                                                    who: UserId, later: Time, m2: MatchId, again: QueueKey, last2: UserId,
                                                    creation: Creation) returns (partner: Entry)
    requires OneQueueEach(k, now)
    requires Join(k, user, key, lastPartner, m, now, Failed).result.Raised?
    requires now <= later
    ensures Waits(k, key, partner) && Fresh(partner, now) && partner.id != user
    ensures who == user || who == partner.id ==>
              var r := Join(Join(k, user, key, lastPartner, m, now, Failed).keys, who, again, last2, m2, later, creation).result;
              && (r == AlreadyMatched(m) <==> later < now + 10_000)
              && (r.AlreadyMatched? <==> later < now + 10_000)
  {
    RaisedMeansReserved(k, user, key, lastPartner, m, now);
    partner := ReservedStayQueued(k, user, key, lastPartner, m, now);
    assert Placed(k, key, partner, now);
    if who == user || who == partner.id {
      hide Join, Reserve, Requeue, OneQueueEach;
      LockedJoin(Join(k, user, key, lastPartner, m, now, Failed).keys, who, again, last2, m2, later, creation);
    }
  }

  lemma RequeueSparesLocks(k: Keys, user: UserId, key: QueueKey, now: Time)
    ensures Requeue(k, user, key, now).locks == k.locks && Requeue(k, user, key, now).activeMatch == k.activeMatch
  {
  }

  // ---- What other steps do meanwhile ---------------------------------------------------------------

  /** `who` holds the lock of the failed match and has no match. */
  predicate Held(k: Keys, now: Time, who: UserId, m: MatchId, until: Time) {
    who in k.locks && k.locks[who] == Expiring(m, until) && !Exists(k.activeMatch, who, now)
  }

  /** No join touches a locked user, whoever makes it. */
  lemma JoinSparesLocked(k: Keys, user: UserId, key: QueueKey, lastPartner: UserId, m: MatchId, now: Time, creation: Creation,
                         who: UserId, failed: MatchId, until: Time)
    requires Held(k, now, who, failed, until) && now < until
    ensures var j := Join(k, user, key, lastPartner, m, now, creation);
            && Held(j.keys, now, who, failed, until)
            && (j.result.Matched? || j.result.Recovered? ==> j.result.userA != who && j.result.userB != who)
            && (user == who ==> j.result == AlreadyMatched(failed))
  {
    hide Requeue, Reserve;
    RequeueSparesLocks(k, user, key, now);
    var queued := Requeue(k, user, key, now);
    ReserveLocks(queued, key, user, m, lastPartner, now);
    ReserveSparesNotes(queued, key, user, m, lastPartner, now);
    if user == who {
      hide Finalize;
      LockedJoin(k, user, key, lastPartner, m, now, creation);
    }
  }

  /** A join of somebody else leaves the fresh entry of a locked user where it is. */
  lemma JoinSparesEntry(k: Keys, user: UserId, key: QueueKey, lastPartner: UserId, m: MatchId, now: Time, creation: Creation,
                        home: QueueKey, e: Entry)
    requires QueuesSorted(k) && Waits(k, home, e) && Fresh(e, now) && user != e.id && Exists(k.locks, e.id, now)
    ensures Waits(Join(k, user, key, lastPartner, m, now, creation).keys, home, e)
  {
    if !Exists(k.activeMatch, user, now) {
      RequeueSparesOthers(k, user, key, now);
      RequeueSparesLocks(k, user, key, now);
      var queued := Requeue(k, user, key, now);
      ReserveLocks(queued, key, user, m, lastPartner, now);
      ScriptIsFair(queued, key, user, m, lastPartner, now);
      ScriptFrame(queued, key, user, m, lastPartner, now);
      hide Reserve, Requeue, QueuesSorted;
      var (reserved, reply) := Reserve(queued, key, user, m, lastPartner, now);
      assert Waits(reserved, home, e) by {
        assert Waits(queued, home, e);
      }
      if reply.NewMatch? {
        FinalizeEffect(reserved, key, user, reply.partner, m, now);
      }
    }
  }

  lemma RequeueSparesOthers(k: Keys, user: UserId, key: QueueKey, now: Time)
    requires QueuesSorted(k)
    ensures var k' := Requeue(k, user, key, now);
            QueuesSorted(k') && forall other, e :: Waits(k, other, e) && e.id != user ==> Waits(k', other, e)
  {
    if Exists(k.currentQueue, user, now) {
      RemoveEffect(k, k.currentQueue[user].value, user);
    }
  }

  lemma FinalizeEffect(k: Keys, key: QueueKey, a: UserId, b: UserId, m: MatchId, now: Time)
    requires QueuesSorted(k)
    ensures var k' := Finalize(k, key, a, b, m, now);
            QueuesSorted(k') && forall other, e :: Waits(k, other, e) && e.id != a && e.id != b ==> Waits(k', other, e)
  {
    RemoveEffect(k, key, a);
    RemoveEffect(LeaveQueue(k, a, key), key, b);
    assert Finalize(k, key, a, b, m, now).queues == LeaveQueue(LeaveQueue(k, a, key), b, key).queues;
  }

  lemma JoinKeepsSorted(k: Keys, user: UserId, key: QueueKey, lastPartner: UserId, m: MatchId, now: Time, creation: Creation)
    requires QueuesSorted(k)
    ensures QueuesSorted(Join(k, user, key, lastPartner, m, now, creation).keys)
  {
    RequeueSparesOthers(k, user, key, now);
    var queued := Requeue(k, user, key, now);
    ScriptIsFair(queued, key, user, m, lastPartner, now);
    hide Reserve, Requeue, QueuesSorted;
    var (reserved, reply) := Reserve(queued, key, user, m, lastPartner, now);
    if reply.NewMatch? {
      FinalizeEffect(reserved, key, user, reply.partner, m, now);
    }
  }

  // ---- Runs ----------------------------------------------------------------------------------------

  /** A step by which `who` itself joins or leaves a queue. */
  predicate ActsAs(a: Action, who: UserId) { (a.JoinAction? || a.LeaveQueueAction?) && a.user == who }

  /** Sessions stored since `w` do not involve `who`. */
  ghost predicate NoneStoredWith(w: World, t: World, who: UserId) {
    forall x :: x in t.sessions && x !in w.sessions ==> t.sessions[x].userA != who && t.sessions[x].userB != who
  }

  lemma JoinKeepsHeld(w: World, t: World, user: UserId, key: QueueKey, lastPartner: UserId, id: MatchId, creation: Creation,
                      who: UserId, m: MatchId, until: Time)
    requires Held(t.keys, t.now, who, m, until) && NoneStoredWith(w, t, who) && t.now < until
    ensures var x := Joining(t, user, key, lastPartner, id, creation);
            Held(x.keys, x.now, who, m, until) && NoneStoredWith(w, x, who)
  {
    hide Join, Held;
    JoinSparesLocked(t.keys, user, key, lastPartner, id, t.now, creation, who, m, until);
    JoinNamesCaller(t.keys, user, key, lastPartner, id, t.now, creation);
  }

  lemma JoinNamesCaller(k: Keys, user: UserId, key: QueueKey, lastPartner: UserId, m: MatchId, now: Time, creation: Creation)
    ensures var r := Join(k, user, key, lastPartner, m, now, creation).result; r.Matched? ==> r.userA == user
  {
    hide Reserve, Requeue;
  }

  lemma StepKeepsHeld(w: World, t: World, bank: seq<S.Problem>, testing: bool, a: Action, who: UserId, m: MatchId, until: Time)
    requires Held(t.keys, t.now, who, m, until) && NoneStoredWith(w, t, who) && t.now < until
    ensures var x := Perform(t, bank, testing, a); Held(x.keys, x.now, who, m, until) && NoneStoredWith(w, x, who)
  {
    hide Joining, Remove, S.Handle, S.Advance, DurationsOf;
    match a
    case JoinAction(user, key, lastPartner, id, creation) =>
      JoinKeepsHeld(w, t, user, key, lastPartner, id, creation, who, m, until);
    case LeaveQueueAction(user, key) =>
    case RequestAction(id, q, loaded) =>
      if id in t.sessions {
        S.HandleKeepsParties(t.sessions[id], bank, q);
      }
    case PollAction(id) =>
      if id in t.sessions {
        S.AdvanceKeepsContent(t.sessions[id], t.now, DurationsOf(t.sessions[id], testing));
      }
    case TickAction(span) =>
  }

  lemma StepKeepsEntry(t: World, bank: seq<S.Problem>, testing: bool, a: Action, key: QueueKey, e: Entry, m: MatchId, until: Time)
    requires QueuesSorted(t.keys) && Held(t.keys, t.now, e.id, m, until) && t.now < until
    ensures var x := Perform(t, bank, testing, a);
            && QueuesSorted(x.keys)
            && (Waits(t.keys, key, e) && Fresh(e, t.now) && !ActsAs(a, e.id) ==> Waits(x.keys, key, e))
  {
    match a
    case JoinAction(user, other, lastPartner, id, creation) =>
      JoinKeepsSorted(t.keys, user, other, lastPartner, id, t.now, creation);
      if Waits(t.keys, key, e) && Fresh(e, t.now) && user != e.id {
        JoinSparesEntry(t.keys, user, other, lastPartner, id, t.now, creation, key, e);
      }
      hide Join, QueuesSorted;
    case LeaveQueueAction(user, other) => RemoveEffect(t.keys, other, user);
    case RequestAction(id, q, loaded) => hide S.Handle;
    case PollAction(id) => hide S.Advance, DurationsOf;
    case TickAction(span) =>
  }

  lemma StepTakesTime(w: World, bank: seq<S.Problem>, testing: bool, a: Action)
    ensures w.now <= Perform(w, bank, testing, a).now
  {
    hide Join, LeaveQueue, S.Handle, S.Advance;
  }

  lemma {:induction false} RunKeepsHeld(w: World, bank: seq<S.Problem>, testing: bool, more: seq<Action>,
                                        key: QueueKey, e: Entry, m: MatchId, until: Time)
    requires QueuesSorted(w.keys) && Held(w.keys, w.now, e.id, m, until) && Waits(w.keys, key, e)
    requires RunFrom(w, bank, testing, more).now < until
    ensures var t := RunFrom(w, bank, testing, more);
            && QueuesSorted(t.keys) && Held(t.keys, t.now, e.id, m, until) && NoneStoredWith(w, t, e.id)
            && (Fresh(e, t.now) && (forall a :: a in more ==> !ActsAs(a, e.id)) ==> Waits(t.keys, key, e))
  {
    hide Perform, QueuesSorted, Held, NoneStoredWith, Waits, ActsAs;
    if more == [] {
      NothingStored(w, e.id);
    } else {
      var before, a := more[..|more| - 1], more[|more| - 1];
      StepTakesTime(RunFrom(w, bank, testing, before), bank, testing, a);
      RunKeepsHeld(w, bank, testing, before, key, e, m, until);
      var t := RunFrom(w, bank, testing, before);
      StepKeepsHeld(w, t, bank, testing, a, e.id, m, until);
      StepKeepsEntry(t, bank, testing, a, key, e, m, until);
      assert a in more && forall x :: x in before ==> x in more;
    }
  }

  lemma NothingStored(w: World, who: UserId)
    ensures NoneStoredWith(w, w, who)
  {
  }

  /** What ten seconds of a lock mean for its holder, whatever the rest of the service does meanwhile. */
  ghost predicate Recovers(w: World, t: World, e: Entry, key: QueueKey, m: MatchId, until: Time, more: seq<Action>) {
    && !Exists(t.keys.activeMatch, e.id, t.now) && NoneStoredWith(w, t, e.id)
    && (forall other, last, id, c :: Join(t.keys, e.id, other, last, id, t.now, c).result == AlreadyMatched(m))
    && (forall x: Entry, caller, last, at: Time :: x.id == e.id && at >= t.now ==>
          (Eligible(t.keys, x, caller, last, at) <==> at >= until && e.id != caller && e.id != last))
    && (Fresh(e, t.now) && (forall a :: a in more ==> !ActsAs(a, e.id)) ==> Waits(t.keys, key, e))
  }

  lemma HeldRecovers(w: World, t: World, e: Entry, key: QueueKey, m: MatchId, until: Time, more: seq<Action>)
    requires Held(t.keys, t.now, e.id, m, until) && t.now < until && NoneStoredWith(w, t, e.id)
    requires Fresh(e, t.now) && (forall a :: a in more ==> !ActsAs(a, e.id)) ==> Waits(t.keys, key, e)
    ensures Recovers(w, t, e, key, m, until, more)
  {
    hide Join, Waits, ActsAs;
    forall other, last, id, c ensures Join(t.keys, e.id, other, last, id, t.now, c).result == AlreadyMatched(m) {
      LockedJoin(t.keys, e.id, other, last, id, t.now, c);
    }
  }

  /**
   A creation fails after reserving `user` and a partner. For the ten seconds of the lock, whatever
   joins, queue leaves, requests and polls come in between: neither gets a match, a session or a pairing,
   and their own retries report the match that was never created; whoever does not retry or leave keeps
   its place in the queue until it is stale; and with the lapse of the lock, not before, anybody else may
   be paired with them again.
   */
  lemma {:induction false} FailedCreationRecovers(w: World, bank: seq<S.Problem>, testing: bool, user: UserId, key: QueueKey,
                                                  lastPartner: UserId, m: MatchId, more: seq<Action>) returns (partner: Entry)
    requires OneQueueEach(w.keys, w.now)
    requires Join(w.keys, user, key, lastPartner, m, w.now, Failed).result.Raised?
    requires var failed := Perform(w, bank, testing, JoinAction(user, key, lastPartner, m, Failed));
             RunFrom(failed, bank, testing, more).now < w.now + 10_000
    ensures var failed := Perform(w, bank, testing, JoinAction(user, key, lastPartner, m, Failed));
            var t := RunFrom(failed, bank, testing, more);
            && Waits(w.keys, key, partner) && Fresh(partner, w.now) && partner.id != user
            && failed.sessions == w.sessions
            && Recovers(failed, t, partner, key, m, w.now + 10_000, more)
            && Recovers(failed, t, Entry(w.now, user), key, m, w.now + 10_000, more)
  {
    var failed := Perform(w, bank, testing, JoinAction(user, key, lastPartner, m, Failed));
    assert failed == w.(keys := Join(w.keys, user, key, lastPartner, m, w.now, Failed).keys);
    RaisedMeansReserved(w.keys, user, key, lastPartner, m, w.now);
    partner := ReservedStayQueued(w.keys, user, key, lastPartner, m, w.now);
    JoinKeeps(w.keys, user, key, lastPartner, m, w.now, Failed);
    assert Placed(w.keys, key, partner, w.now);
    hide Join, Reserve, Requeue, Perform, RunFrom, Waits, NoneStoredWith, Recovers, QueuesSorted;
    var until, t := w.now + 10_000, RunFrom(failed, bank, testing, more);
    RunKeepsHeld(failed, bank, testing, more, key, partner, m, until);
    RunKeepsHeld(failed, bank, testing, more, key, Entry(w.now, user), m, until);
    HeldRecovers(failed, t, partner, key, m, until, more);
    HeldRecovers(failed, t, Entry(w.now, user), key, m, until, more);
  }
}
