/** A join whose commands run with nothing in between is the join of `Matchmaking`. */
module Refinement {
  import opened Identity
  import opened SortedSets
  import opened Redis
  import opened Matchmaking
  import opened Commands
  import opened Notes
  import Recovery

  /** `count` commands of request `id` and nothing else, at one clock. */
  function Alone(s: State, id: nat, stored: bool, count: nat): State
    decreases count
  {
    if count == 0 then s else Alone(Step(s, Command(id, stored)), id, stored, count - 1)
  }

  /** What one request can change. */
  function With(s: State, id: nat, k: Keys, j: Joiner, sessions: map<MatchId, Pair>): State {
    s.(keys := k, joiners := s.joiners[id := j], sessions := sessions)
  }

  lemma CommandOf(s: State, id: nat, k: Keys, j: Joiner, sessions: map<MatchId, Pair>, stored: bool)
    ensures var (k', j') := Issue(k, j, s.now, stored);
            Step(With(s, id, k, j, sessions), Command(id, stored))
            == With(s, id, k', j', if j.stage.Create? && stored then sessions[j.matchId := Pair(j.user, j.stage.partner)] else sessions)
  {
    hide Issue;
    var (k', j') := Issue(k, j, s.now, stored);
    assert s.joiners[id := j][id := j'] == s.joiners[id := j'];
  }

  lemma {:induction false} FinishedStays(s: State, id: nat, stored: bool, count: nat)
    requires id in s.joiners && s.joiners[id].stage.Finished?
    ensures Alone(s, id, stored, count) == s
    decreases count
  {
    if count > 0 {
      assert s.joiners[id := s.joiners[id]] == s.joiners;
      FinishedStays(s, id, stored, count - 1);
    }
  }

  /** The commands of the finalization. */
  lemma FinalizedAlone(s: State, id: nat, k: Keys, j: Joiner, sessions: map<MatchId, Pair>, stored: bool, b: UserId)
    requires j.stage == DeleteLocks(b)
    ensures Alone(With(s, id, k, j, sessions), id, stored, 4)
         == With(s, id, Finalize(k, j.key, j.user, b, j.matchId, s.now), j.(stage := Finished(Matched(j.matchId, j.user, b))), sessions)
  {
    hide With, Step, Remove;
    var k1 := k.(locks := k.locks - {j.user, b});
    var k2 := WithQueue(k1, j.key, Remove(Remove(Queue(k1, j.key), j.user), b));
    var k3 := k2.(activeMatch := k2.activeMatch[j.user := Expiring(j.matchId, s.now + MATCH_TTL)]);
    CommandOf(s, id, k, j, sessions, stored);
    CommandOf(s, id, k1, j.(stage := Unqueue(b)), sessions, stored);
    CommandOf(s, id, k2, j.(stage := BindCaller(b)), sessions, stored);
    CommandOf(s, id, k3, j.(stage := BindPartner(b)), sessions, stored);
    var t := With(s, id, k, j, sessions);
    Unroll4(t, id, stored);
  }

  lemma Unroll4(s: State, id: nat, stored: bool)
    ensures var act := Command(id, stored);
            Alone(s, id, stored, 4) == Step(Step(Step(Step(s, act), act), act), act)
  {
    hide Step;
    var act := Command(id, stored);
    var s1 := Step(s, act);
    var s2 := Step(s1, act);
    assert Alone(s2, id, stored, 2) == Alone(Step(s2, act), id, stored, 1);
  }

  function Creating(stored: bool): Creation { if stored then Stored else Failed }

  /** The request has finished as the join `j`, and nothing else has changed. */
  predicate Completed(s: State, id: nat, t: State, j: Joined, m: MatchId, user: UserId) {
    && id in t.joiners && t.joiners[id].stage == Finished(j.result)
    && t == With(s, id, j.keys, t.joiners[id], if j.result.Matched? then s.sessions[m := Pair(user, j.result.userB)] else s.sessions)
  }

  /** From the script on: at most six commands. */
  lemma ScriptAlone(s: State, id: nat, k: Keys, j: Joiner, stored: bool, count: nat)
    requires j.stage == RunScript && count >= 6
    ensures Completed(s, id, Alone(With(s, id, k, j, s.sessions), id, stored, count),
                      Reserving(k, j.user, j.key, j.lastPartner, j.matchId, s.now, Creating(stored)), j.matchId, j.user)
  {
    hide Reserve, Step, Finalize;
    var (reserved, reply) := Reserve(k, j.key, j.user, j.matchId, j.lastPartner, s.now);
    var scripted := j.(stage := AfterScript(reply), reservedAt := s.now);
    CommandOf(s, id, k, j, s.sessions, stored);
    if !reply.NewMatch? {
      FinishedStays(With(s, id, reserved, scripted, s.sessions), id, stored, count - 1);
    } else {
      CommandOf(s, id, reserved, scripted, s.sessions, stored);
      if !stored {
        FinishedStays(With(s, id, reserved, scripted.(stage := Finished(Raised)), s.sessions), id, stored, count - 2);
      } else {
        var sessions := s.sessions[j.matchId := Pair(j.user, reply.partner)];
        var unlocking := scripted.(stage := DeleteLocks(reply.partner));
        var t := With(s, id, reserved, unlocking, sessions);
        FinalizedAlone(s, id, reserved, unlocking, sessions, stored, reply.partner);
        AloneTwice(t, id, stored, 4, count - 6);
        FinishedStays(Alone(t, id, stored, 4), id, stored, count - 6);
      }
    }
  }

  lemma {:induction false} AloneTwice(s: State, id: nat, stored: bool, m: nat, n: nat)
    ensures Alone(s, id, stored, m + n) == Alone(Alone(s, id, stored, m), id, stored, n)
    decreases m
  {
    hide Step;
    if m > 0 {
      AloneTwice(Step(s, Command(id, stored)), id, stored, m - 1, n);
    }
  }

  /** The check and the change of queues come to the same as `Requeue`. */
  lemma RequeuedAlone(s: State, id: nat, j: Joiner, stored: bool)
    requires j.stage == CheckMatch && !Exists(s.keys.activeMatch, j.user, s.now)
    ensures exists n | 3 <= n <= 4 ::
              Alone(With(s, id, s.keys, j, s.sessions), id, stored, n)
              == With(s, id, Requeue(s.keys, j.user, j.key, s.now), j.(stage := RunScript), s.sessions)
  {
    hide Step, With, Remove;
    var k := s.keys;
    var t := With(s, id, k, j, s.sessions);
    CommandOf(s, id, k, j, s.sessions, stored);
    CommandOf(s, id, k, j.(stage := ReadQueue), s.sessions, stored);
    Unroll4(t, id, stored);
    AloneTwice(t, id, stored, 3, 1);
    Unroll3(t, id, stored);
    if Exists(k.currentQueue, j.user, s.now) && k.currentQueue[j.user].value != j.key {
      var previous := k.currentQueue[j.user].value;
      var dropped := WithQueue(k, previous, Remove(Queue(k, previous), j.user));
      CommandOf(s, id, k, j.(stage := DropOld(previous)), s.sessions, stored);
      CommandOf(s, id, dropped, j.(stage := NoteQueue), s.sessions, stored);
      assert Alone(t, id, stored, 4) == With(s, id, Requeue(k, j.user, j.key, s.now), j.(stage := RunScript), s.sessions);
    } else {
      CommandOf(s, id, k, j.(stage := NoteQueue), s.sessions, stored);
      assert Alone(t, id, stored, 3) == With(s, id, Requeue(k, j.user, j.key, s.now), j.(stage := RunScript), s.sessions);
    }
  }

  lemma Unroll3(s: State, id: nat, stored: bool)
    ensures var act := Command(id, stored); Alone(s, id, stored, 3) == Step(Step(Step(s, act), act), act)
  {
    hide Step;
    var act := Command(id, stored);
    var s1 := Step(s, act);
    assert Alone(s1, id, stored, 2) == Alone(Step(s1, act), id, stored, 1);
  }

  lemma MatchedAlone(s: State, id: nat, r: Joiner, stored: bool, count: nat)
    requires r.stage == CheckMatch && Exists(s.keys.activeMatch, r.user, s.now) && count >= 1
    ensures Completed(s, id, Alone(With(s, id, s.keys, r, s.sessions), id, stored, count),
                      Joined(s.keys, AlreadyMatched(s.keys.activeMatch[r.user].value)), r.matchId, r.user)
  {
    hide Step;
    CommandOf(s, id, s.keys, r, s.sessions, stored);
    FinishedStays(Step(With(s, id, s.keys, r, s.sessions), Command(id, stored)), id, stored, count - 1);
  }

  lemma UnmatchedAlone(s: State, id: nat, r: Joiner, stored: bool, count: nat)
    requires r.stage == CheckMatch && !Exists(s.keys.activeMatch, r.user, s.now) && count >= 10
    ensures Completed(s, id, Alone(With(s, id, s.keys, r, s.sessions), id, stored, count),
                      Reserving(Requeue(s.keys, r.user, r.key, s.now), r.user, r.key, r.lastPartner, r.matchId, s.now, Creating(stored)),
                      r.matchId, r.user)
  {
    hide Alone, Step, Requeue, Reserving, With, Completed;
    RequeuedAlone(s, id, r, stored);
    var t, queued := With(s, id, s.keys, r, s.sessions), Requeue(s.keys, r.user, r.key, s.now);
    var n :| 3 <= n <= 4 && Alone(t, id, stored, n) == With(s, id, queued, r.(stage := RunScript), s.sessions);
    AloneTwice(t, id, stored, n, count - n);
    ScriptAlone(s, id, queued, r.(stage := RunScript), stored, count - n);
  }

  /**
   In every state: a request whose ten commands run alone leaves the keys of the join of `Matchmaking`,
   finishes with its result, and stores a session exactly if that is a match.
   */
  lemma {:induction false} LoneCommandsJoin(s: State, id: nat, user: UserId, key: QueueKey, lastPartner: UserId, m: MatchId,
                                            stored: bool)
    ensures var j := Join(s.keys, user, key, lastPartner, m, s.now, Creating(stored));
            var t := Alone(Step(s, Arrive(id, user, key, lastPartner, m)), id, stored, 10);
            && t.keys == j.keys && t.now == s.now
            && id in t.joiners && t.joiners[id].stage == Finished(j.result) && t.joiners == s.joiners[id := t.joiners[id]]
            && t.sessions == if j.result.Matched? then s.sessions[m := Pair(user, j.result.userB)] else s.sessions
  {
    hide Alone, Requeue, Reserving, Issue;
    var r := Joiner(user, key, lastPartner, m, CheckMatch, s.now);
    if Exists(s.keys.activeMatch, user, s.now) {
      MatchedAlone(s, id, r, stored, 10);
    } else {
      UnmatchedAlone(s, id, r, stored, 10);
    }
  }

  // ---- What else can happen between the commands ---------------------------------------------------

  /** A queue leave between two commands takes the user out of that queue and changes nothing else. */
  lemma LeavingLeaves(s: State, user: UserId, key: QueueKey)
    requires QueuesSorted(s.keys)
    ensures var t := Step(s, QueueLeave(user, key));
            t == s.(keys := t.keys) && QueuesSorted(t.keys) && Left(s.keys, t.keys, user, key)
  {
    RemoveEffect(s.keys, key, user);
  }

  /**
   The end of a session frees both of its users and nobody else and changes no running request, so that a
   later request of either, run alone, searches anew instead of reporting the finished match.
   */
  lemma {:induction false} EndingFrees(s: State, m: MatchId, id: nat, user: UserId, key: QueueKey, lastPartner: UserId, next: MatchId,
                                       stored: bool)
    requires m in s.sessions
    ensures var t := Step(s, SessionEnd(m));
            && t == s.(keys := t.keys, sessions := s.sessions - {m})
            && OnlyFreed(s.keys, t.keys, s.sessions[m].a, s.sessions[m].b)
            && ((user == s.sessions[m].a || user == s.sessions[m].b) && !Exists(s.keys.locks, user, s.now) ==>
                  var done := Alone(Step(t, Arrive(id, user, key, lastPartner, next)), id, stored, 10);
                  && id in done.joiners && done.joiners[id].stage.Finished? && !done.joiners[id].stage.result.AlreadyMatched?)
  {
    hide Alone, Join;
    var t := Step(s, SessionEnd(m));
    LoneCommandsJoin(t, id, user, key, lastPartner, next, stored);
    if user == s.sessions[m].a || user == s.sessions[m].b {
      Recovery.LockedJoin(t.keys, user, key, lastPartner, next, t.now, Creating(stored));
    }
  }
}
