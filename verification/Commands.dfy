/**
 Joins taken apart into single Redis commands. Any number of requests run at once; a step is one command
 of one of them, so other requests come between its check, its script and its finalization.
 */
module Commands {
  import opened Identity
  import opened SortedSets
  import opened Redis
  import opened Matchmaking

  /** The next thing a join does. */
  datatype Stage =
    | CheckMatch
    | ReadQueue
    | DropOld(previous: QueueKey)
    | NoteQueue
    | RunScript
    | Create(partner: UserId)
    | DeleteLocks(partner: UserId)
    | Unqueue(partner: UserId)
    | BindCaller(partner: UserId)
    | BindPartner(partner: UserId)
    | Finished(result: JoinResult)

  datatype Joiner = Joiner(
    user: UserId,
    key: QueueKey,
    lastPartner: UserId,
    matchId: MatchId,
    stage: Stage,
    reservedAt: Time)

  datatype Pair = Pair(a: UserId, b: UserId)

  datatype State = State(now: Time, keys: Keys, joiners: map<nat, Joiner>, sessions: map<MatchId, Pair>)

  const IDLE := State(0, Keys(map[], map[], map[], map[]), map[], map[])

  datatype Act =
    | Arrive(id: nat, user: UserId, key: QueueKey, lastPartner: UserId, matchId: MatchId)
    | Command(id: nat, stored: bool)
    | QueueLeave(user: UserId, key: QueueKey)
    | SessionEnd(matchId: MatchId)
    | Clock(span: Time)

  function AfterScript(reply: ScriptReply): Stage {
    match reply
    case Nil => Finished(Queued)
    case Locked(other) => Finished(AlreadyMatched(other))
    case NewMatch(partner, _) => Create(partner)
  }

  function Issue(k: Keys, j: Joiner, now: Time, stored: bool): (Keys, Joiner) {
    match j.stage
    case CheckMatch =>
      (k, j.(stage := if Exists(k.activeMatch, j.user, now) then Finished(AlreadyMatched(k.activeMatch[j.user].value))
                      else ReadQueue))
    case ReadQueue =>
      (k, j.(stage := if Exists(k.currentQueue, j.user, now) && k.currentQueue[j.user].value != j.key
                      then DropOld(k.currentQueue[j.user].value) else NoteQueue))
    case DropOld(previous) => (WithQueue(k, previous, Remove(Queue(k, previous), j.user)), j.(stage := NoteQueue))
    case NoteQueue =>
      (k.(currentQueue := k.currentQueue[j.user := Expiring(j.key, now + QUEUE_TTL)]), j.(stage := RunScript))
    case RunScript =>
      var (k', reply) := Reserve(k, j.key, j.user, j.matchId, j.lastPartner, now);
      (k', j.(stage := AfterScript(reply), reservedAt := now))
    case Create(b) => (k, j.(stage := if stored then DeleteLocks(b) else Finished(Raised)))
    case DeleteLocks(b) => (k.(locks := k.locks - {j.user, b}), j.(stage := Unqueue(b)))
    case Unqueue(b) => (WithQueue(k, j.key, Remove(Remove(Queue(k, j.key), j.user), b)), j.(stage := BindCaller(b)))
    case BindCaller(b) =>
      (k.(activeMatch := k.activeMatch[j.user := Expiring(j.matchId, now + MATCH_TTL)]), j.(stage := BindPartner(b)))
    case BindPartner(b) =>
      (k.(activeMatch := k.activeMatch[b := Expiring(j.matchId, now + MATCH_TTL)]), j.(stage := Finished(Matched(j.matchId, j.user, b))))
    case Finished(_) => (k, j)
  }

  function Step(s: State, act: Act): State {
    match act
    case Arrive(id, user, key, lastPartner, m) =>
      s.(joiners := s.joiners[id := Joiner(user, key, lastPartner, m, CheckMatch, s.now)])
    case Command(id, stored) =>
      if id !in s.joiners then s else
      var j := s.joiners[id];
      var (k, j') := Issue(s.keys, j, s.now, stored);
      s.(keys := k, joiners := s.joiners[id := j'],
         sessions := if j.stage.Create? && stored then s.sessions[j.matchId := Pair(j.user, j.stage.partner)] else s.sessions)
    case QueueLeave(user, key) => s.(keys := LeaveQueue(s.keys, user, key))
    case SessionEnd(m) =>
      if m !in s.sessions then s
      else s.(keys := Forget(s.keys, s.sessions[m].a, s.sessions[m].b), sessions := s.sessions - {m})
    case Clock(span) => s.(now := s.now + span)
  }

  function Exec(acts: seq<Act>): State
    decreases |acts|
  {
    if acts == [] then IDLE else Step(Exec(acts[..|acts| - 1]), acts[|acts| - 1])
  }

  /** A pair is reserved from the script until its locks are deleted. */
  predicate Outstanding(j: Joiner) { j.stage.Create? || j.stage.DeleteLocks? }

  /** Requests and match ids are new, and every outstanding reservation is finalized within its lock. */
  ghost predicate Timely(s: State, act: Act) {
    match act
    case Arrive(id, _, _, _, m) => id !in s.joiners && forall i :: i in s.joiners ==> s.joiners[i].matchId != m
    case Clock(span) =>
      forall i :: i in s.joiners && Outstanding(s.joiners[i]) ==> s.now + span < s.joiners[i].reservedAt + LOCK_TTL
    case _ => true
  }

  ghost predicate TimelyRun(acts: seq<Act>)
    decreases |acts|
  {
    acts == [] || (TimelyRun(acts[..|acts| - 1]) && Timely(Exec(acts[..|acts| - 1]), acts[|acts| - 1]))
  }

  predicate Holds(k: Keys, j: Joiner, u: UserId) {
    u in k.locks && k.locks[u] == Expiring(j.matchId, j.reservedAt + LOCK_TTL)
  }

  ghost predicate Reserved(s: State, id: nat)
    requires id in s.joiners
  {
    var j := s.joiners[id];
    Outstanding(j) ==>
      && j.stage.partner != j.user && s.now < j.reservedAt + LOCK_TTL
      && Holds(s.keys, j, j.user) && Holds(s.keys, j, j.stage.partner)
  }

  ghost predicate Exclusive(s: State) {
    && (forall i, j :: i in s.joiners && j in s.joiners && s.joiners[i].matchId == s.joiners[j].matchId ==> i == j)
    && (forall i :: i in s.joiners ==> Reserved(s, i))
  }

  /** New locks go to users who hold none. */
  lemma StillHolds(k: Keys, k': Keys, r: Joiner, u: UserId, now: Time, a: UserId, b: UserId, lock: Expiring<MatchId>)
    requires Holds(k, r, u) && now < r.reservedAt + LOCK_TTL
    requires k'.locks == k.locks ||
             (k'.locks == k.locks[a := lock][b := lock] && !Exists(k.locks, a, now) && !Exists(k.locks, b, now))
    ensures Holds(k', r, u)
  {
  }

  lemma ScriptKeeps(s: State, id: nat, stored: bool)
    requires Exclusive(s) && id in s.joiners && s.joiners[id].stage.RunScript?
    ensures Exclusive(Step(s, Command(id, stored)))
  {
    var j := s.joiners[id];
    var t := Step(s, Command(id, stored));
    var (k, reply) := Reserve(s.keys, j.key, j.user, j.matchId, j.lastPartner, s.now);
    assert t.keys == k && t.now == s.now;
    assert t.joiners == s.joiners[id := j.(stage := AfterScript(reply), reservedAt := s.now)];
    ReserveLocks(s.keys, j.key, j.user, j.matchId, j.lastPartner, s.now);
    hide Reserve, Step, Exists;
    forall i | i in t.joiners ensures Reserved(t, i) {
      if i != id {
        assert Reserved(s, i);
        hide Holds;
        var r := s.joiners[i];
        if Outstanding(r) {
          var b := if reply.NewMatch? then reply.partner else j.user;
          var lock := Expiring(j.matchId, s.now + LOCK_TTL);
          StillHolds(s.keys, k, r, r.user, s.now, j.user, b, lock);
          StillHolds(s.keys, k, r, r.stage.partner, s.now, j.user, b, lock);
        }
      }
    }
  }

  lemma DeleteKeeps(s: State, id: nat, stored: bool)
    requires Exclusive(s) && id in s.joiners && s.joiners[id].stage.DeleteLocks?
    ensures Exclusive(Step(s, Command(id, stored)))
  {
    var t := Step(s, Command(id, stored));
    assert Reserved(s, id);
    forall i | i in t.joiners ensures Reserved(t, i) {
      assert Reserved(s, i);
    }
  }

  lemma OtherCommands(k: Keys, j: Joiner, now: Time, stored: bool)
    requires !j.stage.RunScript? && !j.stage.DeleteLocks?
    ensures var (k', j') := Issue(k, j, now, stored);
            && k'.locks == k.locks && j' == j.(stage := j'.stage)
            && (Outstanding(j') ==> Outstanding(j) && j'.stage.partner == j.stage.partner)
  {
  }

  lemma OtherKeeps(s: State, act: Act)
    requires Exclusive(s) && Timely(s, act)
    requires act.Command? && act.id in s.joiners ==> !s.joiners[act.id].stage.RunScript? && !s.joiners[act.id].stage.DeleteLocks?
    ensures Exclusive(Step(s, act))
  {
    if act.Command? && act.id in s.joiners {
      OtherCommands(s.keys, s.joiners[act.id], s.now, act.stored);
    }
    hide Issue, LeaveQueue;
    var t := Step(s, act);
    assert t.keys.locks == s.keys.locks by {
      if act.QueueLeave? {
        LeavingKeepsLocks(s.keys, act.user, act.key);
      }
    }
    forall i | i in t.joiners ensures Reserved(t, i) {
      if i in s.joiners {
        assert Reserved(s, i);
      }
    }
  }

  lemma LeavingKeepsLocks(k: Keys, user: UserId, key: QueueKey)
    ensures LeaveQueue(k, user, key).locks == k.locks
  {
  }

  lemma StepKeepsExclusive(s: State, act: Act)
    requires Exclusive(s) && Timely(s, act)
    ensures Exclusive(Step(s, act))
  {
    if act.Command? && act.id in s.joiners && s.joiners[act.id].stage.RunScript? {
      ScriptKeeps(s, act.id, act.stored);
    } else if act.Command? && act.id in s.joiners && s.joiners[act.id].stage.DeleteLocks? {
      DeleteKeeps(s, act.id, act.stored);
    } else {
      OtherKeeps(s, act);
    }
  }

  lemma {:induction false} AlwaysExclusive(acts: seq<Act>)
    requires TimelyRun(acts)
    ensures Exclusive(Exec(acts))
  {
    if acts != [] {
      AlwaysExclusive(acts[..|acts| - 1]);
      StepKeepsExclusive(Exec(acts[..|acts| - 1]), acts[|acts| - 1]);
    }
  }

  /**
   Reservation exclusivity: however the commands of any number of joins interleave, outstanding
   reservations share no user, and both users of each hold a live lock with exactly its match id.
   */
  lemma {:induction false} ReservationsAreExclusive(acts: seq<Act>, i: nat)
    requires TimelyRun(acts) && i in Exec(acts).joiners && Outstanding(Exec(acts).joiners[i])
    ensures var s := Exec(acts);
            var r := s.joiners[i];
            && r.user != r.stage.partner
            && Exists(s.keys.locks, r.user, s.now) && s.keys.locks[r.user].value == r.matchId
            && Exists(s.keys.locks, r.stage.partner, s.now) && s.keys.locks[r.stage.partner].value == r.matchId
            && forall j :: j in s.joiners && j != i && Outstanding(s.joiners[j]) ==>
                 {r.user, r.stage.partner} !! {s.joiners[j].user, s.joiners[j].stage.partner}
  {
    AlwaysExclusive(acts);
    var s := Exec(acts);
    assert Reserved(s, i);
    forall j | j in s.joiners && j != i && Outstanding(s.joiners[j])
      ensures {s.joiners[i].user, s.joiners[i].stage.partner} !! {s.joiners[j].user, s.joiners[j].stage.partner}
    {
      assert Reserved(s, j);
    }
  }
}
