/** What a live match note means: the converse of `MatchRuns.NoDoubleBooking`, and what the end of a session leaves behind. */
module Notes {
  import opened Wrappers
  import opened Identity
  import opened Redis
  import opened Matchmaking
  import opened MatchRuns
  import S = Sessions
  import Lifecycle
  import Recovery

  /** Matches whose notes may outlive them or never had a session: refused creations, and leaves that could not read the participants. */
  function ExcusedBy(w: World, a: Action): set<MatchId> {
    match a
    case JoinAction(_, _, _, m, creation) => if creation == Refused then {m} else {}
    case RequestAction(m, q, loaded) => if q.Leave? && !loaded && m !in w.guests then {m} else {}
    case _ => {}
  }

  function Excused(bank: seq<S.Problem>, testing: bool, actions: seq<Action>): set<MatchId>
    decreases |actions|
  {
    if actions == [] then {} else
    var before, a := actions[..|actions| - 1], actions[|actions| - 1];
    Excused(bank, testing, before) + ExcusedBy(Run(bank, testing, before), a)
  }

  /** The note of `u` names an unfinished session of its own and lives as long as that may. */
  predicate TrueNote(w: World, u: UserId, note: Expiring<MatchId>) {
    && Unfinished(w, note.value)
    && (u == w.sessions[note.value].userA || u == w.sessions[note.value].userB)
    && note.expires == w.sessions[note.value].createdAt + 86_400_000
  }

  ghost predicate NotesTrue(w: World, excused: set<MatchId>) {
    forall u :: Exists(w.keys.activeMatch, u, w.now) ==>
      w.keys.activeMatch[u].value in excused || TrueNote(w, u, w.keys.activeMatch[u])
  }

  lemma JoinNotes(k: Keys, user: UserId, key: QueueKey, lastPartner: UserId, m: MatchId, now: Time, creation: Creation)
    ensures var j := Join(k, user, key, lastPartner, m, now, creation);
            && (j.result.Matched? || j.result.Recovered? ==>
                  j.keys.activeMatch
                  == k.activeMatch[user := Expiring(m, now + MATCH_TTL)][j.result.userB := Expiring(m, now + MATCH_TTL)])
            && (!(j.result.Matched? || j.result.Recovered?) ==> j.keys.activeMatch == k.activeMatch)
            && (j.result.Recovered? ==> creation == Refused)
  {
    hide Requeue, Reserve;
    Recovery.RequeueSparesLocks(k, user, key, now);
    ReserveSparesNotes(Requeue(k, user, key, now), key, user, m, lastPartner, now);
  }

  lemma JoiningNotes(w: World, user: UserId, key: QueueKey, lastPartner: UserId, m: MatchId, creation: Creation, excused: set<MatchId>)
    requires NotesTrue(w, excused) && m !in w.sessions
    ensures NotesTrue(Joining(w, user, key, lastPartner, m, creation), excused + if creation == Refused then {m} else {})
  {
    hide Join, S.NewSession;
    JoinNotes(w.keys, user, key, lastPartner, m, w.now, creation);
    var j := Join(w.keys, user, key, lastPartner, m, w.now, creation);
    var t := Joining(w, user, key, lastPartner, m, creation);
    if j.result.Matched? {
      NewSessionOpen(user, j.result.userB, key, w.now);
      Recovery.JoinNamesCaller(w.keys, user, key, lastPartner, m, w.now, creation);
    }
    forall u | Exists(t.keys.activeMatch, u, t.now)
      ensures t.keys.activeMatch[u].value in excused + (if creation == Refused then {m} else {})
              || TrueNote(t, u, t.keys.activeMatch[u])
    {
    }
  }

  /** A request or a poll that ends a session deletes the notes of both participants, and no others. */
  lemma ServingNotes(w: World, bank: seq<S.Problem>, m: MatchId, q: S.Request, loaded: bool, excused: set<MatchId>)
    requires NotesTrue(w, excused)
    ensures NotesTrue(Serving(w, bank, m, q, loaded), excused + ExcusedBy(w, RequestAction(m, q, loaded)))
  {
    if m in w.sessions {
      S.HandleKeepsParties(w.sessions[m], bank, q);
      Lifecycle.AskKeepsClock(w.sessions[m], bank, S.Durations(0, 0, 0), q);
    }
    hide S.Handle;
    var t := Serving(w, bank, m, q, loaded);
    forall u | Exists(t.keys.activeMatch, u, t.now)
      ensures t.keys.activeMatch[u].value in excused + ExcusedBy(w, RequestAction(m, q, loaded))
              || TrueNote(t, u, t.keys.activeMatch[u])
    {
      assert Exists(w.keys.activeMatch, u, w.now);
    }
  }

  lemma PollingNotes(w: World, testing: bool, m: MatchId, excused: set<MatchId>)
    requires NotesTrue(w, excused)
    ensures NotesTrue(Polling(w, testing, m), excused)
  {
    if m in w.sessions {
      SessionEffect(w.sessions[m], [], S.Leave, w.now, DurationsOf(w.sessions[m], testing));
    }
    hide S.Advance, DurationsOf;
    var t := Polling(w, testing, m);
    forall u | Exists(t.keys.activeMatch, u, t.now)
      ensures t.keys.activeMatch[u].value in excused || TrueNote(t, u, t.keys.activeMatch[u])
    {
      assert Exists(w.keys.activeMatch, u, w.now);
    }
  }

  lemma LeavingKeepsNotes(k: Keys, user: UserId, key: QueueKey)
    ensures LeaveQueue(k, user, key).activeMatch == k.activeMatch
  {
  }

  lemma PerformNotes(w: World, bank: seq<S.Problem>, testing: bool, a: Action, excused: set<MatchId>)
    requires NotesTrue(w, excused) && NewId(w, a)
    ensures NotesTrue(Perform(w, bank, testing, a), excused + ExcusedBy(w, a))
  {
    match a
    case JoinAction(user, key, lastPartner, m, creation) =>
      JoiningNotes(w, user, key, lastPartner, m, creation, excused);
      hide Joining, NotesTrue;
    case LeaveQueueAction(user, key) =>
      LeavingKeepsNotes(w.keys, user, key);
      hide LeaveQueue;
    case RequestAction(m, q, loaded) =>
      ServingNotes(w, bank, m, q, loaded, excused);
      hide Serving, NotesTrue;
    case PollAction(m) =>
      PollingNotes(w, testing, m, excused);
      hide Polling, NotesTrue;
      assert excused + {} == excused;
    case TickAction(span) =>
  }

  /**
   In every run: a live match note names an unfinished session of its own user, and expires a day after
   that was created, unless it was left by a refused creation or by a leave that could not read the participants.
   */
  lemma {:induction false} NotesAreTrue(bank: seq<S.Problem>, testing: bool, actions: seq<Action>)
    requires NewIdsFrom(EMPTY, bank, testing, actions)
    ensures NotesTrue(Run(bank, testing, actions), Excused(bank, testing, actions))
  {
    if actions != [] {
      var before := actions[..|actions| - 1];
      NotesAreTrue(bank, testing, before);
      PerformNotes(Run(bank, testing, before), bank, testing, actions[|actions| - 1], Excused(bank, testing, before));
    }
  }

  /** Both directions: as long as sessions stay young, a user's status is a match exactly during its session. */
  lemma {:induction false} StatusIff(bank: seq<S.Problem>, testing: bool, actions: seq<Action>, u: UserId, m: MatchId)
    requires YoungRun(bank, testing, actions) && m !in Excused(bank, testing, actions)
    ensures var w := Run(bank, testing, actions);
            Status(w.keys, u, w.now) == Some(m)
            <==> Unfinished(w, m) && (u == w.sessions[m].userA || u == w.sessions[m].userB)
  {
    YoungIsNew(bank, testing, actions);
    NotesAreTrue(bank, testing, actions);
    NoDoubleBooking(bank, testing, actions, m);
    hide Run, YoungRun, Excused;
  }

  lemma {:induction false} YoungIsNew(bank: seq<S.Problem>, testing: bool, actions: seq<Action>)
    requires YoungRun(bank, testing, actions)
    ensures NewIdsFrom(EMPTY, bank, testing, actions)
  {
    if actions != [] {
      YoungIsNew(bank, testing, actions[..|actions| - 1]);
    }
  }

  // ---- The end of a session ------------------------------------------------------------------------

  /** Nothing in the keys holds the user back. */
  predicate Freed(k: Keys, u: UserId) { u !in k.activeMatch && u !in k.currentQueue }

  /** The keys are those before, except that `a` and `b` are freed. */
  ghost predicate OnlyFreed(k: Keys, k': Keys, a: UserId, b: UserId) {
    && Freed(k', a) && Freed(k', b) && k'.queues == k.queues && k'.locks == k.locks
    && (forall u :: u != a && u != b ==>
          && (u in k'.activeMatch <==> u in k.activeMatch) && (u in k.activeMatch ==> k'.activeMatch[u] == k.activeMatch[u])
          && (u in k'.currentQueue <==> u in k.currentQueue) && (u in k.currentQueue ==> k'.currentQueue[u] == k.currentQueue[u]))
  }

  /** Exactly the end of a session frees its participants, both of them, so that their next joins search anew. */
  lemma {:induction false} EndFreesBoth(w: World, bank: seq<S.Problem>, testing: bool, a: Action, m: MatchId)
    requires Unfinished(w, m) && (a.PollAction? || a.RequestAction?) && a.matchId == m && m !in ExcusedBy(w, a)
    ensures var s, t := w.sessions[m], Perform(w, bank, testing, a);
            && (S.Terminal(t.sessions[m].status) ==>
                  && OnlyFreed(w.keys, t.keys, s.userA, s.userB)
                  && (forall u, key, last, id, c :: (u == s.userA || u == s.userB) && !Exists(t.keys.locks, u, t.now) ==>
                        !Join(t.keys, u, key, last, id, t.now, c).result.AlreadyMatched?))
            && (!S.Terminal(t.sessions[m].status) ==> t.keys == w.keys)
  {
    SessionEffect(w.sessions[m], bank, if a.RequestAction? then a.request else S.Leave, w.now, DurationsOf(w.sessions[m], testing));
    if a.RequestAction? {
      Lifecycle.AskKeepsClock(w.sessions[m], bank, S.Durations(0, 0, 0), a.request);
    }
    hide S.Handle, S.Advance, DurationsOf, Join;
    var t := Perform(w, bank, testing, a);
    if S.Terminal(t.sessions[m].status) {
      forall u, key, last, id, c | (u == w.sessions[m].userA || u == w.sessions[m].userB) && !Exists(t.keys.locks, u, t.now)
        ensures !Join(t.keys, u, key, last, id, t.now, c).result.AlreadyMatched?
      {
        Recovery.LockedJoin(t.keys, u, key, last, id, t.now, c);
      }
    }
  }
}
