/**
 Whole runs of the service, one request, poll or clock step at a time: joins, queue leaves, every
 session request and the poll loops of all sessions.
 */
module MatchRuns {
  import opened Wrappers
  import opened Identity
  import opened SortedSets
  import opened Redis
  import opened Matchmaking
  import S = Sessions
  import Lifecycle
  import Registered
  import Streaks

  /** One interview credited to one participant. */
  datatype Credit = Credit(user: UserId, matchId: MatchId, day: Streaks.Day)

  datatype World = World(
    now: Time,
    keys: Keys,
    sessions: map<MatchId, S.Session>,
    guests: set<MatchId>,            // which of them are guest sessions
    polled: map<MatchId, Time>,      // when each session's loop last ran
    credits: seq<Credit>)            // every interview check-in recorded so far

  const EMPTY := World(0, Keys(map[], map[], map[], map[]), map[], {}, map[], [])

  datatype Action =
    | JoinAction(user: UserId, key: QueueKey, lastPartner: UserId, matchId: MatchId, creation: Creation)
    | LeaveQueueAction(user: UserId, key: QueueKey)
    | RequestAction(matchId: MatchId, request: S.Request, loaded: bool)
    | PollAction(matchId: MatchId)
    | TickAction(span: Time)

  function DurationsOf(s: S.Session, testing: bool): S.Durations { S.ModeDurations(s.mode, testing) }

  function Joining(w: World, user: UserId, key: QueueKey, lastPartner: UserId, m: MatchId, creation: Creation): World {
    var j := Join(w.keys, user, key, lastPartner, m, w.now, creation);
    if !j.result.Matched? then w.(keys := j.keys)
    else w.(keys := j.keys,
            sessions := w.sessions[m := S.NewSession(user, j.result.userB, key.room, key.mode, w.now)],
            guests := if key.accountType == "GUEST" then w.guests + {m} else w.guests,
            polled := w.polled[m := w.now])
  }

  /** A guest session lives in a hash that expires together with its match notes. */
  predicate Gone(w: World, m: MatchId) {
    m in w.guests && m in w.sessions && w.now >= w.sessions[m].createdAt + MATCH_TTL
  }

  /** The keys of the participants go when the session ends; a registered leave may fail to reach them. */
  function Serving(w: World, bank: seq<S.Problem>, m: MatchId, q: S.Request, loaded: bool): World {
    if m !in w.sessions || Gone(w, m) then w else
    var s := w.sessions[m];
    var t := S.Handle(s, bank, q).session;
    w.(sessions := w.sessions[m := t],
       keys := if S.Terminal(t.status) && !S.Terminal(s.status) && (m in w.guests || loaded)
               then Forget(w.keys, s.userA, s.userB) else w.keys)
  }

  function Polling(w: World, testing: bool, m: MatchId): World {
    if m !in w.sessions || Gone(w, m) then w else
    var s := w.sessions[m];
    var t := S.Advance(s, w.now, DurationsOf(s, testing));
    var done := t.status.Completed? && !s.status.Completed?;
    var day := Registered.DayOf(w.now);
    w.(sessions := w.sessions[m := t],
       polled := w.polled[m := w.now],
       keys := if done then Forget(w.keys, s.userA, s.userB) else w.keys,
       credits := if done && m !in w.guests
                  then w.credits + [Credit(s.userA, m, day), Credit(s.userB, m, day)] else w.credits)
  }

  function Perform(w: World, bank: seq<S.Problem>, testing: bool, a: Action): World {
    match a
    case JoinAction(user, key, lastPartner, m, creation) => Joining(w, user, key, lastPartner, m, creation)
    case LeaveQueueAction(user, key) => w.(keys := LeaveQueue(w.keys, user, key))
    case RequestAction(m, q, loaded) => Serving(w, bank, m, q, loaded)
    case PollAction(m) => Polling(w, testing, m)
    case TickAction(span) => w.(now := w.now + span)
  }

  /** The world after some actions. */
  function RunFrom(w: World, bank: seq<S.Problem>, testing: bool, actions: seq<Action>): World
    decreases |actions|
  {
    if actions == [] then w
    else Perform(RunFrom(w, bank, testing, actions[..|actions| - 1]), bank, testing, actions[|actions| - 1])
  }

  function Run(bank: seq<S.Problem>, testing: bool, actions: seq<Action>): World { RunFrom(EMPTY, bank, testing, actions) }

  /** A session that exists and is not over. */
  predicate Unfinished(w: World, m: MatchId) { m in w.sessions && !Gone(w, m) && !S.Terminal(w.sessions[m].status) }

  // ---- Runs --------------------------------------------------------------------------------------

  predicate NewId(w: World, a: Action) { a.JoinAction? ==> a.matchId !in w.sessions }

  /** Every join draws a match id that names no session. */
  predicate NewIdsFrom(w: World, bank: seq<S.Problem>, testing: bool, actions: seq<Action>)
    decreases |actions|
  {
    actions == [] ||
    var before, a := actions[..|actions| - 1], actions[|actions| - 1];
    NewIdsFrom(w, bank, testing, before) && NewId(RunFrom(w, bank, testing, before), a)
  }

  /** No unfinished session, necessarily a registered one, has reached the age at which its match notes expire. */
  ghost predicate NoneADayOld(w: World) {
    forall m :: Unfinished(w, m) ==> w.now < w.sessions[m].createdAt + MATCH_TTL
  }

  /** ... and none had before the last action. */
  ghost predicate YoungBefore(bank: seq<S.Problem>, testing: bool, actions: seq<Action>)
    decreases |actions|, 0
  {
    actions == [] ||
    var before, a := actions[..|actions| - 1], actions[|actions| - 1];
    YoungRun(bank, testing, before) && NewId(Run(bank, testing, before), a)
  }

  /** Match ids are new, and no unfinished session ever reaches a day. */
  ghost predicate YoungRun(bank: seq<S.Problem>, testing: bool, actions: seq<Action>)
    decreases |actions|, 1
  {
    YoungBefore(bank, testing, actions) && NoneADayOld(Run(bank, testing, actions))
  }

  ghost predicate Wakes(w: World, a: Action, gap: nat) {
    a.TickAction? ==> forall m :: Unfinished(w, m) && m in w.polled ==> w.now + a.span <= w.polled[m] + gap
  }

  /** Match ids are new, and no loop of an unfinished session sleeps for longer than `gap`. */
  ghost predicate PunctualRun(bank: seq<S.Problem>, testing: bool, actions: seq<Action>, gap: nat)
    decreases |actions|
  {
    actions == [] ||
    var before, a := actions[..|actions| - 1], actions[|actions| - 1];
    PunctualRun(bank, testing, before, gap) && NewId(Run(bank, testing, before), a) && Wakes(Run(bank, testing, before), a, gap)
  }

  // ---- The invariant ---------------------------------------------------------------------------

  /** Both participants are bound to the session, by notes that live for a day, and neither is locked. */
  predicate Bound(k: Keys, s: S.Session, m: MatchId) {
    && s.userA in k.activeMatch && k.activeMatch[s.userA] == Expiring(m, s.createdAt + MATCH_TTL)
    && s.userB in k.activeMatch && k.activeMatch[s.userB] == Expiring(m, s.createdAt + MATCH_TTL)
    && s.userA !in k.locks && s.userB !in k.locks
  }

  ghost predicate Sound(w: World) {
    && OneQueueEach(w.keys, w.now)
    && forall m :: Unfinished(w, m) ==> Bound(w.keys, w.sessions[m], m) && w.sessions[m].userA != w.sessions[m].userB
  }

  /** A join changes neither the note nor the lock of a user who has a match. */
  lemma JoinSparesMatched(k: Keys, user: UserId, key: QueueKey, lastPartner: UserId, m: MatchId, now: Time,
                          creation: Creation,
                          u: UserId)
    requires OneQueueEach(k, now) && Exists(k.activeMatch, u, now)
    ensures var j := Join(k, user, key, lastPartner, m, now, creation);
            && u in j.keys.activeMatch && j.keys.activeMatch[u] == k.activeMatch[u]
            && (u in j.keys.locks <==> u in k.locks) && (u in k.locks ==> j.keys.locks[u] == k.locks[u])
  {
    if !Exists(k.activeMatch, user, now) {
      var queued := Requeue(k, user, key, now);
      RequeueFacts(k, user, key, now);
      ReserveKeeps(queued, user, key, lastPartner, m, now);
      ReserveLocks(queued, key, user, m, lastPartner, now);
      hide OneQueueEach, Reserve, Requeue;
    }
  }

  /** A match binds two different users and unlocks them. */
  lemma JoinBinds(k: Keys, user: UserId, key: QueueKey, lastPartner: UserId, m: MatchId, now: Time, creation: Creation)
    ensures var j := Join(k, user, key, lastPartner, m, now, creation);
            j.result.Matched? ==>
              && j.result.userB != user && Bound(j.keys, S.NewSession(user, j.result.userB, key.room, key.mode, now), m)
  {
    var queued := Requeue(k, user, key, now);
    ReserveLocks(queued, key, user, m, lastPartner, now);
    hide Requeue;
  }

  lemma JoiningKeeps(w: World, user: UserId, key: QueueKey, lastPartner: UserId, m: MatchId, creation: Creation)
    requires Sound(w) && NoneADayOld(w) && m !in w.sessions
    ensures Sound(Joining(w, user, key, lastPartner, m, creation))
    ensures NoneADayOld(Joining(w, user, key, lastPartner, m, creation))
  {
    hide Join, OneQueueEach, S.NewSession;
    JoinKeeps(w.keys, user, key, lastPartner, m, w.now, creation);
    JoinBinds(w.keys, user, key, lastPartner, m, w.now, creation);
    var t := Joining(w, user, key, lastPartner, m, creation);
    forall x | Unfinished(w, x)
      ensures Bound(t.keys, w.sessions[x], x)
    {
      JoinSparesMatched(w.keys, user, key, lastPartner, m, w.now, creation, w.sessions[x].userA);
      JoinSparesMatched(w.keys, user, key, lastPartner, m, w.now, creation, w.sessions[x].userB);
    }
    var j := Join(w.keys, user, key, lastPartner, m, w.now, creation);
    if j.result.Matched? {
      NewSessionOpen(user, j.result.userB, key, w.now);
    }
    assert forall x :: Unfinished(t, x) ==> Unfinished(w, x) || (j.result.Matched? && x == m);
  }

  /**
   A match is stored as one new session: the joining user interviews first, the one who waited second, in
   the room and mode of their queue; no other join stores anything.
   */
  lemma {:induction false} MatchIsStored(w: World, bank: seq<S.Problem>, testing: bool, user: UserId, key: QueueKey,
                                         lastPartner: UserId, m: MatchId, creation: Creation)
    requires m !in w.sessions
    ensures var t := Perform(w, bank, testing, JoinAction(user, key, lastPartner, m, creation));
            var r := Join(w.keys, user, key, lastPartner, m, w.now, creation).result;
            && t.now == w.now && t.credits == w.credits
            && (forall x :: x in w.sessions ==>
                  x in t.sessions && t.sessions[x] == w.sessions[x] && (x in t.guests <==> x in w.guests)
                  && (x in t.polled <==> x in w.polled) && (x in w.polled ==> t.polled[x] == w.polled[x]))
            && (forall x :: x in t.sessions && x !in w.sessions ==> r.Matched? && x == m)
            && (r.Matched? ==>
                  && m in t.sessions && m in t.polled && t.polled[m] == w.now && (m in t.guests <==> m in w.guests || key.accountType == "GUEST")
                  && var s := t.sessions[m];
                     && s.userA == s.r1.interviewer == s.r2.interviewee == user
                     && s.userB == s.r1.interviewee == s.r2.interviewer == r.userB
                     && s.status.Created? && s.room == key.room && s.mode == key.mode && s.createdAt == w.now)
  {
    hide Join;
  }

  lemma NewSessionOpen(a: UserId, b: UserId, key: QueueKey, now: Time)
    ensures var s := S.NewSession(a, b, key.room, key.mode, now);
            !S.Terminal(s.status) && s.userA == a && s.userB == b && s.createdAt == now
  {
  }

  /** Two unfinished sessions never share a participant. */
  lemma Disjoint(w: World, m1: MatchId, m2: MatchId)
    requires Sound(w) && m1 != m2 && Unfinished(w, m1) && Unfinished(w, m2)
    ensures {w.sessions[m1].userA, w.sessions[m1].userB} !! {w.sessions[m2].userA, w.sessions[m2].userB}
  {
  }

  /** Ending session `m` and deleting its participants' keys disturbs no other session and no queue. */
  lemma ForgettingKeeps(w: World, m: MatchId)
    requires Sound(w) && NoneADayOld(w) && Unfinished(w, m)
    ensures var k := Forget(w.keys, w.sessions[m].userA, w.sessions[m].userB);
            && OneQueueEach(k, w.now)
            && forall x :: Unfinished(w, x) && x != m ==> Bound(k, w.sessions[x], x)
  {
    var s := w.sessions[m];
    var k := Forget(w.keys, s.userA, s.userB);
    forall key, e | Waits(k, key, e) && Fresh(e, w.now) ensures Placed(k, key, e, w.now) {
      assert Waits(w.keys, key, e);
      assert Placed(w.keys, key, e, w.now);
    }
    forall x | Unfinished(w, x) && x != m ensures Bound(k, w.sessions[x], x) {
      Disjoint(w, m, x);
    }
  }

  /** Neither requests nor polls revive a session, replace its participants or date it anew. */
  lemma SessionEffect(s: S.Session, bank: seq<S.Problem>, q: S.Request, now: Time, d: S.Durations)
    ensures var t := S.Handle(s, bank, q).session;
            t.userA == s.userA && t.userB == s.userB && t.createdAt == s.createdAt && (S.Terminal(s.status) ==> S.Terminal(t.status))
    ensures var t := S.Advance(s, now, d);
            t.userA == s.userA && t.userB == s.userB && t.createdAt == s.createdAt && (S.Terminal(s.status) ==> t == s)
            && (!S.Terminal(s.status) && S.Terminal(t.status) ==> t.status.Completed?)
            && (t.status.Completed? && !s.status.Completed? ==> t.completedAt == Some(now))
  {
    Lifecycle.AskKeepsClock(s, bank, d, q);
    S.HandleKeepsParties(s, bank, q);
    S.AdvanceKeepsContent(s, now, d);
    hide S.Handle;
  }

  /** Replacing session `m` by a later state of it, and forgetting its users if it ended and that worked. */
  lemma SessionStepKeeps(w: World, m: MatchId, t: World)
    requires Sound(w) && NoneADayOld(w) && m in w.sessions && m in t.sessions && t.now == w.now
    requires t.guests == w.guests && t.sessions == w.sessions[m := t.sessions[m]]
    requires var s, s' := w.sessions[m], t.sessions[m];
             && s'.userA == s.userA && s'.userB == s.userB && s'.createdAt == s.createdAt
             && (S.Terminal(s.status) ==> S.Terminal(s'.status))
             && (t.keys == w.keys
                 || (Unfinished(w, m) && S.Terminal(s'.status) && t.keys == Forget(w.keys, s.userA, s.userB)))
    ensures Sound(t) && NoneADayOld(t)
  {
    if Unfinished(w, m) {
      ForgettingKeeps(w, m);
    }
    hide OneQueueEach, Forget, Bound;
    assert forall x :: Unfinished(t, x) ==> Unfinished(w, x) && t.sessions[x].createdAt == w.sessions[x].createdAt;
    forall x | Unfinished(t, x) ensures Bound(t.keys, t.sessions[x], x) {
      if x == m {
        SameBinding(t.keys, w.sessions[m], t.sessions[m], m);
      }
    }
  }

  lemma SameBinding(k: Keys, s: S.Session, t: S.Session, m: MatchId)
    requires s.userA == t.userA && s.userB == t.userB && s.createdAt == t.createdAt
    ensures Bound(k, s, m) <==> Bound(k, t, m)
  {
  }

  /** A clock step ages the notes but changes none of them. */
  lemma TickKeeps(w: World, span: Time)
    requires Sound(w)
    ensures Sound(w.(now := w.now + span))
  {
    var t := w.(now := w.now + span);
    forall key, e | Waits(t.keys, key, e) && Fresh(e, t.now) ensures Placed(t.keys, key, e, t.now) {
      assert Placed(w.keys, key, e, w.now);
    }
    assert forall m :: Unfinished(t, m) ==> Unfinished(w, m);
  }

  lemma PerformKeeps(w: World, bank: seq<S.Problem>, testing: bool, a: Action)
    requires Sound(w) && NoneADayOld(w) && NewId(w, a)
    ensures Sound(Perform(w, bank, testing, a))
    ensures !a.TickAction? ==> NoneADayOld(Perform(w, bank, testing, a)) && Perform(w, bank, testing, a).now == w.now
  {
    match a
    case JoinAction(user, key, lastPartner, m, creation) => JoiningKeeps(w, user, key, lastPartner, m, creation);
    case LeaveQueueAction(user, key) =>
      LeaveQueueKeeps(w.keys, user, key, w.now);
      assert forall m :: Unfinished(w.(keys := LeaveQueue(w.keys, user, key)), m) <==> Unfinished(w, m);
    case RequestAction(m, q, loaded) =>
      if m in w.sessions && !Gone(w, m) {
        SessionEffect(w.sessions[m], bank, q, w.now, DurationsOf(w.sessions[m], testing));
        hide S.Handle;
        SessionStepKeeps(w, m, Serving(w, bank, m, q, loaded));
      }
    case PollAction(m) =>
      if m in w.sessions && !Gone(w, m) {
        SessionEffect(w.sessions[m], bank, S.Leave, w.now, DurationsOf(w.sessions[m], testing));
        hide S.Advance;
        SessionStepKeeps(w, m, Polling(w, testing, m));
      }
    case TickAction(span) => TickKeeps(w, span);
  }

  /** Leaving a queue takes the user out of that queue and changes nothing else. */
  lemma {:induction false} LeavingLeaves(w: World, bank: seq<S.Problem>, testing: bool, user: UserId, key: QueueKey)
    requires QueuesSorted(w.keys)
    ensures var t := Perform(w, bank, testing, LeaveQueueAction(user, key));
            t == w.(keys := t.keys) && QueuesSorted(t.keys) && Left(w.keys, t.keys, user, key)
  {
    RemoveEffect(w.keys, key, user);
  }

  lemma GoneStep(w: World, bank: seq<S.Problem>, testing: bool, a: Action, m: MatchId)
    requires Gone(w, m) && NewId(w, a)
    ensures var t := Perform(w, bank, testing, a);
            m in t.guests && m in t.sessions && t.sessions[m] == w.sessions[m] && t.now >= w.now
  {
    hide Join, LeaveQueue, S.NewSession, S.Handle, S.Advance, DurationsOf, Forget;
  }

  /** Once the hash of a guest session has expired, no action of anybody ever changes that session again. */
  lemma {:induction false} GoneForever(w: World, bank: seq<S.Problem>, testing: bool, actions: seq<Action>, m: MatchId)
    requires m in w.guests && m in w.sessions && w.now >= w.sessions[m].createdAt + 86_400_000
    requires NewIdsFrom(w, bank, testing, actions)
    ensures var t := RunFrom(w, bank, testing, actions);
            m in t.guests && m in t.sessions && t.sessions[m] == w.sessions[m] && t.now >= w.now && !Unfinished(t, m)
  {
    hide Perform, NewId;
    if actions != [] {
      var before := actions[..|actions| - 1];
      GoneForever(w, bank, testing, before, m);
      GoneStep(RunFrom(w, bank, testing, before), bank, testing, actions[|actions| - 1], m);
    }
  }

  /** The invariant survives everything up to and including the step that makes a session a day old. */
  lemma {:induction false} AlwaysSound(bank: seq<S.Problem>, testing: bool, actions: seq<Action>)
    requires YoungBefore(bank, testing, actions)
    ensures Sound(Run(bank, testing, actions))
  {
    if actions != [] {
      var before := actions[..|actions| - 1];
      AlwaysSound(bank, testing, before);
      PerformKeeps(Run(bank, testing, before), bank, testing, actions[|actions| - 1]);
    }
  }

  /**
   No double booking: in every run in which no unfinished session reaches a day, two unfinished sessions
   have four different participants, and each participant's active_match is alive and names the session.
   */
  lemma {:induction false} NoDoubleBooking(bank: seq<S.Problem>, testing: bool, actions: seq<Action>, m: MatchId)
    requires YoungRun(bank, testing, actions)
    ensures var w := Run(bank, testing, actions);
            Unfinished(w, m) ==>
              var s := w.sessions[m];
              && s.userA != s.userB
              && Status(w.keys, s.userA, w.now) == Some(m) && Status(w.keys, s.userB, w.now) == Some(m)
              && forall x :: x != m && Unfinished(w, x) ==>
                   {s.userA, s.userB} !! {w.sessions[x].userA, w.sessions[x].userB}
  {
    AlwaysSound(bank, testing, actions);
    var w := Run(bank, testing, actions);
    if Unfinished(w, m) {
      forall x | x != m && Unfinished(w, x)
        ensures {w.sessions[m].userA, w.sessions[m].userB} !! {w.sessions[x].userA, w.sessions[x].userB}
      {
        Disjoint(w, m, x);
      }
    }
  }

  /** One live queue per user: in every such run a fresh entry is its user's only one and names its queue. */
  lemma {:induction false} OneLiveQueue(bank: seq<S.Problem>, testing: bool, actions: seq<Action>, key: QueueKey, e: Entry)
    requires YoungRun(bank, testing, actions)
    ensures var w := Run(bank, testing, actions);
            Waits(w.keys, key, e) && Fresh(e, w.now) ==>
              && Exists(w.keys.currentQueue, e.id, w.now) && w.keys.currentQueue[e.id].value == key
              && Status(w.keys, e.id, w.now) == None
              && (forall other, f: Entry :: Waits(w.keys, other, f) && Fresh(f, w.now) && f.id == e.id ==> other == key && f == e)
              && (forall m :: Unfinished(w, m) ==> e.id != w.sessions[m].userA && e.id != w.sessions[m].userB)
  {
    AlwaysSound(bank, testing, actions);
    var w := Run(bank, testing, actions);
    if Waits(w.keys, key, e) && Fresh(e, w.now) {
      assert Placed(w.keys, key, e, w.now);
      forall other, f: Entry | Waits(w.keys, other, f) && Fresh(f, w.now) && f.id == e.id ensures other == key && f == e {
        LiveInOneQueueAtMost(w.keys, w.now, key, other, e, f);
      }
    }
  }

  // ---- Participants ------------------------------------------------------------------------------

  ghost predicate Paired(w: World) { forall m :: m in w.sessions ==> w.sessions[m].userA != w.sessions[m].userB }

  lemma PerformPairs(w: World, bank: seq<S.Problem>, testing: bool, a: Action)
    requires Paired(w)
    ensures Paired(Perform(w, bank, testing, a))
  {
    hide S.Handle, S.Advance, DurationsOf, Join;
    match a
    case JoinAction(user, key, lastPartner, m, creation) =>
      JoinBinds(w.keys, user, key, lastPartner, m, w.now, creation);
    case RequestAction(m, q, loaded) =>
      if m in w.sessions {
        SessionEffect(w.sessions[m], bank, q, w.now, DurationsOf(w.sessions[m], testing));
      }
    case PollAction(m) =>
      if m in w.sessions {
        SessionEffect(w.sessions[m], bank, S.Leave, w.now, DurationsOf(w.sessions[m], testing));
      }
    case _ =>
  }

  /** In every run at all, a session has two different participants. */
  lemma {:induction false} AlwaysPaired(bank: seq<S.Problem>, testing: bool, actions: seq<Action>)
    ensures Paired(Run(bank, testing, actions))
  {
    if actions != [] {
      var before := actions[..|actions| - 1];
      AlwaysPaired(bank, testing, before);
      PerformPairs(Run(bank, testing, before), bank, testing, actions[|actions| - 1]);
    }
  }

  // ---- The condition is exact --------------------------------------------------------------------

  ghost predicate DoubleBooked(w: World) {
    exists m1, m2 :: m1 != m2 && Unfinished(w, m1) && Unfinished(w, m2)
                     && !({w.sessions[m1].userA, w.sessions[m1].userB} !! {w.sessions[m2].userA, w.sessions[m2].userB})
  }

  predicate Timeless(actions: seq<Action>) { forall a :: a in actions ==> !a.TickAction? }

  lemma {:induction false} StillSound(w: World, bank: seq<S.Problem>, testing: bool, more: seq<Action>)
    requires Sound(w) && NoneADayOld(w) && NewIdsFrom(w, bank, testing, more) && Timeless(more)
    ensures Sound(RunFrom(w, bank, testing, more)) && NoneADayOld(RunFrom(w, bank, testing, more))
  {
    if more != [] {
      var before := more[..|more| - 1];
      StillSound(w, bank, testing, before);
      PerformKeeps(RunFrom(w, bank, testing, before), bank, testing, more[|more| - 1]);
    }
  }

  lemma {:induction false} Longer(s: set<string>) returns (t: string)
    ensures forall x :: x in s ==> |x| < |t|
  {
    if s == {} {
      t := "";
    } else {
      var x :| x in s;
      var u := Longer(s - {x});
      t := if |x| < |u| then u else x + "x";
    }
  }

  lemma FirstWaits(k: Keys, u: UserId, key: QueueKey, m: MatchId, now: Time)
    requires Queue(k, key) == [] && u !in k.locks && u !in k.activeMatch && u !in k.currentQueue
    ensures var j := Join(k, u, key, "", m, now, Stored);
            && j.result == Queued && Queue(j.keys, key) == [Entry(now, u)]
            && j.keys == k.(queues := j.keys.queues, currentQueue := k.currentQueue[u := Expiring(key, now + QUEUE_TTL)])
  {
  }

  lemma SecondMatches(k: Keys, u: UserId, v: UserId, key: QueueKey, m: MatchId, now: Time)
    requires u != v && v != "" && Queue(k, key) == [Entry(now, v)]
    requires !Exists(k.locks, u, now) && !Exists(k.locks, v, now) && !Exists(k.activeMatch, u, now)
    ensures Join(k, u, key, "", m, now, Stored).result == Matched(m, u, v)
  {
    var queued := Requeue(k, u, key, now);
    var live := EvictThrough(Queue(queued, key), now - MAX_QUEUE_TIME);
    assert live == [Entry(now, v)] by {
      assert Queue(queued, key)[0] == Entry(now, v) && EvictThrough(Queue(queued, key)[1..], now - MAX_QUEUE_TIME) == [];
    }
    assert FirstEligible(WithQueue(queued, key, live), live, u, "", now) == Some(Entry(now, v)) by {
      assert live[0] == Entry(now, v);
    }
  }

  /** A newcomer waits in a new room; the participant of a day-old session joins it there. */
  lemma BookedInRoom(w: World, bank: seq<S.Problem>, testing: bool, m: MatchId, key: QueueKey, v: UserId, id: MatchId)
    requires Sound(w) && Unfinished(w, m) && w.now >= w.sessions[m].createdAt + MATCH_TTL
    requires key !in w.keys.queues && id !in w.sessions && v != "" && v != w.sessions[m].userA
    requires v !in w.keys.locks && v !in w.keys.activeMatch && v !in w.keys.currentQueue
    ensures var first, second := JoinAction(v, key, "", id, Stored), JoinAction(w.sessions[m].userA, key, "", id, Stored);
            var t := Perform(w, bank, testing, first);
            NewId(w, first) && NewId(t, second) && DoubleBooked(Perform(t, bank, testing, second))
  {
    hide Join, OneQueueEach, S.NewSession;
    var u := w.sessions[m].userA;
    FirstWaits(w.keys, v, key, id, w.now);
    var t := Perform(w, bank, testing, JoinAction(v, key, "", id, Stored));
    SecondMatches(t.keys, u, v, key, id, w.now);
    hide Queue;
    var t2 := Perform(t, bank, testing, JoinAction(u, key, "", id, Stored));
    assert t2.sessions == w.sessions[id := S.NewSession(u, v, key.room, key.mode, w.now)];
    NewSessionOpen(u, v, key, w.now);
    assert Unfinished(t2, m) && Unfinished(t2, id) && u in {t2.sessions[m].userA, t2.sessions[m].userB}
        && u in {t2.sessions[id].userA, t2.sessions[id].userB};
  }

  lemma BookedAgain(w: World, bank: seq<S.Problem>, testing: bool, m: MatchId) returns (more: seq<Action>)
    requires Sound(w) && Unfinished(w, m) && w.now >= w.sessions[m].createdAt + MATCH_TTL
    ensures Timeless(more) && NewIdsFrom(w, bank, testing, more) && DoubleBooked(RunFrom(w, bank, testing, more))
  {
    hide Perform, RunFrom, NewIdsFrom, NewId, Sound, DoubleBooked;
    var u := w.sessions[m].userA;
    var v := Longer({u} + w.keys.locks.Keys + w.keys.activeMatch.Keys + w.keys.currentQueue.Keys);
    var id := Longer(w.sessions.Keys);
    var room := Longer(set key | key in w.keys.queues :: key.room);
    var key := QueueKey(room, "STANDARD", "REGISTERED");
    assert key !in w.keys.queues;
    BookedInRoom(w, bank, testing, m, key, v, id);
    var first, second := JoinAction(v, key, "", id, Stored), JoinAction(u, key, "", id, Stored);
    more := [first, second];
    TwoActions(w, bank, testing, first, second);
  }

  lemma TwoActions(w: World, bank: seq<S.Problem>, testing: bool, a: Action, b: Action)
    ensures RunFrom(w, bank, testing, [a, b]) == Perform(Perform(w, bank, testing, a), bank, testing, b)
    ensures NewIdsFrom(w, bank, testing, [a, b]) <==> NewId(w, a) && NewId(Perform(w, bank, testing, a), b)
  {
    assert [a, b][..1] == [a] && [a][..0] == [];
    hide Perform, NewId;
    assert RunFrom(w, bank, testing, [a]) == Perform(RunFrom(w, bank, testing, []), bank, testing, a);
    assert NewIdsFrom(w, bank, testing, [a]) <==> NewId(w, a);
  }

  /**
   Exactly then: up to the first moment a session could be a day old, a double booking can follow
   without further delay if and only if some unfinished session is a day old.
   */
  lemma {:induction false} RebookableIffADayOld(bank: seq<S.Problem>, testing: bool, actions: seq<Action>)
    requires YoungBefore(bank, testing, actions)
    ensures var w := Run(bank, testing, actions);
            (exists more :: Timeless(more) && NewIdsFrom(w, bank, testing, more) && DoubleBooked(RunFrom(w, bank, testing, more)))
            <==> !NoneADayOld(w)
  {
    AlwaysSound(bank, testing, actions);
    var w := Run(bank, testing, actions);
    hide Run, YoungBefore;
    if NoneADayOld(w) {
      forall more | Timeless(more) && NewIdsFrom(w, bank, testing, more)
        ensures !DoubleBooked(RunFrom(w, bank, testing, more))
      {
        StillSound(w, bank, testing, more);
        NotDoubleBooked(RunFrom(w, bank, testing, more));
      }
    } else {
      var m :| Unfinished(w, m) && w.now >= w.sessions[m].createdAt + MATCH_TTL;
      var more := BookedAgain(w, bank, testing, m);
    }
  }

  lemma NotDoubleBooked(w: World)
    requires Sound(w)
    ensures !DoubleBooked(w)
  {
    forall m1, m2 | m1 != m2 && Unfinished(w, m1) && Unfinished(w, m2)
      ensures {w.sessions[m1].userA, w.sessions[m1].userB} !! {w.sessions[m2].userA, w.sessions[m2].userB}
    {
      Disjoint(w, m1, m2);
    }
  }

  // ---- Poll gaps ---------------------------------------------------------------------------------

  /** The longest poll gap that leaves no unfinished session a day old. */
  const MAX_GAP: nat := 14_055_000

  ghost predicate OnTime(w: World, testing: bool, gap: nat) {
    forall m :: m in w.sessions ==>
      var s := w.sessions[m];
      var d := DurationsOf(s, testing);
      && m in w.polled && w.polled[m] <= w.now && S.Valid(s, d)
      && (Unfinished(w, m) ==> Lifecycle.OnTime(s, d, w.polled[m], gap) && w.now <= w.polled[m] + gap)
  }

  lemma NewSessionOnTime(a: UserId, b: UserId, key: QueueKey, now: Time, testing: bool, gap: nat)
    requires a != b
    ensures var s := S.NewSession(a, b, key.room, key.mode, now);
            S.Valid(s, DurationsOf(s, testing)) && Lifecycle.OnTime(s, DurationsOf(s, testing), now, gap)
  {
  }

  /** What a request can do to a session: end it, or leave its clock and its participants alone. */
  lemma RequestOnTime(s: S.Session, bank: seq<S.Problem>, q: S.Request, d: S.Durations, last: Time, gap: nat)
    requires S.Valid(s, d) && (!S.Terminal(s.status) ==> Lifecycle.OnTime(s, d, last, gap))
    ensures var t := S.Handle(s, bank, q).session;
            && S.Valid(t, d) && (!S.Terminal(t.status) ==> Lifecycle.OnTime(t, d, last, gap)) && t.mode == s.mode
            && (S.Terminal(s.status) ==> S.Terminal(t.status))
  {
    S.HandleKeepsValid(s, bank, q, d);
    Lifecycle.AskKeepsClock(s, bank, d, q);
    hide S.Handle, S.Valid;
    if !S.Terminal(s.status) {
      Lifecycle.AskOnTime(s, bank, d, last, q, gap);
    }
  }

  lemma PollOnTime(s: S.Session, d: S.Durations, last: Time, now: Time, gap: nat)
    requires S.Valid(s, d) && Lifecycle.Positive(d)
    requires !S.Terminal(s.status) ==> Lifecycle.OnTime(s, d, last, gap) && last <= now <= last + gap
    ensures var t := S.Advance(s, now, d);
            S.Valid(t, d) && (!S.Terminal(t.status) ==> Lifecycle.OnTime(t, d, now, gap)) && t.mode == s.mode
  {
    S.AdvanceKeepsValid(s, now, d);
    S.AdvanceKeepsContent(s, now, d);
    SessionEffect(s, [], S.Leave, now, d);
    hide S.Advance, S.Valid;
    if !S.Terminal(s.status) {
      Lifecycle.PollOnTime(s, d, last, now, gap);
    }
  }

  lemma PerformOnTime(w: World, bank: seq<S.Problem>, testing: bool, a: Action, gap: nat)
    requires OnTime(w, testing, gap) && Wakes(w, a, gap)
    ensures OnTime(Perform(w, bank, testing, a), testing, gap)
  {
    hide S.Handle, S.Advance, S.NewSession, Join, S.Valid, Lifecycle.OnTime, S.ModeDurations, Forget, LeaveQueue;
    match a
    case JoinAction(user, key, lastPartner, m, creation) =>
      JoinBinds(w.keys, user, key, lastPartner, m, w.now, creation);
      var j := Join(w.keys, user, key, lastPartner, m, w.now, creation);
      if j.result.Matched? {
        NewSessionOnTime(user, j.result.userB, key, w.now, testing, gap);
      }
    case RequestAction(m, q, loaded) =>
      if m in w.sessions && !Gone(w, m) {
        RequestOnTime(w.sessions[m], bank, q, DurationsOf(w.sessions[m], testing), w.polled[m], gap);
      }
    case PollAction(m) =>
      if m in w.sessions && !Gone(w, m) {
        PollOnTime(w.sessions[m], DurationsOf(w.sessions[m], testing), w.polled[m], w.now, gap);
      }
    case TickAction(span) =>
      var t := w.(now := w.now + span);
      assert forall m :: Unfinished(t, m) ==> Unfinished(w, m);
    case _ =>
  }

  lemma {:induction false} AlwaysOnTime(bank: seq<S.Problem>, testing: bool, actions: seq<Action>, gap: nat)
    requires PunctualRun(bank, testing, actions, gap)
    ensures OnTime(Run(bank, testing, actions), testing, gap)
  {
    if actions != [] {
      var before := actions[..|actions| - 1];
      AlwaysOnTime(bank, testing, before, gap);
      PerformOnTime(Run(bank, testing, before), bank, testing, actions[|actions| - 1], gap);
    }
  }

  /** Punctual poll loops never let a session reach a day. */
  lemma {:induction false} PunctualIsYoung(bank: seq<S.Problem>, testing: bool, actions: seq<Action>, gap: nat)
    requires PunctualRun(bank, testing, actions, gap) && gap <= MAX_GAP
    ensures YoungRun(bank, testing, actions)
  {
    if actions != [] {
      PunctualIsYoung(bank, testing, actions[..|actions| - 1], gap);
    }
    AlwaysOnTime(bank, testing, actions, gap);
    var w := Run(bank, testing, actions);
    forall m | Unfinished(w, m) ensures w.now < w.sessions[m].createdAt + MATCH_TTL {
      var s := w.sessions[m];
      Lifecycle.LiveSessionIsYoung(s, DurationsOf(s, testing), w.polled[m], gap, w.now);
    }
  }

  // ---- ... and longer ones do ----------------------------------------------------------------------

  const STANDARD: S.Durations := S.ModeDurations("STANDARD", false)

  function NextStatus(status: S.Status): S.Status {
    match status
    case Preparation => S.Round1Active
    case Round1Active => S.Round1Feedback
    case Round1Feedback => S.Round2Active
    case Round2Active => S.Round2Feedback
    case _ => S.Completed
  }

  /** A phase at whose start the loop has just polled, and in which nobody gives feedback. */
  ghost predicate Starting(s: S.Session, now: Time, d: S.Durations) {
    && S.Valid(s, d) && Lifecycle.Timed(s.status) && S.PhaseStart(s) == Some(now)
    && s.r1.givers == {} && s.r2.givers == {}
  }

  /** A poll just before the deadline changes nothing; the next one may be a whole gap later. */
  lemma LatePolls(s: S.Session, now: Time, d: S.Durations, gap: nat)
    requires Starting(s, now, d) && Lifecycle.Positive(d) && gap >= 1
    ensures var last := now + S.PhaseLength(s.status, d) - 1;
            var t := S.Advance(s, last + gap, d);
            && S.Advance(s, last, d) == s
            && t.status == NextStatus(s.status) && t.mode == s.mode && t.createdAt == s.createdAt
            && (Lifecycle.Timed(t.status) ==> Starting(t, last + gap, d))
  {
    S.AdvanceKeepsValid(s, now + S.PhaseLength(s.status, d) - 1 + gap, d);
    match s.status
    case Preparation =>
    case Round1Active =>
    case Round1Feedback =>
    case Round2Active =>
    case Round2Feedback =>
  }

  ghost predicate Reached(bank: seq<S.Problem>, actions: seq<Action>, w: World, gap: nat) {
    PunctualRun(bank, false, actions, gap) && Run(bank, false, actions) == w
  }

  lemma Reach(bank: seq<S.Problem>, actions: seq<Action>, w: World, a: Action, gap: nat) returns (more: seq<Action>)
    requires Reached(bank, actions, w, gap) && NewId(w, a) && Wakes(w, a, gap)
    ensures Reached(bank, more, Perform(w, bank, false, a), gap)
  {
    more := actions + [a];
    assert more[..|actions|] == actions;
  }

  /** One session in the phase that just began, polled at this moment. */
  ghost predicate Alone(w: World, m: MatchId, status: S.Status) {
    && m in w.sessions && w.sessions == map[m := w.sessions[m]] && m in w.polled && w.polled[m] == w.now
    && w.guests == {} && w.sessions[m].status == status && w.sessions[m].createdAt == 0 && w.sessions[m].mode == "STANDARD"
    && Starting(w.sessions[m], w.now, DurationsOf(w.sessions[m], false))
  }

  lemma TickTo(bank: seq<S.Problem>, actions: seq<Action>, w: World, m: MatchId, span: Time,
               gap: nat) returns (more: seq<Action>)
    requires Reached(bank, actions, w, gap) && span <= gap
    requires m in w.sessions && w.sessions == map[m := w.sessions[m]] && m in w.polled && w.polled[m] == w.now
    ensures Reached(bank, more, w.(now := w.now + span), gap)
  {
    hide Reached;
    more := Reach(bank, actions, w, TickAction(span), gap);
  }

  lemma PollAt(bank: seq<S.Problem>, actions: seq<Action>, w: World, m: MatchId,
               gap: nat) returns (more: seq<Action>, t: World)
    requires Reached(bank, actions, w, gap) && m in w.sessions && w.guests == {}
    ensures Reached(bank, more, t, gap) && t.now == w.now && t.polled == w.polled[m := w.now] && t.guests == {}
    ensures t.sessions == w.sessions[m := S.Advance(w.sessions[m], w.now, DurationsOf(w.sessions[m], false))]
  {
    hide Reached, S.Advance, DurationsOf;
    more := Reach(bank, actions, w, PollAction(m), gap);
    t := Perform(w, bank, false, PollAction(m));
  }

  /** The loop polls just before the deadline, and then sleeps for the whole gap. */
  lemma LateInPhase(bank: seq<S.Problem>, actions: seq<Action>, w: World, m: MatchId, status: S.Status, gap: nat)
    returns (more: seq<Action>, t: World)
    requires Reached(bank, actions, w, gap) && Alone(w, m, status) && gap >= 900_000
    ensures Reached(bank, more, t, gap) && t.sessions == w.sessions && t.guests == {}
    ensures t.now == w.now + S.PhaseLength(status, STANDARD) - 1 + gap
  {
    hide Reached, S.Advance, S.Valid;
    var s := w.sessions[m];
    var len := S.PhaseLength(status, DurationsOf(s, false));
    LatePolls(s, w.now, DurationsOf(s, false), gap);
    more := TickTo(bank, actions, w, m, len - 1, gap);
    more, t := PollAt(bank, more, w.(now := w.now + len - 1), m, gap);
    more := TickTo(bank, more, t, m, gap, gap);
    t := t.(now := t.now + gap);
  }

  lemma ThroughPhase(bank: seq<S.Problem>, actions: seq<Action>, w: World, m: MatchId, status: S.Status, gap: nat)
    returns (more: seq<Action>, t: World)
    requires Reached(bank, actions, w, gap) && Alone(w, m, status) && gap >= 900_000 && Lifecycle.Timed(NextStatus(status))
    ensures Reached(bank, more, t, gap) && Alone(t, m, NextStatus(status))
    ensures t.now == w.now + S.PhaseLength(status, STANDARD) - 1 + gap
  {
    hide Reached, S.Advance, S.Valid;
    LatePolls(w.sessions[m], w.now, DurationsOf(w.sessions[m], false), gap);
    more, t := LateInPhase(bank, actions, w, m, status, gap);
    more, t := PollAt(bank, more, t, m, gap);
  }

  /** Two newcomers are paired, and the loop polls for the first time after a whole gap. */
  lemma ReachPreparation(bank: seq<S.Problem>, gap: nat) returns (actions: seq<Action>, w: World)
    ensures Reached(bank, actions, w, gap) && Alone(w, "m", S.Preparation) && w.now == gap
  {
    var key := QueueKey("room", "STANDARD", "REGISTERED");
    hide Join, S.NewSession, S.Advance;
    actions := [];
    FirstWaits(EMPTY.keys, "a", key, "m", 0);
    var w1 := Perform(EMPTY, bank, false, JoinAction("a", key, "", "m", Stored));
    SecondMatches(w1.keys, "b", "a", key, "m", 0);
    var w2 := Perform(w1, bank, false, JoinAction("b", key, "", "m", Stored));
    hide PunctualRun, Run, RunFrom;
    ReachNothing(bank, gap);
    actions := Reach(bank, [], EMPTY, JoinAction("a", key, "", "m", Stored), gap);
    actions := Reach(bank, actions, w1, JoinAction("b", key, "", "m", Stored), gap);
    assert w2.sessions == map["m" := S.NewSession("b", "a", "room", "STANDARD", 0)];
    actions := TickTo(bank, actions, w2, "m", gap, gap);
    actions, w := PollAt(bank, actions, w2.(now := gap), "m", gap);
    FirstPoll(w.sessions["m"], gap);
  }

  lemma ReachNothing(bank: seq<S.Problem>, gap: nat)
    ensures Reached(bank, [], EMPTY, gap)
  {
  }

  lemma FirstPoll(t: S.Session, gap: nat)
    requires var s := S.NewSession("b", "a", "room", "STANDARD", 0); t == S.Advance(s, gap, DurationsOf(s, false))
    ensures Starting(t, gap, DurationsOf(t, false)) && t.status == S.Preparation && t.createdAt == 0 && t.mode == "STANDARD"
  {
  }

  /** Six of the shortest gaps above the bound, and a session is a day old. */
  lemma LongGapsReachADay(bank: seq<S.Problem>) returns (actions: seq<Action>)
    ensures PunctualRun(bank, false, actions, MAX_GAP + 1) && !NoneADayOld(Run(bank, false, actions))
  {
    var gap := MAX_GAP + 1;
    var w;
    actions, w := ReachPreparation(bank, gap);
    hide Reached, Alone, PunctualRun, Run, NoneADayOld;
    assert STANDARD == S.Durations(30_000, 900_000, 120_000);
    actions, w := ThroughPhase(bank, actions, w, "m", S.Preparation, gap);
    actions, w := ThroughPhase(bank, actions, w, "m", S.Round1Active, gap);
    actions, w := ThroughPhase(bank, actions, w, "m", S.Round1Feedback, gap);
    actions, w := ThroughPhase(bank, actions, w, "m", S.Round2Active, gap);
    actions, w := LastGap(bank, actions, w, gap);
  }

  lemma LastGap(bank: seq<S.Problem>, actions: seq<Action>, w: World, gap: nat) returns (more: seq<Action>, t: World)
    requires Reached(bank, actions, w, gap) && Alone(w, "m", S.Round2Feedback) && gap >= 900_000
    requires w.now + S.PhaseLength(S.Round2Feedback, STANDARD) - 1 + gap >= MATCH_TTL
    ensures PunctualRun(bank, false, more, gap) && !NoneADayOld(Run(bank, false, more))
  {
    hide PunctualRun, Run;
    more, t := LateInPhase(bank, actions, w, "m", S.Round2Feedback, gap);
    assert Unfinished(t, "m");
  }

  // ---- So the bound is exact -----------------------------------------------------------------------

  lemma {:induction false} LongerGap(bank: seq<S.Problem>, actions: seq<Action>, gap: nat, longer: nat)
    requires PunctualRun(bank, false, actions, gap) && gap <= longer
    ensures PunctualRun(bank, false, actions, longer)
  {
    if actions != [] {
      LongerGap(bank, actions[..|actions| - 1], gap, longer);
    }
  }

  /** The first moment at which a session is a day old. */
  lemma {:induction false} FirstDayOld(bank: seq<S.Problem>, actions: seq<Action>, gap: nat) returns (first: seq<Action>)
    requires PunctualRun(bank, false, actions, gap) && !YoungRun(bank, false, actions)
    ensures PunctualRun(bank, false, first, gap) && YoungBefore(bank, false, first) && !NoneADayOld(Run(bank, false, first))
    decreases |actions|
  {
    if YoungBefore(bank, false, actions) {
      first := actions;
    } else {
      first := FirstDayOld(bank, actions[..|actions| - 1], gap);
    }
  }

  lemma {:induction false} Continue(bank: seq<S.Problem>, actions: seq<Action>, more: seq<Action>, gap: nat)
    requires PunctualRun(bank, false, actions, gap)
    requires Timeless(more) && NewIdsFrom(Run(bank, false, actions), bank, false, more)
    ensures PunctualRun(bank, false, actions + more, gap)
    ensures Run(bank, false, actions + more) == RunFrom(Run(bank, false, actions), bank, false, more)
  {
    hide Perform, NewId;
    if more == [] {
      assert actions + more == actions;
    } else {
      var before := more[..|more| - 1];
      Continue(bank, actions, before, gap);
      assert (actions + more)[..|actions + more| - 1] == actions + before;
    }
  }

  /**
   No user is ever booked twice, in any run whose poll gaps are at most `gap`, if and only if `gap` is
   at most 14,055 seconds.
   */
  lemma {:induction false} GapBoundIsExact(bank: seq<S.Problem>, gap: nat)
    ensures (forall actions :: PunctualRun(bank, false, actions, gap) ==> !DoubleBooked(Run(bank, false, actions)))
            <==> gap <= MAX_GAP
  {
    hide Run, PunctualRun, YoungBefore, DoubleBooked;
    if gap <= MAX_GAP {
      forall actions | PunctualRun(bank, false, actions, gap) ensures !DoubleBooked(Run(bank, false, actions)) {
        PunctualIsYoung(bank, false, actions, gap);
        AlwaysSound(bank, false, actions);
        NotDoubleBooked(Run(bank, false, actions));
      }
    } else {
      var actions := LongGapsReachADay(bank);
      LongerGap(bank, actions, MAX_GAP + 1, gap);
      var first := FirstDayOld(bank, actions, gap);
      RebookableIffADayOld(bank, false, first);
      var more :| Timeless(more) && NewIdsFrom(Run(bank, false, first), bank, false, more)
                  && DoubleBooked(RunFrom(Run(bank, false, first), bank, false, more));
      Continue(bank, first, more, gap);
      assert PunctualRun(bank, false, first + more, gap) && DoubleBooked(Run(bank, false, first + more));
    }
  }
}
