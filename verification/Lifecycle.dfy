/** Runs of one session: the poll loop's calls interleaved with the participants' requests. */
module Lifecycle {
  import opened Wrappers
  import opened Identity
  import opened Sessions

  datatype Event = Poll(at: Time) | Ask(request: Request)

  function After(s: Session, bank: seq<Problem>, d: Durations, e: Event): Session {
    match e
    case Poll(at) => Advance(s, at, d)
    case Ask(q) => Handle(s, bank, q).session
  }

  function Play(s: Session, bank: seq<Problem>, d: Durations, events: seq<Event>): Session
    decreases |events|
  {
    if events == [] then s else After(Play(s, bank, d, events[..|events| - 1]), bank, d, events[|events| - 1])
  }

  /** When the loop last ran; before its first poll, when the session was created. */
  function LastPoll(created: Time, events: seq<Event>): Time
    decreases |events|
  {
    if events == [] then created
    else if events[|events| - 1].Poll? then events[|events| - 1].at
    else LastPoll(created, events[..|events| - 1])
  }

  /** Polls come in order and at most `gap` apart. */
  ghost predicate Punctual(created: Time, events: seq<Event>, gap: nat)
    decreases |events|
  {
    events == [] ||
    var before, e := events[..|events| - 1], events[|events| - 1];
    && Punctual(created, before, gap)
    && (e.Poll? ==> LastPoll(created, before) <= e.at <= LastPoll(created, before) + gap)
  }

  // ---- Phases and deadlines --------------------------------------------------------------------

  predicate Timed(status: Status) { !status.Created? && !Terminal(status) }

  predicate Busy(r: Round) { r.status == Active || r.status == InFeedback }

  lemma {:induction false} ValidAlways(s: Session, bank: seq<Problem>, d: Durations, events: seq<Event>)
    requires Valid(s, d)
    ensures Valid(Play(s, bank, d, events), d)
  {
    if events != [] {
      var before, e := events[..|events| - 1], events[|events| - 1];
      ValidAlways(s, bank, d, before);
      match e
      case Poll(at) => AdvanceKeepsValid(Play(s, bank, d, before), at, d);
      case Ask(q) => HandleKeepsValid(Play(s, bank, d, before), bank, q, d);
    }
  }

  /** In every reachable state at most one round is under way, and only while the session is. */
  lemma {:induction false} OneRoundAtATime(a: UserId, b: UserId, room: RoomId, mode: string, now: Time,
                                           bank: seq<Problem>, d: Durations,
                        events: seq<Event>)
    requires a != b
    ensures var s := Play(NewSession(a, b, room, mode, now), bank, d, events);
            && !(Busy(s.r1) && Busy(s.r2))
            && (Busy(s.r1) && !s.status.Abandoned? <==> s.status.Round1Active? || s.status.Round1Feedback?)
            && (Busy(s.r2) && !s.status.Abandoned? <==> s.status.Round2Active? || s.status.Round2Feedback?)
  {
    ValidAlways(NewSession(a, b, room, mode, now), bank, d, events);
  }

  lemma TerminalStays(s: Session, bank: seq<Problem>, d: Durations, e: Event)
    requires Terminal(s.status)
    ensures After(s, bank, d, e).status == s.status
  {
    if e.Ask? {
      AskKeepsClock(s, bank, d, e.request);
    }
  }

  /** Once over, a session stays over in the same way. */
  lemma {:induction false} TerminalForever(s: Session, bank: seq<Problem>, d: Durations, events: seq<Event>)
    requires Terminal(s.status)
    ensures Play(s, bank, d, events).status == s.status
  {
    if events != [] {
      TerminalForever(s, bank, d, events[..|events| - 1]);
      TerminalStays(Play(s, bank, d, events[..|events| - 1]), bank, d, events[|events| - 1]);
    }
  }

  /** A poll ends a timed phase exactly when its deadline has passed or both feedbacks are in. */
  lemma PhaseEndsIff(s: Session, d: Durations, now: Time)
    requires Valid(s, d) && Timed(s.status)
    ensures Advance(s, now, d).status != s.status <==>
            || now >= s.endsAt.value
            || (s.status.Round1Feedback? && {s.userA, s.userB} <= s.r1.givers)
            || (s.status.Round2Feedback? && {s.userA, s.userB} <= s.r2.givers)
  {
    BothIffAll(s.r1, s.userA, s.userB);
    BothIffAll(s.r2, s.userB, s.userA);
    match s.status
    case Preparation =>
    case Round1Active =>
    case Round1Feedback =>
    case Round2Active =>
    case Round2Feedback =>
  }

  lemma BothIffAll(r: Round, x: UserId, y: UserId)
    requires x != y && r.givers <= {x, y}
    ensures BothSubmitted(r) <==> {x, y} <= r.givers
  {
    if x !in r.givers {
      assert r.givers <= {y};
      Smaller(r.givers, {y});
    } else if y !in r.givers {
      assert r.givers <= {x};
      Smaller(r.givers, {x});
    } else {
      assert r.givers == {x, y};
    }
  }

  lemma {:induction false} Smaller(a: set<UserId>, b: set<UserId>)
    requires a <= b
    ensures |a| <= |b|
  {
    if a != {} {
      var x :| x in a;
      Smaller(a - {x}, b - {x});
    }
  }

  /** A new timed phase starts at the poll that enters it and its deadline is published with it. */
  lemma PhaseStartsAtPoll(s: Session, d: Durations, now: Time)
    requires Valid(s, d)
    requires var t := Advance(s, now, d); t.status != s.status && Timed(t.status)
    ensures var t := Advance(s, now, d);
            && PhaseStart(t) == Some(now)
            && t.endsAt == Some(now + PhaseLength(t.status, d))
            && t.version == s.version + 1
  {
  }

  /** The length of each phase, in the two modes, for production and for tests. */
  predicate EndsAfter(s: Session, production: nat, quick: nat, test: nat, quickTest: nat, testing: bool) {
    && PhaseStart(s).Some?
    && s.endsAt == Some(PhaseStart(s).value + if s.mode == "QUICK" then if testing then quickTest else quick
                                              else if testing then test else production)
  }

  /** In every run a timed phase is announced to last 30 s of preparation, 15 (or 5) min of interview, 2 (or 1) min of feedback. */
  lemma {:induction false} DeadlinesAre(a: UserId, b: UserId, room: RoomId, mode: string, now: Time, bank: seq<Problem>,
                                        testing: bool, events: seq<Event>)
    requires a != b
    ensures var s := Play(NewSession(a, b, room, mode, now), bank, ModeDurations(mode, testing), events);
            && s.mode == mode
            && (s.status.Preparation? ==> EndsAfter(s, 30_000, 30_000, 5_000, 3_000, testing))
            && (s.status.Round1Active? || s.status.Round2Active? ==> EndsAfter(s, 900_000, 300_000, 15_000, 15_000, testing))
            && (s.status.Round1Feedback? || s.status.Round2Feedback? ==> EndsAfter(s, 120_000, 60_000, 10_000, 10_000, testing))
  {
    var s := NewSession(a, b, room, mode, now);
    ValidAlways(s, bank, ModeDurations(mode, testing), events);
    ModeStays(s, bank, ModeDurations(mode, testing), events);
    hide Play, RoundsOk;
  }

  lemma {:induction false} ModeStays(s: Session, bank: seq<Problem>, d: Durations, events: seq<Event>)
    ensures Play(s, bank, d, events).mode == s.mode
  {
    if events != [] {
      var before, e := events[..|events| - 1], events[|events| - 1];
      ModeStays(s, bank, d, before);
      match e
      case Poll(at) => AdvanceKeepsContent(Play(s, bank, d, before), at, d);
      case Ask(q) => AskKeepsClock(Play(s, bank, d, before), bank, d, q);
    }
  }

  /** Leaving ends an unfinished session, whoever asks, and does nothing to one that is over. */
  lemma {:induction false} LeaveEnds(s: Session, bank: seq<Problem>)
    ensures var r := Handle(s, bank, Leave);
            && r.reply == Ok
            && (Terminal(s.status) ==> r.session == s)
            && (!Terminal(s.status) ==> r.session == s.(status := Abandoned, version := s.version + 1))
  {
  }

  // ---- Versions --------------------------------------------------------------------------------

  lemma OneVersionMore(s: Session, bank: seq<Problem>, d: Durations, e: Event)
    ensures var t := After(s, bank, d, e); t == s || t.version == s.version + 1
  {
    hide Choice;
    match e
    case Poll(at) =>
    case Ask(q) =>
  }

  /** How many of the events changed the session. */
  function Changes(s: Session, bank: seq<Problem>, d: Durations, events: seq<Event>): nat
    decreases |events|
  {
    if events == [] then 0 else
    var before := events[..|events| - 1];
    Changes(s, bank, d, before) + if Play(s, bank, d, events) != Play(s, bank, d, before) then 1 else 0
  }

  /** The version of a session is one more than the number of its changes. */
  lemma {:induction false} VersionCountsChanges(a: UserId, b: UserId, room: RoomId, mode: string, now: Time,
                                                bank: seq<Problem>, d: Durations, events: seq<Event>)
    ensures var s := NewSession(a, b, room, mode, now);
            Play(s, bank, d, events).version == 1 + Changes(s, bank, d, events)
  {
    if events != [] {
      var before := events[..|events| - 1];
      VersionCountsChanges(a, b, room, mode, now, bank, d, before);
      OneVersionMore(Play(NewSession(a, b, room, mode, now), bank, d, before), bank, d, events[|events| - 1]);
      hide After;
    }
  }

  /** Requests move neither the clock nor the phase; only leaving does, and it only ends the session. */
  lemma AskKeepsClock(s: Session, bank: seq<Problem>, d: Durations, q: Request)
    ensures var t := Handle(s, bank, q).session;
            && PhaseStart(t.(status := s.status)) == PhaseStart(s)
            && t.endsAt == s.endsAt && t.startedAt == s.startedAt && t.completedAt == s.completedAt
            && t.createdAt == s.createdAt && t.mode == s.mode
            && (t.status == s.status || (t.status == Abandoned && q.Leave? && !Terminal(s.status)))
  {
    match q
    case Leave =>
    case GiveFeedback(n, user) =>
    case Pick(n, user, problem, text) =>
    case SubmitCode(n, user, language, code, at) =>
  }

  // ---- Real-time bounds ------------------------------------------------------------------------

  /** The least and, up to one late poll a phase, the most time between the start and a phase. */
  function Earliest(status: Status, d: Durations): nat {
    match status
    case Round1Active => d.preparation
    case Round1Feedback => d.preparation + d.active
    case Round2Active => d.preparation + d.active
    case Round2Feedback => d.preparation + 2 * d.active
    case Completed => d.preparation + 2 * d.active
    case _ => 0
  }

  function Latest(status: Status, d: Durations, gap: nat): int {
    match status
    case Round1Active => d.preparation + gap - 1
    case Round1Feedback => d.preparation + d.active + 2 * gap - 2
    case Round2Active => d.preparation + d.active + d.feedback + 3 * gap - 3
    case Round2Feedback => d.preparation + 2 * d.active + d.feedback + 4 * gap - 4
    case Completed => d.preparation + 2 * d.active + 2 * d.feedback + 5 * gap - 5
    case _ => 0
  }

  ghost predicate OnTime(s: Session, d: Durations, last: Time, gap: nat) {
    match s.status
    case Created => last == s.createdAt
    case Abandoned => true
    case Canceled => false
    case Completed =>
      && s.startedAt.Some? && s.completedAt.Some?
      && s.startedAt.value + Earliest(Completed, d) <= s.completedAt.value <= s.startedAt.value + Latest(Completed, d, gap)
    case _ =>
      && s.startedAt.Some? && PhaseStart(s).Some?
      && s.createdAt <= s.startedAt.value <= s.createdAt + gap
      && s.startedAt.value + Earliest(s.status, d) <= PhaseStart(s).value <= s.startedAt.value + Latest(s.status, d, gap)
      && PhaseStart(s).value <= last < PhaseStart(s).value + PhaseLength(s.status, d)
  }

  predicate Positive(d: Durations) { d.preparation > 0 && d.active > 0 && d.feedback > 0 }

  lemma LastPhaseOnTime(s: Session, d: Durations, last: Time, now: Time, gap: nat)
    requires InPhase(s, d) && Positive(d) && OnTime(s, d, last, gap) && last <= now <= last + gap
    requires s.status.Round2Active? || s.status.Round2Feedback? || Terminal(s.status)
    ensures OnTime(Advance(s, now, d), d, now, gap)
  {
  }

  lemma PollOnTime(s: Session, d: Durations, last: Time, now: Time, gap: nat)
    requires Valid(s, d) && Positive(d) && OnTime(s, d, last, gap) && last <= now <= last + gap
    ensures OnTime(Advance(s, now, d), d, now, gap)
  {
    hide RoundsOk;
    match s.status
    case Created =>
    case Preparation =>
    case Round1Active =>
    case Round1Feedback =>
    case _ => LastPhaseOnTime(s, d, last, now, gap);
  }

  lemma AskOnTime(s: Session, bank: seq<Problem>, d: Durations, last: Time, q: Request, gap: nat)
    requires OnTime(s, d, last, gap)
    ensures OnTime(Handle(s, bank, q).session, d, last, gap)
  {
    AskKeepsClock(s, bank, d, q);
  }

  lemma {:induction false} AlwaysOnTime(s: Session, bank: seq<Problem>, d: Durations, events: seq<Event>, gap: nat)
    requires Valid(s, d) && Positive(d) && s.status == Created && Punctual(s.createdAt, events, gap)
    ensures OnTime(Play(s, bank, d, events), d, LastPoll(s.createdAt, events), gap)
  {
    if events != [] {
      var before, e := events[..|events| - 1], events[|events| - 1];
      AlwaysOnTime(s, bank, d, before, gap);
      ValidAlways(s, bank, d, before);
      match e
      case Poll(at) => PollOnTime(Play(s, bank, d, before), d, LastPoll(s.createdAt, before), at, gap);
      case Ask(q) => AskOnTime(Play(s, bank, d, before), bank, d, LastPoll(s.createdAt, before), q, gap);
    }
  }

  /** A completed interview took its preparation and rounds, and little more than all its phases. */
  lemma {:induction false} RealTimeBounds(a: UserId, b: UserId, room: RoomId, mode: string, now: Time,
                                          bank: seq<Problem>, testing: bool,
                       events: seq<Event>, gap: nat)
    requires a != b && Punctual(now, events, gap)
    requires Play(NewSession(a, b, room, mode, now), bank, ModeDurations(mode, testing), events).status == Completed
    ensures var d := ModeDurations(mode, testing);
            var s := Play(NewSession(a, b, room, mode, now), bank, d, events);
            && s.startedAt.Some? && s.completedAt.Some?
            && d.preparation + 2 * d.active
               <= s.completedAt.value - s.startedAt.value
               <= d.preparation + 2 * d.active + 2 * d.feedback + 5 * gap - 5
  {
    AlwaysOnTime(NewSession(a, b, room, mode, now), bank, ModeDurations(mode, testing), events, gap);
  }

  /** The most an interview can have aged without being over. */
  function OldestLive(d: Durations, gap: nat): int { d.preparation + 2 * d.active + 2 * d.feedback + 6 * gap - 5 }

  /** An interview that is not over was created less than six gaps and all its phases ago. */
  lemma LiveSessionIsYoung(s: Session, d: Durations, last: Time, gap: nat, now: Time)
    requires OnTime(s, d, last, gap) && !Terminal(s.status) && now <= last + gap && Positive(d)
    ensures now <= s.createdAt + OldestLive(d, gap)
  {
  }

  // ---- What the poll loop plays ----------------------------------------------------------------

  lemma {:induction false} PlayAppend(s: Session, bank: seq<Problem>, d: Durations, events: seq<Event>, more: seq<Event>)
    ensures Play(s, bank, d, events + more) == Play(Play(s, bank, d, events), bank, d, more)
  {
    if more == [] {
      assert events + more == events;
    } else {
      PlayAppend(s, bank, d, events, more[..|more| - 1]);
      assert (events + more)[..|events + more| - 1] == events + more[..|more| - 1];
    }
  }

  lemma PlayPoll(s: Session, bank: seq<Problem>, d: Durations, events: seq<Event>, at: Time)
    ensures Play(s, bank, d, events + [Poll(at)]) == Advance(Play(s, bank, d, events), at, d)
  {
    assert (events + [Poll(at)])[..|events|] == events;
  }

  function Asks(requests: seq<Request>): seq<Event> {
    if requests == [] then [] else Asks(requests[..|requests| - 1]) + [Ask(requests[|requests| - 1])]
  }

  lemma PlayAsk(s: Session, bank: seq<Problem>, d: Durations, requests: seq<Request>, j: nat)
    requires j < |requests|
    ensures Play(s, bank, d, Asks(requests[..j + 1])) == Handle(Play(s, bank, d, Asks(requests[..j])), bank, requests[j]).session
  {
    assert requests[..j + 1][..j] == requests[..j];
    var events := Asks(requests[..j]);
    assert (events + [Ask(requests[j])])[..|events|] == events;
  }

  /** The loop's first `count` polls, each with the requests served after it. */
  function Rounds(clock: nat -> Time, asked: nat -> seq<Request>, count: nat): seq<Event> {
    if count == 0 then [] else Rounds(clock, asked, count - 1) + [Poll(clock(count - 1))] + Asks(asked(count - 1))
  }

  /** ... and the last one, which ends the loop. */
  function LoopEvents(clock: nat -> Time, asked: nat -> seq<Request>, polls: nat): seq<Event>
    requires polls >= 1
  {
    Rounds(clock, asked, polls - 1) + [Poll(clock(polls - 1))]
  }

  /** The session is not over after any of the first `count` polls. */
  predicate NotOver(s: Session, bank: seq<Problem>, d: Durations, clock: nat -> Time, asked: nat -> seq<Request>, count: nat) {
    count == 0 ||
    (NotOver(s, bank, d, clock, asked, count - 1) && !Terminal(Play(s, bank, d, LoopEvents(clock, asked, count)).status))
  }

  lemma StillNotOver(s: Session, bank: seq<Problem>, d: Durations, clock: nat -> Time, asked: nat -> seq<Request>, count: nat)
    requires count >= 1 && !Terminal(Play(s, bank, d, LoopEvents(clock, asked, count)).status)
    ensures NotOver(s, bank, d, clock, asked, count - 1) ==> NotOver(s, bank, d, clock, asked, count)
  {
  }

  lemma PlayNothing(s: Session, bank: seq<Problem>, d: Durations, clock: nat -> Time, asked: nat -> seq<Request>)
    ensures Play(s, bank, d, []) == s && NotOver(s, bank, d, clock, asked, 0)
  {
  }

  // ---- The poll loop ends ----------------------------------------------------------------------

  const POLL_INTERVAL: nat := 2_000

  function Polls(span: int): nat { if span <= 0 then 0 else (span + POLL_INTERVAL - 1) / POLL_INTERVAL }

  function PollBound(d: Durations): nat { 1 + Polls(d.preparation) + 2 * Polls(d.active) + 2 * Polls(d.feedback) }

  /** In production that is at most 1,036 polls two seconds apart, or 376 in the quick mode. */
  lemma PollBoundIs(mode: string)
    ensures PollBound(ModeDurations(mode, false)) == if mode == "QUICK" then 376 else 1_036
  {
  }

  /** Polls needed for the phases after the current one. */
  function PollsBeyond(status: Status, d: Durations): nat {
    match status
    case Created => Polls(d.preparation) + 2 * Polls(d.active) + 2 * Polls(d.feedback)
    case Preparation => 2 * Polls(d.active) + 2 * Polls(d.feedback)
    case Round1Active => Polls(d.active) + 2 * Polls(d.feedback)
    case Round1Feedback => Polls(d.active) + Polls(d.feedback)
    case Round2Active => Polls(d.feedback)
    case _ => 0
  }

  /** How many polls the loop can still make after one at time `last`. */
  function PollsLeft(s: Session, d: Durations, last: Time): nat {
    if !Timed(s.status) then 1 + PollsBeyond(s.status, d)
    else if PhaseStart(s).None? then 0
    else Polls(PhaseStart(s).value + PhaseLength(s.status, d) - last) + PollsBeyond(s.status, d)
  }

  ghost predicate Pending(s: Session, d: Durations, last: Time) {
    Timed(s.status) ==>
      && PhaseStart(s).Some?
      && PhaseStart(s).value <= last < PhaseStart(s).value + PhaseLength(s.status, d)
  }

  lemma LatePollsAreSpent(s: Session, d: Durations, last: Time, now: Time)
    requires InPhase(s, d) && Positive(d) && Pending(s, d, last) && last + POLL_INTERVAL <= now
    requires s.status.Round1Feedback? || s.status.Round2Active? || s.status.Round2Feedback?
    ensures var t := Advance(s, now, d);
            Terminal(t.status) || (Pending(t, d, now) && PollsLeft(t, d, now) < PollsLeft(s, d, last))
  {
    match s.status
    case Round1Feedback =>
    case Round2Active =>
    case Round2Feedback =>
  }

  lemma PollsAreSpent(s: Session, d: Durations, last: Time, now: Time)
    requires Valid(s, d) && Positive(d) && Pending(s, d, last) && !Terminal(s.status)
    requires Timed(s.status) ==> last + POLL_INTERVAL <= now
    ensures var t := Advance(s, now, d);
            Terminal(t.status) || (Pending(t, d, now) && PollsLeft(t, d, now) < PollsLeft(s, d, last))
  {
    hide RoundsOk;
    match s.status
    case Created =>
    case Preparation =>
    case Round1Active =>
    case _ => LatePollsAreSpent(s, d, last, now);
  }

  lemma AskSpendsNoPolls(s: Session, bank: seq<Problem>, d: Durations, last: Time, q: Request)
    requires Pending(s, d, last) && PollsLeft(s, d, last) >= 1
    ensures var t := Handle(s, bank, q).session;
            Pending(t, d, last) && 1 <= PollsLeft(t, d, last) <= PollsLeft(s, d, last)
  {
    AskKeepsClock(s, bank, d, q);
  }
}
