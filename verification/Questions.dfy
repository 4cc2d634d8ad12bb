/** Which question a round shows, and what the session view shows of a round. */
module Questions {
  import opened Wrappers
  import opened Identity
  import opened Sessions
  import Lifecycle
  import Guests
  import Texts

  /** The digest of (session id, round number), as a number. */
  type Seed = (string, nat) -> nat

  datatype Shown = FromBank(problem: Problem) | Custom(text: string)

  function RoundIndex(n: RoundNumber): nat { if n.One? then 1 else 2 }

  function InRoom(bank: seq<Problem>, room: RoomId): seq<Problem> {
    if bank == [] then []
    else if bank[0].room == room then [bank[0]] + InRoom(bank[1..], room)
    else InRoom(bank[1..], room)
  }

  function InSlot(bank: seq<Problem>, slot: nat): seq<Problem> {
    if bank == [] then []
    else if bank[0].slot == slot then [bank[0]] + InSlot(bank[1..], slot)
    else InSlot(bank[1..], slot)
  }

  function PickProblem(bank: seq<Problem>, seed: Seed, session: string, n: RoundNumber): Option<Shown> {
    var candidates := InSlot(bank, RoundIndex(n));
    if candidates == [] then None
    else Some(FromBank(candidates[seed(session, RoundIndex(n)) % |candidates|]))
  }

  /** `bank` is the bank of the session's room. */
  function Resolve(problem: Option<ProblemId>, customText: Option<string>, bank: seq<Problem>, seed: Seed, session: string,
                   n: RoundNumber, started: bool): Option<Shown>
  {
    if problem.Some? then
      var p := Find(bank, problem.value);
      if p.Some? then Some(FromBank(p.value)) else None
    else if Given(customText) then Some(Custom(customText.value))
    else if started then PickProblem(bank, seed, session, n)
    else None
  }

  predicate Started(r: Round) { r.status != Pending || r.startedAt.Some? }

  function Question(s: Session, bank: seq<Problem>, seed: Seed, id: string, n: RoundNumber): Option<Shown> {
    var r := RoundOf(s, n);
    Resolve(r.problem, r.customText, InRoom(bank, s.room), seed, id, n, Started(r))
  }

  // ---- Picks -----------------------------------------------------------------------------------

  lemma {:induction false} FoundInRoom(bank: seq<Problem>, room: RoomId, id: ProblemId)
    requires Find(bank, id).Some? && Find(bank, id).value.room == room
    ensures Find(InRoom(bank, room), id) == Find(bank, id)
  {
    if bank[0].id != id {
      FoundInRoom(bank[1..], room, id);
      if bank[0].room == room {
        assert ([bank[0]] + InRoom(bank[1..], room))[1..] == InRoom(bank[1..], room);
      }
    }
  }

  lemma {:induction false} SlotMembers(bank: seq<Problem>, slot: nat)
    ensures forall p :: p in InSlot(bank, slot) <==> p in bank && p.slot == slot
  {
    if bank != [] {
      SlotMembers(bank[1..], slot);
    }
  }

  lemma {:induction false} RoomMembers(bank: seq<Problem>, room: RoomId)
    ensures forall p :: p in InRoom(bank, room) <==> p in bank && p.room == room
  {
    if bank != [] {
      RoomMembers(bank[1..], room);
    }
  }

  lemma {:induction false} InRoomSnoc(bank: seq<Problem>, p: Problem, room: RoomId)
    ensures InRoom(bank + [p], room) == InRoom(bank, room) + if p.room == room then [p] else []
  {
    if bank == [] {
      assert [p][1..] == [];
    } else {
      assert (bank + [p])[1..] == bank[1..] + [p];
      InRoomSnoc(bank[1..], p, room);
    }
  }

  lemma {:induction false} InSlotSnoc(bank: seq<Problem>, p: Problem, slot: nat)
    ensures InSlot(bank + [p], slot) == InSlot(bank, slot) + if p.slot == slot then [p] else []
  {
    if bank == [] {
      assert [p][1..] == [];
    } else {
      assert (bank + [p])[1..] == bank[1..] + [p];
      InSlotSnoc(bank[1..], p, slot);
    }
  }

  predicate Fits(p: Problem, room: RoomId, slot: nat) { p.room == room && p.slot == slot }

  /** How many problems of the bank fit. */
  function Fitting(bank: seq<Problem>, room: RoomId, slot: nat): nat {
    if bank == [] then 0
    else Fitting(bank[..|bank| - 1], room, slot) + if Fits(bank[|bank| - 1], room, slot) then 1 else 0
  }

  /** The problem at `i` fits, and exactly `k` before it do. */
  predicate IsNth(bank: seq<Problem>, room: RoomId, slot: nat, k: nat, i: nat) {
    i < |bank| && Fits(bank[i], room, slot) && Fitting(bank[..i], room, slot) == k
  }

  lemma {:induction false} NthCandidate(bank: seq<Problem>, room: RoomId, slot: nat, k: nat) returns (i: nat)
    ensures |InSlot(InRoom(bank, room), slot)| == Fitting(bank, room, slot)
    ensures k < Fitting(bank, room, slot) ==>
              IsNth(bank, room, slot, k, i) && InSlot(InRoom(bank, room), slot)[k] == bank[i]
  {
    i := 0;
    if bank != [] {
      var most, p := bank[..|bank| - 1], bank[|bank| - 1];
      assert bank == most + [p];
      i := NthCandidate(most, room, slot, k);
      InRoomSnoc(most, p, room);
      if p.room == room {
        InSlotSnoc(InRoom(most, room), p, slot);
      } else {
        assert InRoom(bank, room) == InRoom(most, room);
      }
      assert InSlot(InRoom(bank, room), slot) == InSlot(InRoom(most, room), slot) + if Fits(p, room, slot) then [p] else [];
      if k < Fitting(most, room, slot) {
        assert bank[..i] == most[..i];
      } else {
        i := |most|;
      }
    }
  }

  /**
   What a round shows: the picked problem while the room has it, and nothing when it is gone; else the
   interviewer's text; else, once started, of the problems of its room and slot the one whose number in
   the bank's order the digest gives.
   */
  lemma {:induction false} ShownQuestion(s: Session, bank: seq<Problem>, seed: Seed, id: string, n: RoundNumber)
    requires DistinctIds(bank)
    ensures var r, q := RoundOf(s, n), Question(s, bank, seed, id, n);
            var slot := if n.One? then 1 else 2;
            var count := Fitting(bank, s.room, slot);
            if r.problem.Some? then
              && (forall p :: p in bank && p.room == s.room && p.id == r.problem.value ==> q == Some(FromBank(p)))
              && ((forall p :: p in bank && p.room == s.room ==> p.id != r.problem.value) ==> q == None)
            else if Given(r.customText) then q == Some(Custom(r.customText.value))
            else if !Started(r) || count == 0 then q == None
            else exists i: nat :: IsNth(bank, s.room, slot, seed(id, slot) % count, i) && q == Some(FromBank(bank[i]))
  {
    var r := RoundOf(s, n);
    if r.problem.Some? {
      FoundHasId(InRoom(bank, s.room), r.problem.value);
      RoomMembers(bank, s.room);
      forall p | p in bank && p.room == s.room && p.id == r.problem.value
        ensures Find(InRoom(bank, s.room), r.problem.value) == Some(p)
      {
        FindIsComplete(bank, p);
        FoundInRoom(bank, s.room, p.id);
      }
    } else {
      var slot := RoundIndex(n);
      var count := Fitting(bank, s.room, slot);
      var i := NthCandidate(bank, s.room, slot, if count == 0 then 0 else seed(id, slot) % count);
    }
    hide Find;
  }

  /** The round and everything a pick does not touch. */
  predicate OtherRoundStays(s: Session, t: Session, n: RoundNumber) {
    RoundOf(t, Guests.Other(n)) == RoundOf(s, Guests.Other(n)) && t.room == s.room && t.status == s.status
  }

  /** An accepted pick is what the round shows from then on, and the other round is not touched. */
  lemma AcceptedPickIsShown(s: Session, bank: seq<Problem>, seed: Seed, id: string, n: RoundNumber, user: UserId,
                            problem: Option<ProblemId>, customText: Option<string>)
    requires Handle(s, bank, Pick(n, user, problem, customText)).reply == Ok
    ensures var t := Handle(s, bank, Pick(n, user, problem, customText)).session;
            && OtherRoundStays(s, t, n)
            && (Given(problem) ==>
                  !Given(customText)
                  && exists p :: p in bank && p.id == problem.value && p.room == s.room
                                 && Question(t, bank, seed, id, n) == Some(FromBank(p)))
            && (!Given(problem) ==>
                  Given(customText)
                  && Question(t, bank, seed, id, n) == Some(Custom(Strip(customText.value))))
  {
    if Given(problem) {
      FoundHasId(bank, problem.value);
      FoundInRoom(bank, s.room, problem.value);
    }
  }

  /** What an unpicked round shows: nothing before it starts, then a question of its own slot and room. */
  lemma UnpickedQuestion(s: Session, d: Durations, bank: seq<Problem>, seed: Seed, id: string, n: RoundNumber)
    requires Valid(s, d) && RoundOf(s, n).problem.None? && RoundOf(s, n).customText.None?
    ensures RoundOf(s, n).status == Pending ==> Question(s, bank, seed, id, n) == None
    ensures RoundOf(s, n).status != Pending ==>
              match Question(s, bank, seed, id, n)
              case Some(FromBank(p)) => p in bank && p.room == s.room && p.slot == RoundIndex(n)
              case Some(Custom(_)) => false
              case None => forall p :: p in bank && p.room == s.room ==> p.slot != RoundIndex(n)
  {
    RoomMembers(bank, s.room);
    SlotMembers(InRoom(bank, s.room), RoundIndex(n));
    var candidates := InSlot(InRoom(bank, s.room), RoundIndex(n));
    if candidates != [] {
      assert candidates[seed(id, RoundIndex(n)) % |candidates|] in candidates;
    } else {
      forall p | p in bank && p.room == s.room ensures p.slot != RoundIndex(n) {
        assert p in InRoom(bank, s.room);
        assert p !in candidates;
      }
    }
  }

  /** In every reachable state a round has a bank question or a text of the interviewer's, never both. */
  lemma {:induction false} OneChoiceAtMost(a: UserId, b: UserId, room: RoomId, mode: string, now: Time,
                                           bank: seq<Problem>, d: Durations,
                        events: seq<Lifecycle.Event>, n: RoundNumber)
    requires a != b
    ensures var r := RoundOf(Lifecycle.Play(NewSession(a, b, room, mode, now), bank, d, events), n);
            !(r.problem.Some? && r.customText.Some?)
  {
    Lifecycle.ValidAlways(NewSession(a, b, room, mode, now), bank, d, events);
  }

  // ---- Stability -------------------------------------------------------------------------------

  predicate AcceptsPick(s: Session, bank: seq<Problem>, e: Lifecycle.Event, n: RoundNumber) {
    e.Ask? && e.request.Pick? && e.request.round == n && Handle(s, bank, e.request).reply == Ok
  }

  predicate SameChoice(r: Round, q: Round) { q.problem == r.problem && q.customText == r.customText }

  lemma ChoiceSurvives(s: Session, bank: seq<Problem>, d: Durations, e: Lifecycle.Event, n: RoundNumber)
    requires !AcceptsPick(s, bank, e, n)
    ensures var t := Lifecycle.After(s, bank, d, e);
            && SameChoice(RoundOf(s, n), RoundOf(t, n)) && t.room == s.room
            && (Started(RoundOf(s, n)) ==> Started(RoundOf(t, n)))
  {
    match e
    case Poll(at) =>
      AdvanceKeepsContent(s, at, d);
      if Started(RoundOf(s, n)) {
        StartedStays(s, d, at, n);
      }
    case Ask(q) => AskKeepsStarted(s, bank, q, n);
  }

  lemma StartedStays(s: Session, d: Durations, at: Time, n: RoundNumber)
    requires Started(RoundOf(s, n))
    ensures Started(RoundOf(Advance(s, at, d), n))
  {
    match s.status
    case Created =>
    case Preparation =>
    case _ =>
  }

  lemma AskKeepsStarted(s: Session, bank: seq<Problem>, q: Request, n: RoundNumber)
    ensures var t := Handle(s, bank, q).session;
            && RoundOf(t, n).status == RoundOf(s, n).status && RoundOf(t, n).startedAt == RoundOf(s, n).startedAt
            && t.room == s.room
            && (SameChoice(RoundOf(s, n), RoundOf(t, n)) || (q.Pick? && q.round == n && Handle(s, bank, q).reply == Ok))
  {
    match q
    case Leave =>
    case GiveFeedback(m, user) =>
    case Pick(m, user, problem, text) =>
    case SubmitCode(m, user, language, code, at) =>
  }

  ghost predicate NoPicks(s: Session, bank: seq<Problem>, d: Durations, events: seq<Lifecycle.Event>, n: RoundNumber) {
    forall i :: 0 <= i < |events| ==> !AcceptsPick(Lifecycle.Play(s, bank, d, events[..i]), bank, events[i], n)
  }

  /** Once a round has started, its question changes only by an accepted pick for that round. */
  lemma {:induction false} QuestionIsStable(s: Session, bank: seq<Problem>, d: Durations,
                                            events: seq<Lifecycle.Event>, n: RoundNumber,
                                            seed: Seed, id: string)
    requires Started(RoundOf(s, n)) && NoPicks(s, bank, d, events, n)
    ensures var t := Lifecycle.Play(s, bank, d, events);
            && Started(RoundOf(t, n)) && t.room == s.room && SameChoice(RoundOf(s, n), RoundOf(t, n))
            && Question(t, bank, seed, id, n) == Question(s, bank, seed, id, n)
  {
    if events != [] {
      var before := events[..|events| - 1];
      forall i | 0 <= i < |before|
        ensures !AcceptsPick(Lifecycle.Play(s, bank, d, before[..i]), bank, before[i], n)
      {
        assert before[..i] == events[..i] && before[i] == events[i];
      }
      QuestionIsStable(s, bank, d, before, n, seed, id);
      assert !AcceptsPick(Lifecycle.Play(s, bank, d, events[..|events| - 1]), bank, events[|events| - 1], n);
      ChoiceSurvives(Lifecycle.Play(s, bank, d, before), bank, d, events[|events| - 1], n);
    }
  }

  lemma DoneStays(s: Session, bank: seq<Problem>, d: Durations, e: Lifecycle.Event, n: RoundNumber)
    requires Valid(s, d) && RoundOf(s, n).status == Done
    ensures RoundOf(Lifecycle.After(s, bank, d, e), n).status == Done
    ensures !AcceptsPick(s, bank, e, n)
  {
    match e
    case Poll(at) =>
      match s.status {
        case Round2Active =>
        case Round2Feedback =>
        case _ =>
      }
    case Ask(q) => AskKeepsStarted(s, bank, q, n);
  }

  /** ... and once the round is over, not at all. */
  lemma {:induction false} QuestionIsFinal(s: Session, bank: seq<Problem>, d: Durations,
                                           events: seq<Lifecycle.Event>, n: RoundNumber,
                                           seed: Seed, id: string)
    requires Valid(s, d) && RoundOf(s, n).status == Done
    ensures var t := Lifecycle.Play(s, bank, d, events);
            && RoundOf(t, n).status == Done && t.room == s.room && SameChoice(RoundOf(s, n), RoundOf(t, n))
            && Question(t, bank, seed, id, n) == Question(s, bank, seed, id, n)
  {
    if events != [] {
      var before, e := events[..|events| - 1], events[|events| - 1];
      QuestionIsFinal(s, bank, d, before, n, seed, id);
      Lifecycle.ValidAlways(s, bank, d, before);
      DoneStays(Lifecycle.Play(s, bank, d, before), bank, d, e, n);
      ChoiceSurvives(Lifecycle.Play(s, bank, d, before), bank, d, e, n);
    }
  }

  // ---- The session view ------------------------------------------------------------------------

  /** What `get_session` reports of a round. */
  datatype RoundView = RoundView(
    status: RoundStatus,
    interviewer: UserId,
    interviewee: UserId,
    question: Option<Shown>,
    givers: set<UserId>,
    code: Option<string>,
    language: Option<string>,
    submittedAt: Option<Time>)

  function ViewOfRow(s: Session, bank: seq<Problem>, seed: Seed, id: string, n: RoundNumber): RoundView {
    var r := RoundOf(s, n);
    RoundView(r.status, r.interviewer, r.interviewee, Question(s, bank, seed, id, n), r.givers,
              if r.submission.Some? then Some(r.submission.value.code) else None,
              if r.submission.Some? then Some(r.submission.value.language) else None,
              if r.submission.Some? then Some(r.submission.value.at) else None)
  }

  /** In every run the view names the roles, which change between the rounds, and says which round is active. */
  lemma {:induction false} ViewShowsRoles(a: UserId, b: UserId, room: RoomId, mode: string, now: Time, bank: seq<Problem>,
                                          d: Durations, events: seq<Lifecycle.Event>, seed: Seed, id: string, n: RoundNumber)
    requires a != b
    ensures var s := Lifecycle.Play(NewSession(a, b, room, mode, now), bank, d, events);
            var v := ViewOfRow(s, bank, seed, id, n);
            && v.interviewer == (if n.One? then a else b) && v.interviewee == (if n.One? then b else a)
            && v.givers <= {a, b}
            && (s.status != Abandoned ==>
                  && (v.status == Active <==> s.status == if n.One? then Round1Active else Round2Active)
                  && (v.status == InFeedback <==> s.status == if n.One? then Round1Feedback else Round2Feedback))
  {
    Lifecycle.ValidAlways(NewSession(a, b, room, mode, now), bank, d, events);
    PartiesStay(NewSession(a, b, room, mode, now), bank, d, events);
    hide Lifecycle.Play, Resolve;
  }

  lemma {:induction false} PartiesStay(s: Session, bank: seq<Problem>, d: Durations, events: seq<Lifecycle.Event>)
    ensures var t := Lifecycle.Play(s, bank, d, events); t.userA == s.userA && t.userB == s.userB
  {
    if events != [] {
      var before, e := events[..|events| - 1], events[|events| - 1];
      PartiesStay(s, bank, d, before);
      match e
      case Poll(at) => AdvanceKeepsContent(Lifecycle.Play(s, bank, d, before), at, d);
      case Ask(q) => HandleKeepsParties(Lifecycle.Play(s, bank, d, before), bank, q);
    }
  }

  /** Code is accepted from the interviewee only, in nine languages and up to 50,000 characters; it is what the view shows next. */
  lemma {:induction false} SubmissionIsShown(s: Session, bank: seq<Problem>, seed: Seed, id: string, n: RoundNumber, user: UserId,
                                             language: string, code: string, at: Time)
    ensures var r := Handle(s, bank, SubmitCode(n, user, language, code, at));
            var legal := |code| <= 50_000
                         && language in {"python", "javascript", "typescript", "java", "cpp", "c", "csharp", "go", "ruby"};
            && r.reply == (if !legal then Rejected(400) else if user != RoundOf(s, n).interviewee then Rejected(403) else Ok)
            && (r.reply != Ok ==> r.session == s)
            && (r.reply == Ok ==>
                  && OtherRoundStays(s, r.session, n) && r.session.version == s.version + 1
                  && ViewOfRow(r.session, bank, seed, id, n)
                     == ViewOfRow(s, bank, seed, id, n).(code := Some(code), language := Some(language), submittedAt := Some(at)))
  {
    hide Resolve;
  }

  /** Each participant's feedback for a round is accepted once, and shows in the view. */
  lemma {:induction false} FeedbackIsShown(s: Session, bank: seq<Problem>, seed: Seed, id: string, n: RoundNumber, user: UserId)
    ensures var r := Handle(s, bank, GiveFeedback(n, user));
            var part := user == RoundOf(s, n).interviewer || user == RoundOf(s, n).interviewee;
            && r.reply == (if !part then Rejected(403) else if user in RoundOf(s, n).givers then Rejected(409) else Ok)
            && (r.reply != Ok ==> r.session == s)
            && (r.reply == Ok ==>
                  && OtherRoundStays(s, r.session, n) && r.session.version == s.version + 1
                  && ViewOfRow(r.session, bank, seed, id, n)
                     == ViewOfRow(s, bank, seed, id, n).(givers := RoundOf(s, n).givers + {user}))
  {
    hide Resolve;
  }

  /** The guest branch reads a missing and an empty field alike. */
  function ViewOfHash(h: Guests.Hash, bank: seq<Problem>, seed: Seed, id: string, n: RoundNumber): RoundView {
    var status := Guests.ReadRoundStatus(h, n);
    var submitted := Guests.Chosen(h, Guests.Of(n, Guests.CodeSubmittedAt));
    var started := status in {Active, InFeedback, Done} || Guests.Of(n, Guests.StartOfRound) in h;
    RoundView(status, Guests.Interviewer(h, n), Guests.Interviewee(h, n),
              Resolve(Guests.Chosen(h, Guests.Of(n, Guests.ChosenProblem)), Guests.Chosen(h, Guests.Of(n, Guests.ChosenText)),
                      InRoom(bank, Guests.Text(h, Guests.Room)), seed, id, n, started),
              Guests.Givers(h, n),
              Guests.Chosen(h, Guests.Of(n, Guests.Code)), Guests.Chosen(h, Guests.Of(n, Guests.CodeLanguage)),
              if submitted.Some? then Some(Texts.Value(submitted.value)) else None)
  }

  lemma {:induction false} ViewsAgree(g: Guests.Guest, bank: seq<Problem>, seed: Seed, id: string, n: RoundNumber)
    requires RoundsOk(Guests.Abs(g)) && Guests.Kept(g.hash)
    ensures ViewOfHash(g.hash, bank, seed, id, n) == ViewOfRow(Guests.Abs(g), bank, seed, id, n)
            <==> !(RoundOf(Guests.Abs(g), n).submission.Some? && RoundOf(Guests.Abs(g), n).submission.value.code == "")
  {
    assert RoundOf(Guests.Abs(g), n) == Guests.ReadRound(g.hash, n);
  }

  lemma AheadLooksTheSame(s: Session, k: nat, bank: seq<Problem>, seed: Seed, id: string, n: RoundNumber)
    ensures ViewOfRow(Guests.Ahead(s, k), bank, seed, id, n) == ViewOfRow(s, bank, seed, id, n)
    ensures RoundOf(Guests.Ahead(s, k), n) == RoundOf(s, n) && (RoundsOk(Guests.Ahead(s, k)) <==> RoundsOk(s))
  {
  }

  /**
   In matching runs, whoever gives feedback, the guest and the registered session view of a round are the
   same, except exactly that an empty submission shows as empty code in one and as no code in the other.
   */
  lemma {:induction false} ViewsAgreeUnlessCodeIsEmpty(a: UserId, b: UserId, room: RoomId, mode: string, now: Time,
                                                       bank: seq<Problem>,
                                    testing: bool, events: seq<Lifecycle.Event>, seed: Seed, id: string, n: RoundNumber)
    requires a != b
    ensures var d := ModeDurations(mode, testing);
            var g := Guests.PlayGuest(Guests.NewGuest(a, b, room, mode, now), bank, d, events);
            var s := Lifecycle.Play(NewSession(a, b, room, mode, now), bank, d, events);
            ViewOfHash(g.hash, bank, seed, id, n) == ViewOfRow(s, bank, seed, id, n)
            <==> !(RoundOf(s, n).submission.Some? && RoundOf(s, n).submission.value.code == "")
  {
    var d := ModeDurations(mode, testing);
    var start := Guests.NewGuest(a, b, room, mode, now);
    Guests.NewGuestIsNewSession(a, b, room, mode, now);
    NewSessionIsValid(a, b, room, mode, now, d);
    Guests.RunSimulatesUpToOutsiders(start, bank, d, events);
    var s := Lifecycle.Play(NewSession(a, b, room, mode, now), bank, d, events);
    Lifecycle.ValidAlways(NewSession(a, b, room, mode, now), bank, d, events);
    AheadLooksTheSame(s, Guests.OutsidersNoted(start, bank, d, events), bank, seed, id, n);
    ViewsAgree(Guests.PlayGuest(start, bank, d, events), bank, seed, id, n);
    hide Guests.Abs, Guests.Ahead, Guests.PlayGuest, Guests.NewGuest, Guests.OutsidersNoted, Guests.Kept, NewSession, ViewOfHash,
         ViewOfRow, InPhase, RoundsOk;
  }
}
