/** Guest sessions: a Redis hash of strings in which missing or empty fields stand for defaults. */
module Guests {
  import opened Wrappers
  import opened Identity
  import opened Sessions
  import opened Texts
  import Lifecycle
  import Redis

  datatype Part =
    | StatusOfRound | StartOfRound | EndOfRound | ChosenProblem | ChosenText | Code | CodeLanguage | CodeSubmittedAt
    | FeedbackBy(user: UserId)

  datatype Field =
    | UserA | UserB | Room | Mode | StatusOfSession | CreatedAt | Version | StartedAt | CompletedAt
    | Of(n: RoundNumber, part: Part)

  type Hash = map<Field, string>

  /** The hash and the session's ends_at key. */
  datatype Guest = Guest(hash: Hash, endsAt: Option<Time>)

  // ---- Reading ---------------------------------------------------------------------------------

  function Text(h: Hash, f: Field): string { if f in h then h[f] else "" }

  function Stamp(h: Hash, f: Field): Option<Time> { if Text(h, f) == "" then None else Some(FromSeconds(h[f])) }

  function Chosen(h: Hash, f: Field): Option<string> { if Text(h, f) == "" then None else Some(h[f]) }

  function ReadVersion(h: Hash): nat { if Version in h then Value(h[Version]) else 1 }

  function ReadStatus(h: Hash): Status {
    var s := StatusOf(Text(h, StatusOfSession));
    if s.Some? then s.value else Canceled
  }

  function ReadMode(h: Hash): string { if Mode in h then h[Mode] else "STANDARD" }

  function ReadRoundStatus(h: Hash, n: RoundNumber): RoundStatus {
    var s := RoundStatusOf(Text(h, Of(n, StatusOfRound)));
    if s.Some? then s.value else Pending
  }

  function Giver(h: Hash, n: RoundNumber, u: UserId): set<UserId> { if Of(n, FeedbackBy(u)) in h then {u} else {} }

  function Givers(h: Hash, n: RoundNumber): set<UserId> {
    Giver(h, n, Text(h, UserA)) + Giver(h, n, Text(h, UserB))
  }

  function AbsRound(h: Hash, n: RoundNumber, interviewer: UserId, interviewee: UserId): Round {
    Round(interviewer, interviewee, ReadRoundStatus(h, n), Stamp(h, Of(n, StartOfRound)), Stamp(h, Of(n, EndOfRound)),
          Givers(h, n), Chosen(h, Of(n, ChosenProblem)), Chosen(h, Of(n, ChosenText)),
          if Of(n, Code) in h
          then Some(Submission(Text(h, Of(n, CodeLanguage)), h[Of(n, Code)], Value(Text(h, Of(n, CodeSubmittedAt))))) else None)
  }

  /** The session a hash stands for. */
  function Abs(g: Guest): Session {
    var h := g.hash;
    var a, b := Text(h, UserA), Text(h, UserB);
    Session(a, b, Text(h, Room), ReadMode(h), ReadStatus(h), ReadVersion(h),
            Value(Text(h, CreatedAt)), Stamp(h, StartedAt), Stamp(h, CompletedAt),
            AbsRound(h, One, a, b), AbsRound(h, Two, b, a), g.endsAt)
  }

  // ---- Writing ---------------------------------------------------------------------------------

  function NewGuest(a: UserId, b: UserId, room: RoomId, mode: string, now: Time): Guest {
    Guest(map[UserA := a, UserB := b, Room := room, Mode := mode, StatusOfSession := StatusText(Created),
              CreatedAt := Number(now)], None)
  }

  function NextVersion(h: Hash): string { Number(ReadVersion(h) + 1) }

  function Bumped(h: Hash): Hash { h[Version := NextVersion(h)] }

  function StampOr(h: Hash, f: Field, now: Time): Time { if Text(h, f) == "" then now else FromSeconds(h[f]) }

  predicate BothGave(h: Hash, n: RoundNumber) {
    Of(n, FeedbackBy(Text(h, UserA))) in h && Of(n, FeedbackBy(Text(h, UserB))) in h
  }

  function SetStatus(h: Hash, s: Status): Hash { h[StatusOfSession := StatusText(s)] }

  function SetRound(h: Hash, n: RoundNumber, s: RoundStatus): Hash { h[Of(n, StatusOfRound) := RoundStatusText(s)] }

  function GuestAdvance(g: Guest, now: Time, d: Durations): Guest {
    var h := g.hash;
    match ReadStatus(h)
    case Created =>
      Guest(Bumped(SetStatus(h, Preparation)[StartedAt := Seconds(now)]), Some(now + d.preparation))
    case Preparation =>
      if now - StampOr(h, StartedAt, now) < d.preparation then g
      else Guest(Bumped(SetRound(SetStatus(h, Round1Active), One, Active)[Of(One, StartOfRound) := Seconds(now)]),
                 Some(now + d.active))
    case Round1Active =>
      if now - StampOr(h, Of(One, StartOfRound), now) < d.active then g
      else Guest(Bumped(SetRound(SetStatus(h, Round1Feedback), One, InFeedback)[Of(One, EndOfRound) := Seconds(now)]),
                 Some(now + d.feedback))
    case Round1Feedback =>
      if now - StampOr(h, Of(One, EndOfRound), now) < d.feedback && !BothGave(h, One) then g
      else Guest(Bumped(SetRound(SetRound(SetStatus(h, Round2Active), One, Done), Two, Active)
                        [Of(Two, StartOfRound) := Seconds(now)]),
                 Some(now + d.active))
    case Round2Active =>
      if now - StampOr(h, Of(Two, StartOfRound), now) < d.active then g
      else Guest(Bumped(SetRound(SetStatus(h, Round2Feedback), Two, InFeedback)[Of(Two, EndOfRound) := Seconds(now)]),
                 Some(now + d.feedback))
    case Round2Feedback =>
      if now - StampOr(h, Of(Two, EndOfRound), now) < d.feedback && !BothGave(h, Two) then g
      else Guest(Bumped(SetRound(SetStatus(h, Completed), Two, Done)[CompletedAt := Seconds(now)]), g.endsAt)
    case Completed => g
    case Abandoned => g
    case Canceled => g
  }

  datatype GuestResponse = GuestResponse(guest: Guest, reply: Reply)

  /** What a feedback field holds; only that it is not empty matters. */
  const FEEDBACK_RECORD: string := "{\"scores\": {}, \"comments\": null}"

  function GuestLeave(g: Guest): GuestResponse {
    GuestResponse(if Terminal(ReadStatus(g.hash)) then g
                  else g.(hash := Bumped(SetStatus(g.hash, Abandoned))), Ok)
  }

  /** Nothing here asks whether `user` takes part. */
  function GuestFeedback(g: Guest, n: RoundNumber, user: UserId): GuestResponse {
    if Text(g.hash, Of(n, FeedbackBy(user))) != "" then GuestResponse(g, Rejected(409))
    else GuestResponse(g.(hash := Bumped(g.hash[Of(n, FeedbackBy(user)) := FEEDBACK_RECORD])), Ok)
  }

  function Interviewer(h: Hash, n: RoundNumber): UserId { if n.One? then Text(h, UserA) else Text(h, UserB) }
  function Interviewee(h: Hash, n: RoundNumber): UserId { if n.One? then Text(h, UserB) else Text(h, UserA) }

  function OrEmpty(t: Option<string>): string { if t.Some? then t.value else "" }

  function SetChoice(h: Hash, n: RoundNumber, id: Option<ProblemId>, text: Option<string>): Hash {
    h[Of(n, ChosenProblem) := OrEmpty(id)][Of(n, ChosenText) := OrEmpty(text)]
  }

  function SetCode(h: Hash, n: RoundNumber, language: string, code: string, at: Time): Hash {
    h[Of(n, Code) := code][Of(n, CodeLanguage) := language][Of(n, CodeSubmittedAt) := Number(at)]
  }

  function GuestPick(g: Guest, bank: seq<Problem>, n: RoundNumber, user: UserId, problem: Option<ProblemId>,
                     customText: Option<string>): GuestResponse
  {
    if user != Interviewer(g.hash, n) then GuestResponse(g, Rejected(403))
    else if Text(g.hash, Of(n, StatusOfRound)) == RoundStatusText(Done) then GuestResponse(g, Rejected(409))
    else
      var (reply, id, text) := Choice(bank, Text(g.hash, Room), problem, customText);
      if reply != Ok then GuestResponse(g, reply)
      else GuestResponse(g.(hash := Bumped(SetChoice(g.hash, n, id, text))), Ok)
  }

  function GuestSubmit(g: Guest, n: RoundNumber, user: UserId, language: string, code: string, at: Time): GuestResponse {
    if language !in SUPPORTED_LANGUAGES || |code| > 50_000 then GuestResponse(g, Rejected(400))
    else if user != Interviewee(g.hash, n) then GuestResponse(g, Rejected(403))
    else GuestResponse(g.(hash := Bumped(SetCode(g.hash, n, language, code, at))), Ok)
  }

  function GuestHandle(g: Guest, bank: seq<Problem>, q: Request): GuestResponse {
    match q
    case Leave => GuestLeave(g)
    case GiveFeedback(n, user) => GuestFeedback(g, n, user)
    case Pick(n, user, problem, text) => GuestPick(g, bank, n, user, problem, text)
    case SubmitCode(n, user, language, code, at) => GuestSubmit(g, n, user, language, code, at)
  }

  // ---- Simulation ------------------------------------------------------------------------------

  /** A feedback or start field that exists holds something, and code comes with its language and time. */
  ghost predicate Kept(h: Hash) {
    && (forall n, u :: Of(n, FeedbackBy(u)) in h ==> h[Of(n, FeedbackBy(u))] != "")
    && (forall n :: Of(n, StartOfRound) in h ==> h[Of(n, StartOfRound)] != "")
    && (forall n :: Of(n, Code) in h <==> Of(n, CodeLanguage) in h)
    && (forall n :: Of(n, Code) in h <==> Of(n, CodeSubmittedAt) in h && h[Of(n, CodeSubmittedAt)] != "")
  }

  lemma FreshRound(h: Hash, n: RoundNumber, x: UserId, y: UserId)
    requires h.Keys <= {UserA, UserB, Room, Mode, StatusOfSession, CreatedAt}
    ensures AbsRound(h, n, x, y) == NewRound(x, y)
  {
    EmptyIsNoStatus(ROUND_STATUSES);
    hide FindRoundStatus;
    assert Giver(h, n, Text(h, UserA)) == {} && Giver(h, n, Text(h, UserB)) == {};
  }

  lemma NewGuestFields(a: UserId, b: UserId, room: RoomId, mode: string, now: Time)
    ensures var h := NewGuest(a, b, room, mode, now).hash;
            && h.Keys == {UserA, UserB, Room, Mode, StatusOfSession, CreatedAt}
            && h[UserA] == a && h[UserB] == b && h[Room] == room && h[Mode] == mode
            && h[StatusOfSession] == StatusText(Created) && h[CreatedAt] == Number(now)
            && Kept(h)
  {
  }

  lemma NewGuestIsNewSession(a: UserId, b: UserId, room: RoomId, mode: string, now: Time)
    ensures Abs(NewGuest(a, b, room, mode, now)) == NewSession(a, b, room, mode, now)
    ensures Kept(NewGuest(a, b, room, mode, now).hash)
  {
    StatusReadsBack(Created);
    NumberReadsBack(now);
    NewGuestFields(a, b, room, mode, now);
    var g := NewGuest(a, b, room, mode, now);
    assert g.endsAt == None;
    hide NewGuest, Kept, StatusText, Number, Seconds;
    FreshRound(g.hash, One, a, b);
    FreshRound(g.hash, Two, b, a);
    hide AbsRound;
  }

  // Each write changes one thing about the session the hash stands for.

  function Other(n: RoundNumber): RoundNumber { if n.One? then Two else One }

  lemma OtherRound(h: Hash, f: Field, t: string, n: RoundNumber, x: UserId, y: UserId)
    requires f != UserA && f != UserB && (f.Of? ==> f.n != n)
    ensures AbsRound(h[f := t], n, x, y) == AbsRound(h, n, x, y)
  {
  }

  lemma SameHeader(h: Hash, k: Hash, e: Option<Time>)
    requires forall f: Field :: !f.Of? ==> Text(k, f) == Text(h, f) && (f in k <==> f in h)
    ensures var a, b := Text(h, UserA), Text(h, UserB);
            && Abs(Guest(k, e)) == Abs(Guest(h, e)).(r1 := AbsRound(k, One, a, b), r2 := AbsRound(k, Two, b, a))
            && Abs(Guest(h, e)).r1 == AbsRound(h, One, a, b) && Abs(Guest(h, e)).r2 == AbsRound(h, Two, b, a)
  {
  }

  /** A write to the header leaves both rounds as they were. */
  lemma SameRounds(h: Hash, f: Field, t: string)
    requires !f.Of? && f != UserA && f != UserB
    ensures var a, b := Text(h, UserA), Text(h, UserB);
            AbsRound(h[f := t], One, a, b) == AbsRound(h, One, a, b) && AbsRound(h[f := t], Two, b, a) == AbsRound(h, Two, b, a)
  {
    OtherRound(h, f, t, One, Text(h, UserA), Text(h, UserB));
    OtherRound(h, f, t, Two, Text(h, UserB), Text(h, UserA));
  }

  lemma WroteStatus(h: Hash, e: Option<Time>, s: Status)
    ensures Abs(Guest(SetStatus(h, s), e)) == Abs(Guest(h, e)).(status := s)
  {
    hide AbsRound;
    StatusReadsBack(s);
    SameRounds(h, StatusOfSession, StatusText(s));
  }

  lemma WroteVersion(h: Hash, e: Option<Time>)
    ensures Abs(Guest(Bumped(h), e)) == Bump(Abs(Guest(h, e)))
  {
    hide AbsRound;
    NumberReadsBack(ReadVersion(h) + 1);
    SameRounds(h, Version, NextVersion(h));
  }

  lemma WroteStart(h: Hash, e: Option<Time>, now: Time)
    ensures Abs(Guest(h[StartedAt := Seconds(now)], e)) == Abs(Guest(h, e)).(startedAt := Some(now))
  {
    hide AbsRound;
    SecondsReadBack(now);
    SameRounds(h, StartedAt, Seconds(now));
  }

  lemma WroteCompletion(h: Hash, e: Option<Time>, now: Time)
    ensures Abs(Guest(h[CompletedAt := Seconds(now)], e)) == Abs(Guest(h, e)).(completedAt := Some(now))
  {
    hide AbsRound;
    SecondsReadBack(now);
    SameRounds(h, CompletedAt, Seconds(now));
  }

  /** A write to one round leaves the header and the other round as they were. */
  lemma WroteRound(h: Hash, e: Option<Time>, n: RoundNumber, f: Field, t: string)
    requires f.Of? && f.n == n
    ensures var was := Abs(Guest(h, e));
            && Abs(Guest(h[f := t], e)) == WithRound(was, n, ReadRound(h[f := t], n))
            && RoundOf(was, n) == ReadRound(h, n)
  {
    SameHeader(h, h[f := t], e);
    OtherRound(h, f, t, Other(n), Interviewer(h, Other(n)), Interviewee(h, Other(n)));
  }

  function ReadRound(h: Hash, n: RoundNumber): Round { AbsRound(h, n, Interviewer(h, n), Interviewee(h, n)) }

  lemma RoundStart(h: Hash, n: RoundNumber, now: Time)
    ensures ReadRound(h[Of(n, StartOfRound) := Seconds(now)], n) == ReadRound(h, n).(startedAt := Some(now))
  {
    SecondsReadBack(now);
  }

  lemma RoundEnd(h: Hash, n: RoundNumber, now: Time)
    ensures ReadRound(h[Of(n, EndOfRound) := Seconds(now)], n) == ReadRound(h, n).(endedAt := Some(now))
  {
    SecondsReadBack(now);
  }

  lemma RoundStatusWrite(h: Hash, n: RoundNumber, s: RoundStatus)
    ensures ReadRound(SetRound(h, n, s), n) == ReadRound(h, n).(status := s)
  {
    RoundStatusReadsBack(s);
  }

  lemma WroteRoundStatus(h: Hash, e: Option<Time>, n: RoundNumber, s: RoundStatus)
    ensures var was := Abs(Guest(h, e));
            Abs(Guest(SetRound(h, n, s), e)) == WithRound(was, n, RoundOf(was, n).(status := s))
  {
    hide Abs, ReadRound;
    RoundStatusWrite(h, n, s);
    WroteRound(h, e, n, Of(n, StatusOfRound), RoundStatusText(s));
  }

  lemma WroteRoundStart(h: Hash, e: Option<Time>, n: RoundNumber, now: Time)
    ensures var was := Abs(Guest(h, e));
            Abs(Guest(h[Of(n, StartOfRound) := Seconds(now)], e)) == WithRound(was, n, RoundOf(was, n).(startedAt := Some(now)))
  {
    hide Abs, ReadRound;
    RoundStart(h, n, now);
    WroteRound(h, e, n, Of(n, StartOfRound), Seconds(now));
  }

  lemma WroteRoundEnd(h: Hash, e: Option<Time>, n: RoundNumber, now: Time)
    ensures var was := Abs(Guest(h, e));
            Abs(Guest(h[Of(n, EndOfRound) := Seconds(now)], e)) == WithRound(was, n, RoundOf(was, n).(endedAt := Some(now)))
  {
    hide Abs, ReadRound;
    RoundEnd(h, n, now);
    WroteRound(h, e, n, Of(n, EndOfRound), Seconds(now));
  }

  lemma RoundGivers(h: Hash, n: RoundNumber, user: UserId)
    requires user == Text(h, UserA) || user == Text(h, UserB)
    ensures ReadRound(h[Of(n, FeedbackBy(user)) := FEEDBACK_RECORD], n)
         == ReadRound(h, n).(givers := ReadRound(h, n).givers + {user})
  {
    assert Givers(h[Of(n, FeedbackBy(user)) := FEEDBACK_RECORD], n) == Givers(h, n) + {user};
  }

  lemma WroteFeedback(h: Hash, e: Option<Time>, n: RoundNumber, user: UserId)
    requires user == Text(h, UserA) || user == Text(h, UserB)
    ensures var was := Abs(Guest(h, e));
            Abs(Guest(h[Of(n, FeedbackBy(user)) := FEEDBACK_RECORD], e))
            == WithRound(was, n, RoundOf(was, n).(givers := RoundOf(was, n).givers + {user}))
  {
    hide Abs, ReadRound;
    RoundGivers(h, n, user);
    WroteRound(h, e, n, Of(n, FeedbackBy(user)), FEEDBACK_RECORD);
  }

  lemma RoundChoice(h: Hash, n: RoundNumber, id: Option<ProblemId>, text: Option<string>)
    requires id != Some("") && text != Some("")
    ensures ReadRound(SetChoice(h, n, id, text), n) == ReadRound(h, n).(problem := id, customText := text)
  {
  }

  lemma WroteChoice(h: Hash, e: Option<Time>, n: RoundNumber, id: Option<ProblemId>, text: Option<string>)
    requires id != Some("") && text != Some("")
    ensures var was := Abs(Guest(h, e));
            Abs(Guest(SetChoice(h, n, id, text), e)) == WithRound(was, n, RoundOf(was, n).(problem := id, customText := text))
  {
    hide Abs, ReadRound;
    RoundChoice(h, n, id, text);
    WroteRound(h, e, n, Of(n, ChosenProblem), OrEmpty(id));
    WroteRound(h[Of(n, ChosenProblem) := OrEmpty(id)], e, n, Of(n, ChosenText), OrEmpty(text));
  }

  lemma RoundCode(h: Hash, n: RoundNumber, language: string, code: string, at: Time)
    ensures ReadRound(SetCode(h, n, language, code, at), n)
         == ReadRound(h, n).(submission := Some(Submission(language, code, at)))
  {
    NumberReadsBack(at);
  }

  lemma WroteCode(h: Hash, e: Option<Time>, n: RoundNumber, language: string, code: string, at: Time)
    ensures var was := Abs(Guest(h, e));
            Abs(Guest(SetCode(h, n, language, code, at), e))
            == WithRound(was, n, RoundOf(was, n).(submission := Some(Submission(language, code, at))))
  {
    hide Abs, ReadRound;
    var h1 := h[Of(n, Code) := code];
    var h2 := h1[Of(n, CodeLanguage) := language];
    RoundCode(h, n, language, code, at);
    WroteRound(h, e, n, Of(n, Code), code);
    WroteRound(h1, e, n, Of(n, CodeLanguage), language);
    WroteRound(h2, e, n, Of(n, CodeSubmittedAt), Number(at));
  }

  // ---- Every guest step is the registered step ---------------------------------------------------

  lemma BothGaveMeansBothSubmitted(g: Guest, n: RoundNumber)
    requires Text(g.hash, UserA) != Text(g.hash, UserB)
    ensures BothGave(g.hash, n) <==> BothSubmitted(RoundOf(Abs(g), n))
  {
    var a, b := Text(g.hash, UserA), Text(g.hash, UserB);
    assert RoundOf(Abs(g), n).givers == Givers(g.hash, n);
    Lifecycle.BothIffAll(ReadRound(g.hash, n), a, b);
  }

  lemma ReadsAgree(g: Guest)
    ensures var s := Abs(g); var h := g.hash;
            && s.status == ReadStatus(h) && s.startedAt == Stamp(h, StartedAt)
            && s.r1.startedAt == Stamp(h, Of(One, StartOfRound)) && s.r1.endedAt == Stamp(h, Of(One, EndOfRound))
            && s.r2.startedAt == Stamp(h, Of(Two, StartOfRound)) && s.r2.endedAt == Stamp(h, Of(Two, EndOfRound))
            && s.endsAt == g.endsAt && s.userA == Text(h, UserA) && s.userB == Text(h, UserB)
  {
  }

  lemma WroteEndsAt(h: Hash, e: Option<Time>, f: Option<Time>)
    ensures Abs(Guest(h, f)) == Abs(Guest(h, e)).(endsAt := f)
  {
    hide AbsRound;
  }

  lemma CreatedSimulates(g: Guest, now: Time, d: Durations)
    requires ReadStatus(g.hash) == Created
    ensures Abs(GuestAdvance(g, now, d)) == Advance(Abs(g), now, d)
  {
    ReadsAgree(g);
    hide Abs, Bumped, SetStatus, Seconds, StatusText;
    var h1 := SetStatus(g.hash, Preparation);
    var h2 := h1[StartedAt := Seconds(now)];
    WroteStatus(g.hash, g.endsAt, Preparation);
    WroteStart(h1, g.endsAt, now);
    WroteVersion(h2, g.endsAt);
    WroteEndsAt(Bumped(h2), g.endsAt, Some(now + d.preparation));
  }

  lemma StartRoundSimulates(h: Hash, e: Option<Time>, n: RoundNumber, to: Status, now: Time, ends: Time)
    ensures var s := Abs(Guest(h, e));
            Abs(Guest(Bumped(SetRound(SetStatus(h, to), n, Active)[Of(n, StartOfRound) := Seconds(now)]), Some(ends)))
            == WithRound(Bump(s), n, Start(RoundOf(s, n), now)).(status := to, endsAt := Some(ends))
  {
    hide Abs;
    var h1 := SetStatus(h, to);
    var h2 := SetRound(h1, n, Active);
    var h3 := h2[Of(n, StartOfRound) := Seconds(now)];
    WroteStatus(h, e, to);
    WroteRoundStatus(h1, e, n, Active);
    WroteRoundStart(h2, e, n, now);
    WroteVersion(h3, e);
    WroteEndsAt(Bumped(h3), e, Some(ends));
  }

  lemma StopRoundSimulates(h: Hash, e: Option<Time>, n: RoundNumber, to: Status, now: Time, ends: Time)
    ensures var s := Abs(Guest(h, e));
            Abs(Guest(Bumped(SetRound(SetStatus(h, to), n, InFeedback)[Of(n, EndOfRound) := Seconds(now)]), Some(ends)))
            == WithRound(Bump(s), n, Stop(RoundOf(s, n), now)).(status := to, endsAt := Some(ends))
  {
    hide Abs;
    var h1 := SetStatus(h, to);
    var h2 := SetRound(h1, n, InFeedback);
    var h3 := h2[Of(n, EndOfRound) := Seconds(now)];
    WroteStatus(h, e, to);
    WroteRoundStatus(h1, e, n, InFeedback);
    WroteRoundEnd(h2, e, n, now);
    WroteVersion(h3, e);
    WroteEndsAt(Bumped(h3), e, Some(ends));
  }

  lemma SwitchRoundsSimulates(h: Hash, e: Option<Time>, now: Time, ends: Time)
    ensures var s := Abs(Guest(h, e));
            Abs(Guest(Bumped(SetRound(SetRound(SetStatus(h, Round2Active), One, Done), Two, Active)
                             [Of(Two, StartOfRound) := Seconds(now)]),
                      Some(ends)))
            == Bump(s).(status := Round2Active, r1 := s.r1.(status := Done), r2 := Start(s.r2, now), endsAt := Some(ends))
  {
    hide Abs;
    var h1 := SetStatus(h, Round2Active);
    var h2 := SetRound(h1, One, Done);
    var h3 := SetRound(h2, Two, Active);
    var h4 := h3[Of(Two, StartOfRound) := Seconds(now)];
    WroteStatus(h, e, Round2Active);
    WroteRoundStatus(h1, e, One, Done);
    WroteRoundStatus(h2, e, Two, Active);
    WroteRoundStart(h3, e, Two, now);
    WroteVersion(h4, e);
    WroteEndsAt(Bumped(h4), e, Some(ends));
  }

  lemma CompleteSimulates(h: Hash, e: Option<Time>, now: Time)
    ensures var s := Abs(Guest(h, e));
            Abs(Guest(Bumped(SetRound(SetStatus(h, Completed), Two, Done)[CompletedAt := Seconds(now)]), e))
            == Bump(s).(status := Completed, r2 := s.r2.(status := Done), completedAt := Some(now))
  {
    hide Abs;
    var h1 := SetStatus(h, Completed);
    var h2 := SetRound(h1, Two, Done);
    WroteStatus(h, e, Completed);
    WroteRoundStatus(h1, e, Two, Done);
    WroteCompletion(h2, e, now);
    WroteVersion(h2[CompletedAt := Seconds(now)], e);
  }

  lemma TimersAgree(h: Hash, f: Field, duration: nat, now: Time)
    requires duration > 0
    ensures now - StampOr(h, f, now) < duration <==> !Elapsed(Stamp(h, f), duration, now)
  {
  }

  /** Polling a guest session does to it what polling a registered one does, from every valid state. */
  lemma {:induction false} AdvanceSimulates(g: Guest, now: Time, d: Durations)
    requires Valid(Abs(g), d) && Lifecycle.Positive(d)
    ensures Abs(GuestAdvance(g, now, d)) == Advance(Abs(g), now, d)
  {
    var s, h := Abs(g), g.hash;
    ReadsAgree(g);
    hide Abs, Bumped, SetStatus, SetRound, ReadStatus, Stamp, StampOr, BothGave, BothSubmitted, Text, RoundsOk;
    match s.status
    case Created => CreatedSimulates(g, now, d);
    case Preparation =>
      TimersAgree(h, StartedAt, d.preparation, now);
      StartRoundSimulates(h, g.endsAt, One, Round1Active, now, now + d.active);
    case Round1Active =>
      TimersAgree(h, Of(One, StartOfRound), d.active, now);
      StopRoundSimulates(h, g.endsAt, One, Round1Feedback, now, now + d.feedback);
    case Round1Feedback =>
      TimersAgree(h, Of(One, EndOfRound), d.feedback, now);
      BothGaveMeansBothSubmitted(g, One);
      SwitchRoundsSimulates(h, g.endsAt, now, now + d.active);
    case Round2Active =>
      TimersAgree(h, Of(Two, StartOfRound), d.active, now);
      StopRoundSimulates(h, g.endsAt, Two, Round2Feedback, now, now + d.feedback);
    case Round2Feedback =>
      TimersAgree(h, Of(Two, EndOfRound), d.feedback, now);
      BothGaveMeansBothSubmitted(g, Two);
      CompleteSimulates(h, g.endsAt, now);
    case _ =>
  }

  ghost predicate Participant(g: Guest, user: UserId) { user == Text(g.hash, UserA) || user == Text(g.hash, UserB) }

  lemma AdvanceKeepsFeedback(g: Guest, now: Time, d: Durations)
    requires Kept(g.hash)
    ensures Kept(GuestAdvance(g, now, d).hash)
  {
    hide Abs, StatusText, RoundStatusText, Number, Seconds, Value, FromSeconds, StampOr;
  }

  lemma HeaderKept(h: Hash, f: Field, t: string)
    requires Kept(h) && !f.Of?
    ensures Kept(h[f := t])
  {
  }

  lemma {:induction false} LeaveSimulates(g: Guest)
    requires Kept(g.hash)
    ensures var r := GuestLeave(g); Response(Abs(r.guest), r.reply) == DoLeave(Abs(g)) && Kept(r.guest.hash)
  {
    hide Abs, Kept, StatusText, NextVersion, StatusOf, ReadStatus;
    ReadsAgree(g);
    var left := SetStatus(g.hash, Abandoned);
    WroteStatus(g.hash, g.endsAt, Abandoned);
    WroteVersion(left, g.endsAt);
    HeaderKept(g.hash, StatusOfSession, StatusText(Abandoned));
    HeaderKept(left, Version, NextVersion(left));
  }

  lemma GiverAgrees(g: Guest, n: RoundNumber, user: UserId)
    requires Participant(g, user)
    ensures user in RoundOf(Abs(g), n).givers <==> Of(n, FeedbackBy(user)) in g.hash
  {
    assert RoundOf(Abs(g), n).givers == Givers(g.hash, n);
  }

  lemma FeedbackKept(g: Guest, n: RoundNumber, user: UserId)
    requires Kept(g.hash)
    ensures Kept(GuestFeedback(g, n, user).guest.hash)
  {
  }

  lemma {:induction false} FeedbackSimulates(g: Guest, n: RoundNumber, user: UserId)
    requires Kept(g.hash) && Participant(g, user)
    ensures var r := GuestFeedback(g, n, user);
            Response(Abs(r.guest), r.reply) == DoFeedback(Abs(g), n, user)
  {
    var h := g.hash;
    GiverAgrees(g, n, user);
    RolesAgree(g, n);
    assert Text(h, Of(n, FeedbackBy(user))) == "" <==> Of(n, FeedbackBy(user)) !in h;
    hide Abs, Bumped, Kept, Text, Participant, RoundStatusText, Interviewer, Interviewee, Giver, Givers;
    WroteFeedback(h, g.endsAt, n, user);
    WroteVersion(h[Of(n, FeedbackBy(user)) := FEEDBACK_RECORD], g.endsAt);
  }

  lemma RolesAgree(g: Guest, n: RoundNumber)
    ensures var r := RoundOf(Abs(g), n);
            && r.interviewer == Interviewer(g.hash, n) && r.interviewee == Interviewee(g.hash, n)
            && Abs(g).room == Text(g.hash, Room)
            && (r.status == Done <==> Text(g.hash, Of(n, StatusOfRound)) == RoundStatusText(Done))
  {
    FoundRoundStatusHasText(Text(g.hash, Of(n, StatusOfRound)), ROUND_STATUSES);
    RoundStatusReadsBack(Done);
    assert RoundOf(Abs(g), n).status == ReadRoundStatus(g.hash, n);
  }

  lemma ChoiceIsNotEmpty(bank: seq<Problem>, room: RoomId, problem: Option<ProblemId>, customText: Option<string>)
    ensures var (reply, id, text) := Choice(bank, room, problem, customText);
            id != Some("") && text != Some("")
  {
    if Given(problem) {
      FoundHasId(bank, problem.value);
    }
  }

  lemma {:induction false} PickSimulates(g: Guest, bank: seq<Problem>, n: RoundNumber, user: UserId,
                                         problem: Option<ProblemId>,
                      customText: Option<string>)
    requires Kept(g.hash)
    ensures var r := GuestPick(g, bank, n, user, problem, customText);
            Response(Abs(r.guest), r.reply) == DoPick(Abs(g), bank, n, user, problem, customText) && Kept(r.guest.hash)
  {
    RolesAgree(g, n);
    ChoiceIsNotEmpty(bank, Abs(g).room, problem, customText);
    hide Abs, Choice, RoundStatusText, Number, Seconds, Text;
    var (reply, id, text) := Choice(bank, Abs(g).room, problem, customText);
    if reply == Ok {
      WroteChoice(g.hash, g.endsAt, n, id, text);
      WroteVersion(SetChoice(g.hash, n, id, text), g.endsAt);
    }
  }

  lemma {:induction false} SubmitSimulates(g: Guest, n: RoundNumber, user: UserId, language: string, code: string, at: Time)
    requires Kept(g.hash)
    ensures var r := GuestSubmit(g, n, user, language, code, at);
            Response(Abs(r.guest), r.reply) == DoSubmit(Abs(g), n, user, language, code, at) && Kept(r.guest.hash)
  {
    RolesAgree(g, n);
    hide Abs, Number, Seconds, Text;
    WroteCode(g.hash, g.endsAt, n, language, code, at);
    WroteVersion(SetCode(g.hash, n, language, code, at), g.endsAt);
  }

  /** So does every request a participant makes, with the same reply. */
  lemma {:induction false} HandleSimulates(g: Guest, bank: seq<Problem>, q: Request)
    requires Kept(g.hash)
    requires q.GiveFeedback? ==> Participant(g, q.user)
    ensures var r := GuestHandle(g, bank, q);
            Response(Abs(r.guest), r.reply) == Handle(Abs(g), bank, q) && Kept(r.guest.hash)
  {
    match q
    case Leave => LeaveSimulates(g);
    case GiveFeedback(n, user) =>
      FeedbackSimulates(g, n, user);
      FeedbackKept(g, n, user);
    case Pick(n, user, problem, text) => PickSimulates(g, bank, n, user, problem, text);
    case SubmitCode(n, user, language, code, at) => SubmitSimulates(g, n, user, language, code, at);
  }

  /**
   Feedback is where the two part: the guest branch never asks who is speaking, so it agrees with the
   registered one exactly on the participants.
   */
  lemma {:induction false} FeedbackAgreesExactlyForParticipants(g: Guest, n: RoundNumber, user: UserId)
    requires Kept(g.hash)
    ensures var r := GuestFeedback(g, n, user);
            Response(Abs(r.guest), r.reply) == DoFeedback(Abs(g), n, user) <==> Participant(g, user)
  {
    if Participant(g, user) {
      FeedbackSimulates(g, n, user);
    } else {
      RolesAgree(g, n);
    }
  }

  // ---- Whole runs ------------------------------------------------------------------------------

  lemma {:induction false} PlayGuestAppend(g: Guest, bank: seq<Problem>, d: Durations, events: seq<Lifecycle.Event>,
                                           more: seq<Lifecycle.Event>)
    ensures PlayGuest(g, bank, d, events + more) == PlayGuest(PlayGuest(g, bank, d, events), bank, d, more)
  {
    hide GuestAdvance, GuestHandle;
    if more == [] {
      assert events + more == events;
    } else {
      PlayGuestAppend(g, bank, d, events, more[..|more| - 1]);
      assert (events + more)[..|events + more| - 1] == events + more[..|more| - 1];
    }
  }

  lemma PlayGuestPoll(g: Guest, bank: seq<Problem>, d: Durations, events: seq<Lifecycle.Event>, at: Time)
    ensures PlayGuest(g, bank, d, events + [Lifecycle.Poll(at)]) == GuestAdvance(PlayGuest(g, bank, d, events), at, d)
  {
    hide GuestAdvance, GuestHandle;
    assert (events + [Lifecycle.Poll(at)])[..|events|] == events;
  }

  lemma PlayGuestAsk(g: Guest, bank: seq<Problem>, d: Durations, requests: seq<Request>, j: nat)
    requires j < |requests|
    ensures PlayGuest(g, bank, d, Lifecycle.Asks(requests[..j + 1]))
         == GuestHandle(PlayGuest(g, bank, d, Lifecycle.Asks(requests[..j])), bank, requests[j]).guest
  {
    hide GuestAdvance, GuestHandle;
    assert requests[..j + 1][..j] == requests[..j];
    var events := Lifecycle.Asks(requests[..j]);
    assert (events + [Lifecycle.Ask(requests[j])])[..|events|] == events;
  }

  function PlayGuest(g: Guest, bank: seq<Problem>, d: Durations, events: seq<Lifecycle.Event>): Guest
    decreases |events|
  {
    if events == [] then g else
    var before := PlayGuest(g, bank, d, events[..|events| - 1]);
    match events[|events| - 1]
    case Poll(at) => GuestAdvance(before, at, d)
    case Ask(q) => GuestHandle(before, bank, q).guest
  }

  /** The session is not over after any of the first `count` polls. */
  predicate GuestNotOver(g: Guest, bank: seq<Problem>, d: Durations, clock: nat -> Time, asked: nat -> seq<Request>, count: nat) {
    count == 0 ||
    (GuestNotOver(g, bank, d, clock, asked, count - 1)
     && !Terminal(ReadStatus(PlayGuest(g, bank, d, Lifecycle.LoopEvents(clock, asked, count)).hash)))
  }

  lemma StillNotOver(g: Guest, bank: seq<Problem>, d: Durations, clock: nat -> Time, asked: nat -> seq<Request>, count: nat)
    requires count >= 1 && !Terminal(ReadStatus(PlayGuest(g, bank, d, Lifecycle.LoopEvents(clock, asked, count)).hash))
    ensures GuestNotOver(g, bank, d, clock, asked, count - 1) ==> GuestNotOver(g, bank, d, clock, asked, count)
  {
    hide PlayGuest, ReadStatus;
  }

  lemma PlayGuestNothing(g: Guest, bank: seq<Problem>, d: Durations, clock: nat -> Time, asked: nat -> seq<Request>)
    ensures PlayGuest(g, bank, d, []) == g && GuestNotOver(g, bank, d, clock, asked, 0)
  {
  }

  /** What the requests of a run were answered with. */
  function Replies(s: Session, bank: seq<Problem>, d: Durations, events: seq<Lifecycle.Event>): seq<Reply>
    decreases |events|
  {
    if events == [] then [] else
    var before, e := events[..|events| - 1], events[|events| - 1];
    Replies(s, bank, d, before) + (if e.Ask? then [Handle(Lifecycle.Play(s, bank, d, before), bank, e.request).reply] else [])
  }

  function GuestReplies(g: Guest, bank: seq<Problem>, d: Durations, events: seq<Lifecycle.Event>): seq<Reply>
    decreases |events|
  {
    if events == [] then [] else
    var before, e := events[..|events| - 1], events[|events| - 1];
    GuestReplies(g, bank, d, before) + (if e.Ask? then [GuestHandle(PlayGuest(g, bank, d, before), bank, e.request).reply] else [])
  }

  /** The requests among the events. */
  function Asked(events: seq<Lifecycle.Event>): seq<Request> {
    if events == [] then [] else
    Asked(events[..|events| - 1]) + (if events[|events| - 1].Ask? then [events[|events| - 1].request] else [])
  }

  /** Feedback of a user who does not take part. */
  predicate FromOutside(q: Request, a: UserId, b: UserId) { q.GiveFeedback? && q.user != a && q.user != b }

  /** How many times feedback of an outsider was accepted. */
  function OutsidersNoted(g: Guest, bank: seq<Problem>, d: Durations, events: seq<Lifecycle.Event>): nat
    decreases |events|
  {
    if events == [] then 0 else
    var before, e := events[..|events| - 1], events[|events| - 1];
    OutsidersNoted(g, bank, d, before)
    + (if e.Ask? && FromOutside(e.request, Text(g.hash, UserA), Text(g.hash, UserB))
          && GuestHandle(PlayGuest(g, bank, d, before), bank, e.request).reply == Ok then 1 else 0)
  }

  function Ahead(s: Session, k: nat): Session { s.(version := s.version + k) }

  lemma AdvanceAhead(s: Session, k: nat, now: Time, d: Durations)
    ensures Advance(Ahead(s, k), now, d) == Ahead(Advance(s, now, d), k)
  {
    match s.status
    case Created =>
    case Preparation =>
    case Round1Active =>
    case _ =>
  }

  lemma AheadIsValid(s: Session, k: nat, d: Durations)
    ensures Valid(s, d) ==> Valid(Ahead(s, k), d)
  {
    hide InPhase;
    if InPhase(s, d) {
      SameClockSamePhase(s, Ahead(s, k), d);
    }
  }

  lemma HandleAhead(s: Session, k: nat, bank: seq<Problem>, q: Request)
    ensures Handle(Ahead(s, k), bank, q) == Response(Ahead(Handle(s, bank, q).session, k), Handle(s, bank, q).reply)
  {
    hide Choice;
  }

  /** Feedback of an outsider is noted in the hash once, and changes nothing but the version of what it stands for. */
  lemma OutsiderOnlyBumps(g: Guest, n: RoundNumber, user: UserId)
    requires !Participant(g, user)
    ensures var r := GuestFeedback(g, n, user);
            && r.reply == (if Text(g.hash, Of(n, FeedbackBy(user))) != "" then Rejected(409) else Ok)
            && Abs(r.guest) == (if r.reply == Ok then Bump(Abs(g)) else Abs(g))
            && DoFeedback(Abs(g), n, user) == Response(Abs(g), Rejected(403))
  {
    var h := g.hash[Of(n, FeedbackBy(user)) := FEEDBACK_RECORD];
    OutsiderIsNoGiver(g.hash, n, user);
    RolesAgree(g, n);
    hide Abs, ReadRound, Text, RoundStatusText;
    WroteRound(g.hash, g.endsAt, n, Of(n, FeedbackBy(user)), FEEDBACK_RECORD);
    WroteVersion(h, g.endsAt);
  }

  lemma OutsiderIsNoGiver(h: Hash, n: RoundNumber, user: UserId)
    requires user != Text(h, UserA) && user != Text(h, UserB)
    ensures ReadRound(h[Of(n, FeedbackBy(user)) := FEEDBACK_RECORD], n) == ReadRound(h, n)
  {
    var k := h[Of(n, FeedbackBy(user)) := FEEDBACK_RECORD];
    assert Giver(k, n, Text(h, UserA)) == Giver(h, n, Text(h, UserA)) && Giver(k, n, Text(h, UserB)) == Giver(h, n, Text(h, UserB));
    hide Giver;
  }

  /** One step of both runs, which differ by `k` versions so far. */
  lemma StepSimulates(g: Guest, s: Session, k: nat, bank: seq<Problem>, q: Request)
    requires Kept(g.hash) && Abs(g) == Ahead(s, k)
    ensures var r, x := GuestHandle(g, bank, q), Handle(s, bank, q);
            var outside := FromOutside(q, s.userA, s.userB);
            && Kept(r.guest.hash) && (r.reply == x.reply <==> !outside)
            && Abs(r.guest) == Ahead(x.session, if outside && r.reply == Ok then k + 1 else k)
            && x.session.userA == s.userA && x.session.userB == s.userB
  {
    ReadsAgree(g);
    HandleAhead(s, k, bank, q);
    HandleKeepsParties(s, bank, q);
    if FromOutside(q, s.userA, s.userB) {
      OutsiderOnlyBumps(g, q.round, q.user);
      FeedbackKept(g, q.round, q.user);
    } else {
      HandleSimulates(g, bank, q);
    }
    hide Abs, Kept, GuestFeedback, GuestLeave, GuestPick, GuestSubmit, DoLeave, DoPick, DoSubmit, DoFeedback;
  }

  /** One reply each to the same requests, the same one exactly if it is no feedback of an outsider. */
  ghost predicate SameUpToOutsiders(ours: seq<Reply>, theirs: seq<Reply>, asked: seq<Request>, a: UserId, b: UserId) {
    && |ours| == |theirs| == |asked|
    && forall i :: 0 <= i < |asked| ==> (ours[i] == theirs[i] <==> !FromOutside(asked[i], a, b))
  }

  lemma OneMoreReply(ours: seq<Reply>, theirs: seq<Reply>, asked: seq<Request>, a: UserId, b: UserId, our: Reply, their: Reply,
                     q: Request)
    requires SameUpToOutsiders(ours, theirs, asked, a, b) && (our == their <==> !FromOutside(q, a, b))
    ensures SameUpToOutsiders(ours + [our], theirs + [their], asked + [q], a, b)
  {
    hide FromOutside;
  }

  /**
   Whoever gives feedback: from every valid state the guest run stands for the registered run, ahead of
   it by one version for each accepted feedback of an outsider, and exactly outsiders get other replies.
   */
  lemma {:induction false} RunSimulatesUpToOutsiders(g: Guest, bank: seq<Problem>, d: Durations, events: seq<Lifecycle.Event>)
    requires Valid(Abs(g), d) && Kept(g.hash) && Lifecycle.Positive(d)
    ensures Abs(PlayGuest(g, bank, d, events)) == Ahead(Lifecycle.Play(Abs(g), bank, d, events), OutsidersNoted(g, bank, d, events))
    ensures Kept(PlayGuest(g, bank, d, events).hash)
    ensures var s := Lifecycle.Play(Abs(g), bank, d, events); s.userA == Abs(g).userA && s.userB == Abs(g).userB
    ensures SameUpToOutsiders(GuestReplies(g, bank, d, events), Replies(Abs(g), bank, d, events), Asked(events),
                              Abs(g).userA, Abs(g).userB)
  {
    hide Abs, Kept, GuestAdvance, GuestHandle, Advance, Handle, Valid, FromOutside, SameUpToOutsiders, Text, Ahead;
    ReadsAgree(g);
    if events == [] {
      NoReplies(Abs(g));
    } else {
      var before, e := events[..|events| - 1], events[|events| - 1];
      RunSimulatesUpToOutsiders(g, bank, d, before);
      Lifecycle.ValidAlways(Abs(g), bank, d, before);
      var now, s, k := PlayGuest(g, bank, d, before), Lifecycle.Play(Abs(g), bank, d, before), OutsidersNoted(g, bank, d, before);
      match e
      case Poll(at) =>
        PollSimulates(now, s, k, at, d);
        assert GuestReplies(g, bank, d, events) == GuestReplies(g, bank, d, before);
        assert Replies(Abs(g), bank, d, events) == Replies(Abs(g), bank, d, before);
        assert Asked(events) == Asked(before);
      case Ask(q) =>
        StepSimulates(now, s, k, bank, q);
        OneMoreReply(GuestReplies(g, bank, d, before), Replies(Abs(g), bank, d, before), Asked(before), s.userA, s.userB,
                     GuestHandle(now, bank, q).reply, Handle(s, bank, q).reply, q);
    }
  }

  lemma NoReplies(s: Session)
    ensures Ahead(s, 0) == s && SameUpToOutsiders([], [], [], s.userA, s.userB)
  {
  }

  lemma PollSimulates(g: Guest, s: Session, k: nat, at: Time, d: Durations)
    requires Kept(g.hash) && Abs(g) == Ahead(s, k) && Valid(s, d) && Lifecycle.Positive(d)
    ensures Kept(GuestAdvance(g, at, d).hash) && Abs(GuestAdvance(g, at, d)) == Ahead(Advance(s, at, d), k)
    ensures Advance(s, at, d).userA == s.userA && Advance(s, at, d).userB == s.userB
  {
    AheadIsValid(s, k, d);
    AdvanceAhead(s, k, at, d);
    AdvanceSimulates(g, at, d);
    AdvanceKeepsFeedback(g, at, d);
    AdvanceKeepsContent(s, at, d);
    hide *;
  }

  ghost predicate OnlyParticipantsSpeak(a: UserId, b: UserId, events: seq<Lifecycle.Event>) {
    forall e :: e in events && e.Ask? && e.request.GiveFeedback? ==> e.request.user == a || e.request.user == b
  }

  lemma {:induction false} NothingNoted(g: Guest, bank: seq<Problem>, d: Durations, events: seq<Lifecycle.Event>)
    requires OnlyParticipantsSpeak(Text(g.hash, UserA), Text(g.hash, UserB), events)
    ensures OutsidersNoted(g, bank, d, events) == 0
    ensures forall q :: q in Asked(events) ==> !FromOutside(q, Text(g.hash, UserA), Text(g.hash, UserB))
  {
    if events != [] {
      assert events[|events| - 1] in events;
      NothingNoted(g, bank, d, events[..|events| - 1]);
    }
  }

  lemma AheadByNothing(s: Session)
    ensures Ahead(s, 0) == s
  {
  }

  /** So with feedback of participants only, the runs agree in everything. */
  lemma {:induction false} RunSimulates(g: Guest, bank: seq<Problem>, d: Durations, events: seq<Lifecycle.Event>)
    requires Valid(Abs(g), d) && Kept(g.hash) && Lifecycle.Positive(d)
    requires OnlyParticipantsSpeak(Abs(g).userA, Abs(g).userB, events)
    ensures Abs(PlayGuest(g, bank, d, events)) == Lifecycle.Play(Abs(g), bank, d, events)
    ensures GuestReplies(g, bank, d, events) == Replies(Abs(g), bank, d, events)
    ensures Kept(PlayGuest(g, bank, d, events).hash)
  {
    ReadsAgree(g);
    RunSimulatesUpToOutsiders(g, bank, d, events);
    NothingNoted(g, bank, d, events);
    hide Abs, Kept, Valid, PlayGuest, GuestReplies, Replies, Asked, OutsidersNoted, FromOutside, OnlyParticipantsSpeak;
    AheadByNothing(Lifecycle.Play(Abs(g), bank, d, events));
    var asked := Asked(events);
    forall i | 0 <= i < |asked| ensures GuestReplies(g, bank, d, events)[i] == Replies(Abs(g), bank, d, events)[i] {
      assert asked[i] in asked;
    }
  }

  /** A guest interview and a registered one that see the same polls and requests cannot be told apart. */
  lemma {:induction false} GuestSimulatesRegistered(a: UserId, b: UserId, room: RoomId, mode: string, now: Time,
                                                    bank: seq<Problem>,
                                 testing: bool, events: seq<Lifecycle.Event>)
    requires a != b && OnlyParticipantsSpeak(a, b, events)
    ensures var d := ModeDurations(mode, testing);
            var g, s := NewGuest(a, b, room, mode, now), NewSession(a, b, room, mode, now);
            && Abs(PlayGuest(g, bank, d, events)) == Lifecycle.Play(s, bank, d, events)
            && GuestReplies(g, bank, d, events) == Replies(s, bank, d, events)
  {
    var d := ModeDurations(mode, testing);
    NewGuestIsNewSession(a, b, room, mode, now);
    NewSessionIsValid(a, b, room, mode, now, d);
    RunSimulates(NewGuest(a, b, room, mode, now), bank, d, events);
  }

  // ---- What the poll loop needs ------------------------------------------------------------------

  /** What the loop keeps: a valid session that can be polled `budget` times at most. */
  ghost predicate Within(g: Guest, mode: string, d: Durations, last: Time, budget: int) {
    && Kept(g.hash) && ReadMode(g.hash) == mode && Valid(Abs(g), d) && Lifecycle.Pending(Abs(g), d, last)
    && 1 <= Lifecycle.PollsLeft(Abs(g), d, last) <= budget
  }

  lemma BeginsWithin(g: Guest, d: Durations, last: Time)
    requires Kept(g.hash) && ReadStatus(g.hash) == Created && Valid(Abs(g), d)
    ensures Within(g, ReadMode(g.hash), d, last, Lifecycle.PollBound(d))
  {
    ReadsAgree(g);
    hide Abs, Kept, Valid, ReadStatus, ReadMode;
  }

  lemma ServedWithin(g: Guest, bank: seq<Problem>, q: Request, mode: string, d: Durations, last: Time, budget: int)
    requires Within(g, mode, d, last, budget)
    ensures Within(GuestHandle(g, bank, q).guest, mode, d, last, budget)
  {
    HandleKeepsValid(Abs(g), bank, q, d);
    Lifecycle.AskSpendsNoPolls(Abs(g), bank, d, last, q);
    Lifecycle.AskKeepsClock(Abs(g), bank, d, q);
    ModeKept(g, bank, q);
    hide Abs, Kept, Handle, InPhase, ReadMode;
    if q.GiveFeedback? && !Participant(g, q.user) {
      OutsiderOnlyBumps(g, q.round, q.user);
      FeedbackKept(g, q.round, q.user);
      BumpKeepsPolls(Abs(g), d, last);
    } else {
      HandleSimulates(g, bank, q);
    }
  }

  lemma ModeKept(g: Guest, bank: seq<Problem>, q: Request)
    ensures ReadMode(GuestHandle(g, bank, q).guest.hash) == ReadMode(g.hash)
  {
    hide StatusText, Number, Choice, StatusOf;
  }

  lemma BumpKeepsPolls(s: Session, d: Durations, last: Time)
    ensures Valid(s, d) ==> Valid(Bump(s), d)
    ensures Lifecycle.Pending(s, d, last) ==> Lifecycle.Pending(Bump(s), d, last)
    ensures Lifecycle.PollsLeft(Bump(s), d, last) == Lifecycle.PollsLeft(s, d, last)
  {
  }

  lemma PendingHasPolls(s: Session, d: Durations, last: Time)
    ensures Lifecycle.Pending(s, d, last) ==> Lifecycle.PollsLeft(s, d, last) >= 1
  {
  }

  lemma PolledWithin(g: Guest, now: Time, mode: string, d: Durations, last: Time, budget: int)
    requires Within(g, mode, d, last, budget) && Lifecycle.Positive(d)
    requires Lifecycle.Timed(ReadStatus(g.hash)) ==> last + Lifecycle.POLL_INTERVAL <= now
    ensures var t := GuestAdvance(g, now, d);
            Terminal(ReadStatus(t.hash)) || Within(t, mode, d, now, budget - 1)
  {
    hide Abs, Kept, GuestAdvance, Advance, InPhase, ReadMode, Lifecycle.Pending, Lifecycle.PollsLeft, Lifecycle.Positive, Valid, ReadStatus;
    ReadsAgree(g);
    ReadsAgree(GuestAdvance(g, now, d));
    AdvanceSimulates(g, now, d);
    AdvanceKeepsFeedback(g, now, d);
    AdvanceKeepsValid(Abs(g), now, d);
    AdvanceKeepsContent(Abs(g), now, d);
    ModeIsRead(g);
    ModeIsRead(GuestAdvance(g, now, d));
    if !Terminal(Abs(g).status) {
      Lifecycle.PollsAreSpent(Abs(g), d, last, now);
      PendingHasPolls(Advance(Abs(g), now, d), d, now);
    } else {
      TerminalHashStays(g, now, d);
    }
  }

  lemma ModeIsRead(g: Guest)
    ensures Abs(g).mode == ReadMode(g.hash)
  {
  }

  // ---- The hash in place -----------------------------------------------------------------------

  lemma Merged2(h: Hash, f1: Field, t1: string, f2: Field, t2: string)
    ensures var u: Hash := map[][f1 := t1][f2 := t2];
            f1 in u && u.Keys == {f1, f2} && h + u == h[f1 := t1][f2 := t2]
  {
  }

  lemma Merged3(h: Hash, f1: Field, t1: string, f2: Field, t2: string, f3: Field, t3: string)
    ensures var u: Hash := map[][f1 := t1][f2 := t2][f3 := t3];
            f1 in u && u.Keys == {f1, f2, f3} && h + u == h[f1 := t1][f2 := t2][f3 := t3]
  {
  }

  lemma Merged4(h: Hash, f1: Field, t1: string, f2: Field, t2: string, f3: Field, t3: string, f4: Field, t4: string)
    ensures var u: Hash := map[][f1 := t1][f2 := t2][f3 := t3][f4 := t4];
            f1 in u && u.Keys == {f1, f2, f3, f4} && h + u == h[f1 := t1][f2 := t2][f3 := t3][f4 := t4]
  {
  }

  lemma TerminalHashStays(g: Guest, now: Time, d: Durations)
    ensures Terminal(ReadStatus(g.hash)) ==> GuestAdvance(g, now, d) == g
  {
  }

  lemma LeaveReply(g: Guest)
    ensures GuestLeave(g).reply == Ok
  {
  }

  lemma OneWrite(h: Hash, updates: Hash)
    requires Version !in updates
    ensures h + updates[Version := NextVersion(h)] == Bumped(h + updates)
  {
  }

  class GuestSession {
    var hash: Hash
    var endsAt: Option<Time>

    function View(): Guest
      reads this
    {
      Guest(hash, endsAt)
    }

    constructor (a: UserId, b: UserId, room: RoomId, mode: string, now: Time)
      ensures View() == NewGuest(a, b, room, mode, now)
    {
      hash := map[UserA := a, UserB := b, Room := room, Mode := mode, StatusOfSession := StatusText(Created),
                  CreatedAt := Number(now)];
      endsAt := None;
    }

    /** The status machine: the fields one transition is about to write, and its deadline. */
    method CollectUpdates(now: Time, d: Durations) returns (updates: Hash, deadline: Option<Time>)
      ensures updates == map[] ==> GuestAdvance(View(), now, d) == View()
      ensures updates != map[] ==> Version !in updates && GuestAdvance(View(), now, d) == Guest(Bumped(hash + updates), deadline)
    {
      hide StatusText, RoundStatusText, Number, Seconds, StatusOf, Bumped, StampOr, BothGave;
      updates := map[];
      deadline := endsAt;
      match ReadStatus(hash) {
        case Created =>
          updates := updates[StatusOfSession := StatusText(Preparation)];
          updates := updates[StartedAt := Seconds(now)];
          deadline := Some(now + d.preparation);
          Merged2(hash, StatusOfSession, StatusText(Preparation), StartedAt, Seconds(now));
        case Preparation =>
          if now - StampOr(hash, StartedAt, now) >= d.preparation {
            updates := updates[StatusOfSession := StatusText(Round1Active)];
            updates := updates[Of(One, StatusOfRound) := RoundStatusText(Active)];
            updates := updates[Of(One, StartOfRound) := Seconds(now)];
            Merged3(hash, StatusOfSession, StatusText(Round1Active), Of(One, StatusOfRound), RoundStatusText(Active),
                    Of(One, StartOfRound), Seconds(now));
            deadline := Some(now + d.active);
          }
        case Round1Active =>
          if now - StampOr(hash, Of(One, StartOfRound), now) >= d.active {
            updates := updates[StatusOfSession := StatusText(Round1Feedback)];
            updates := updates[Of(One, StatusOfRound) := RoundStatusText(InFeedback)];
            updates := updates[Of(One, EndOfRound) := Seconds(now)];
            Merged3(hash, StatusOfSession, StatusText(Round1Feedback), Of(One, StatusOfRound), RoundStatusText(InFeedback),
                    Of(One, EndOfRound), Seconds(now));
            deadline := Some(now + d.feedback);
          }
        case Round1Feedback =>
          var timeUp := now - StampOr(hash, Of(One, EndOfRound), now) >= d.feedback;
          if timeUp || BothGave(hash, One) {
            updates := updates[StatusOfSession := StatusText(Round2Active)];
            updates := updates[Of(One, StatusOfRound) := RoundStatusText(Done)];
            updates := updates[Of(Two, StatusOfRound) := RoundStatusText(Active)];
            updates := updates[Of(Two, StartOfRound) := Seconds(now)];
            Merged4(hash, StatusOfSession, StatusText(Round2Active), Of(One, StatusOfRound), RoundStatusText(Done),
                    Of(Two, StatusOfRound), RoundStatusText(Active), Of(Two, StartOfRound), Seconds(now));
            deadline := Some(now + d.active);
          }
        case Round2Active =>
          if now - StampOr(hash, Of(Two, StartOfRound), now) >= d.active {
            updates := updates[StatusOfSession := StatusText(Round2Feedback)];
            updates := updates[Of(Two, StatusOfRound) := RoundStatusText(InFeedback)];
            updates := updates[Of(Two, EndOfRound) := Seconds(now)];
            Merged3(hash, StatusOfSession, StatusText(Round2Feedback), Of(Two, StatusOfRound), RoundStatusText(InFeedback),
                    Of(Two, EndOfRound), Seconds(now));
            deadline := Some(now + d.feedback);
          }
        case Round2Feedback =>
          var timeUp := now - StampOr(hash, Of(Two, EndOfRound), now) >= d.feedback;
          if timeUp || BothGave(hash, Two) {
            updates := updates[StatusOfSession := StatusText(Completed)];
            updates := updates[Of(Two, StatusOfRound) := RoundStatusText(Done)];
            updates := updates[CompletedAt := Seconds(now)];
            Merged3(hash, StatusOfSession, StatusText(Completed), Of(Two, StatusOfRound), RoundStatusText(Done),
                    CompletedAt, Seconds(now));
          }
        case _ =>
      }
    }

    /** One HSET writes what a transition collected, with the next version. */
    method MoveOn(now: Time, d: Durations)
      modifies this
      ensures View() == GuestAdvance(old(View()), now, d)
    {
      hide GuestAdvance, ReadVersion;
      var updates, deadline := CollectUpdates(now, d);
      if updates != map[] {
        OneWrite(hash, updates);
        updates := updates[Version := NextVersion(hash)];
        hash := hash + updates;
        endsAt := deadline;
      }
    }

    method AdvanceState(now: Time, testing: bool, redis: Redis.RedisClient) returns (active: bool)
      modifies this, redis
      ensures View() == GuestAdvance(old(View()), now, ModeDurations(ReadMode(old(hash)), testing))
      ensures active == !Terminal(ReadStatus(hash))
      ensures redis.View() == if ReadStatus(hash) == Completed && ReadStatus(old(hash)) != Completed
                              then Redis.Forget(old(redis.View()), Text(old(hash), UserA), Text(old(hash), UserB))
                              else old(redis.View())
    {
      hide GuestAdvance, ModeDurations, StatusOf, ReadMode, ReadStatus;
      TerminalHashStays(View(), now, ModeDurations(ReadMode(hash), testing));
      if Terminal(ReadStatus(hash)) {
        return false;
      }
      var a, b := Text(hash, UserA), Text(hash, UserB);
      MoveOn(now, ModeDurations(ReadMode(hash), testing));
      if ReadStatus(hash) == Completed {
        redis.ForgetUser(a);
        redis.ForgetUser(b);
      }
      return !Terminal(ReadStatus(hash));
    }

    method LeaveSession(redis: Redis.RedisClient)
      modifies this, redis
      ensures View() == GuestLeave(old(View())).guest
      ensures redis.View() == if Terminal(ReadStatus(old(hash))) then old(redis.View())
                              else Redis.Forget(old(redis.View()), Text(old(hash), UserA), Text(old(hash), UserB))
    {
      hide ReadStatus, Bumped, StatusText, Text;
      if !Terminal(ReadStatus(hash)) {
        redis.ForgetUser(Text(hash, UserA));
        redis.ForgetUser(Text(hash, UserB));
        hash := Bumped(SetStatus(hash, Abandoned));
      }
    }

    method SubmitFeedback(n: RoundNumber, user: UserId) returns (reply: Reply)
      modifies this
      ensures GuestResponse(View(), reply) == GuestFeedback(old(View()), n, user)
    {
      if Text(hash, Of(n, FeedbackBy(user))) != "" {
        return Rejected(409);
      }
      hash := Bumped(hash[Of(n, FeedbackBy(user)) := FEEDBACK_RECORD]);
      return Ok;
    }

    method SelectProblem(bank: seq<Problem>, n: RoundNumber, user: UserId, problem: Option<ProblemId>,
                         customText: Option<string>) returns (reply: Reply)
      modifies this
      ensures GuestResponse(View(), reply) == GuestPick(old(View()), bank, n, user, problem, customText)
    {
      if user != Interviewer(hash, n) {
        return Rejected(403);
      }
      if Text(hash, Of(n, StatusOfRound)) == RoundStatusText(Done) {
        return Rejected(409);
      }
      var (verdict, id, text) := Choice(bank, Text(hash, Room), problem, customText);
      if verdict == Ok {
        hash := Bumped(SetChoice(hash, n, id, text));
      }
      return verdict;
    }

    method SubmitRoundCode(n: RoundNumber, user: UserId, language: string, code: string, at: Time) returns (reply: Reply)
      modifies this
      ensures GuestResponse(View(), reply) == GuestSubmit(old(View()), n, user, language, code, at)
    {
      if language !in SUPPORTED_LANGUAGES || |code| > 50_000 {
        return Rejected(400);
      }
      if user != Interviewee(hash, n) {
        return Rejected(403);
      }
      hash := Bumped(SetCode(hash, n, language, code, at));
      return Ok;
    }

    /** Any one request, as the router dispatches it; each ends in one HSET at most. */
    method Serve(bank: seq<Problem>, q: Request, redis: Redis.RedisClient) returns (reply: Reply)
      modifies this, redis
      ensures GuestResponse(View(), reply) == GuestHandle(old(View()), bank, q)
      ensures redis.View() == if q.Leave? && !Terminal(ReadStatus(old(hash)))
                              then Redis.Forget(old(redis.View()), Text(old(hash), UserA), Text(old(hash), UserB))
                              else old(redis.View())
    {
      hide GuestLeave, GuestFeedback, GuestPick, GuestSubmit, ReadStatus, Text;
      match q {
        case Leave =>
          LeaveReply(View());
          LeaveSession(redis);
          reply := Ok;
        case GiveFeedback(n, user) => reply := SubmitFeedback(n, user);
        case Pick(n, user, problem, customText) => reply := SelectProblem(bank, n, user, problem, customText);
        case SubmitCode(n, user, language, code, at) => reply := SubmitRoundCode(n, user, language, code, at);
      }
    }

    method ServeAll(bank: seq<Problem>, requests: seq<Request>, redis: Redis.RedisClient, ghost mode: string, ghost d: Durations,
                    ghost last: Time, ghost budget: int)
      requires Within(View(), mode, d, last, budget)
      modifies this, redis
      ensures Within(View(), mode, d, last, budget) && View() == PlayGuest(old(View()), bank, d, Lifecycle.Asks(requests))
    {
      hide Within, GuestHandle, GuestAdvance;
      for j := 0 to |requests|
        invariant Within(View(), mode, d, last, budget) && View() == PlayGuest(old(View()), bank, d, Lifecycle.Asks(requests[..j]))
      {
        PlayGuestAsk(old(View()), bank, d, requests, j);
        ServedWithin(View(), bank, requests[j], mode, d, last, budget);
        var _ := Serve(bank, requests[j], redis);
      }
      assert requests[..|requests|] == requests;
    }

    method PollOnce(now: Time, testing: bool, redis: Redis.RedisClient, ghost mode: string, ghost last: Time, ghost budget: int)
      returns (active: bool)
      requires Within(View(), mode, ModeDurations(mode, testing), last, budget)
      requires Lifecycle.Timed(ReadStatus(hash)) ==> last + Lifecycle.POLL_INTERVAL <= now
      modifies this, redis
      ensures budget >= 1
      ensures View() == GuestAdvance(old(View()), now, ModeDurations(mode, testing)) && active == !Terminal(ReadStatus(hash))
      ensures active ==> Within(View(), mode, ModeDurations(mode, testing), now, budget - 1)
    {
      hide Abs, GuestAdvance, Kept, Valid, ReadStatus, ModeDurations, Lifecycle.Pending, Lifecycle.PollsLeft, ReadMode;
      PolledWithin(View(), now, mode, ModeDurations(mode, testing), last, budget);
      active := AdvanceState(now, testing, redis);
    }

    /**
     The poll loop, as for registered sessions; requests of anybody are served in between, also feedback
     of users who do not take part.
     */
    method StartSessionLifecycle(clock: nat -> Time, asked: nat -> seq<Request>, bank: seq<Problem>, testing: bool,
                                 redis: Redis.RedisClient) returns (polls: nat)
      requires Kept(hash) && ReadStatus(hash) == Created && Valid(Abs(View()), ModeDurations(ReadMode(hash), testing))
      requires forall i: nat :: clock(i) + 2_000 <= clock(i + 1)
      modifies this, redis
      ensures Terminal(ReadStatus(hash))
      ensures polls >= 1
              && View() == PlayGuest(old(View()), bank, ModeDurations(ReadMode(old(hash)), testing),
                                     Lifecycle.LoopEvents(clock, asked, polls))
              && GuestNotOver(old(View()), bank, ModeDurations(ReadMode(old(hash)), testing), clock, asked, polls - 1)
      ensures 1 <= polls <= Lifecycle.PollBound(ModeDurations(ReadMode(old(hash)), testing))
      ensures !testing ==> polls <= if ReadMode(old(hash)) == "QUICK" then 376 else 1_036
    {
      hide Abs, GuestAdvance, Kept, Valid, ReadStatus, ModeDurations, Lifecycle.Pending, Lifecycle.PollsLeft, ReadMode, Within,
           PlayGuest, GuestNotOver;
      PlayGuestNothing(View(), bank, ModeDurations(ReadMode(hash), testing), clock, asked);
      ghost var mode := ReadMode(hash);
      ghost var d := ModeDurations(mode, testing);
      ghost var bound := Lifecycle.PollBound(d);
      Lifecycle.PollBoundIs(mode);
      ghost var last: Time := clock(0);
      polls := 0;
      BeginsWithin(View(), d, last);
      while true
        invariant Within(View(), mode, d, last, bound - polls)
        invariant View() == PlayGuest(old(View()), bank, d, Lifecycle.Rounds(clock, asked, polls))
        invariant GuestNotOver(old(View()), bank, d, clock, asked, polls)
        invariant if polls == 0 then ReadStatus(hash) == Created else last == clock(polls - 1)
        decreases bound - polls
      {
        ghost var played := Lifecycle.Rounds(clock, asked, polls);
        PlayGuestPoll(old(View()), bank, d, played, clock(polls));
        var active := PollOnce(clock(polls), testing, redis, mode, last, bound - polls);
        last := clock(polls);
        polls := polls + 1;
        if !active {
          break;
        }
        StillNotOver(old(View()), bank, d, clock, asked, polls);
        PlayGuestAppend(old(View()), bank, d, played + [Lifecycle.Poll(last)], Lifecycle.Asks(asked(polls - 1)));
        ServeAll(bank, asked(polls - 1), redis, mode, d, last, bound - polls);
      }
    }
  }
}
