/** Interview sessions as values: what a session is, and what each request and each poll does to it. */
module Sessions {
  import opened Wrappers
  import opened Identity

  type RoomId = string
  type ProblemId = string

  datatype Status =
    | Created
    | Preparation
    | Round1Active
    | Round1Feedback
    | Round2Active
    | Round2Feedback
    | Completed
    | Abandoned
    | Canceled

  datatype RoundStatus = Pending | Active | InFeedback | Done

  datatype Submission = Submission(language: string, code: string, at: Time)

  datatype Round = Round(
    interviewer: UserId,
    interviewee: UserId,
    status: RoundStatus,
    startedAt: Option<Time>,
    endedAt: Option<Time>,
    givers: set<UserId>,
    problem: Option<ProblemId>,
    customText: Option<string>,
    submission: Option<Submission>)

  datatype Session = Session(
    userA: UserId,
    userB: UserId,
    room: RoomId,
    mode: string,
    status: Status,
    version: int,
    createdAt: Time,
    startedAt: Option<Time>,
    completedAt: Option<Time>,
    r1: Round,
    r2: Round,
    endsAt: Option<Time>)

  datatype Durations = Durations(preparation: nat, active: nat, feedback: nat)

  function ModeDurations(mode: string, testing: bool): (d: Durations)
    ensures d.preparation > 0 && d.active > 0 && d.feedback > 0
  {
    if mode == "QUICK"
    then if testing then Durations(3_000, 15_000, 10_000) else Durations(30_000, 300_000, 60_000)
    else if testing then Durations(5_000, 15_000, 10_000) else Durations(30_000, 900_000, 120_000)
  }

  function NewRound(interviewer: UserId, interviewee: UserId): Round {
    Round(interviewer, interviewee, Pending, None, None, {}, None, None, None)
  }

  function NewSession(a: UserId, b: UserId, room: RoomId, mode: string, now: Time): Session {
    Session(a, b, room, mode, Created, 1, now, None, None, NewRound(a, b), NewRound(b, a), None)
  }

  predicate Terminal(status: Status) { status.Completed? || status.Abandoned? || status.Canceled? }

  // ---- The clock -------------------------------------------------------------------------------

  predicate Elapsed(since: Option<Time>, duration: nat, now: Time) {
    since.Some? && now - since.value >= duration
  }

  predicate BothSubmitted(r: Round) { |r.givers| >= 2 }

  function Start(r: Round, now: Time): Round { r.(status := Active, startedAt := Some(now)) }
  function Stop(r: Round, now: Time): Round { r.(status := InFeedback, endedAt := Some(now)) }

  /** One `advance_state` call; `d` are the durations of the session's mode. */
  function Advance(s: Session, now: Time, d: Durations): Session {
    match s.status
    case Created =>
      s.(status := Preparation, version := s.version + 1, startedAt := Some(now), endsAt := Some(now + d.preparation))
    case Preparation =>
      if !Elapsed(s.startedAt, d.preparation, now) then s
      else s.(status := Round1Active, version := s.version + 1, r1 := Start(s.r1, now), endsAt := Some(now + d.active))
    case Round1Active =>
      if !Elapsed(s.r1.startedAt, d.active, now) then s
      else s.(status := Round1Feedback, version := s.version + 1, r1 := Stop(s.r1, now), endsAt := Some(now + d.feedback))
    case Round1Feedback =>
      if s.r1.endedAt.Some? && !Elapsed(s.r1.endedAt, d.feedback, now) && !BothSubmitted(s.r1) then s
      else s.(status := Round2Active, version := s.version + 1, r1 := s.r1.(status := Done), r2 := Start(s.r2, now),
              endsAt := Some(now + d.active))
    case Round2Active =>
      if !Elapsed(s.r2.startedAt, d.active, now) then s
      else s.(status := Round2Feedback, version := s.version + 1, r2 := Stop(s.r2, now), endsAt := Some(now + d.feedback))
    case Round2Feedback =>
      if s.r2.endedAt.Some? && !Elapsed(s.r2.endedAt, d.feedback, now) && !BothSubmitted(s.r2) then s
      else s.(status := Completed, version := s.version + 1, r2 := s.r2.(status := Done), completedAt := Some(now))
    case Completed => s
    case Abandoned => s
    case Canceled => s
  }

  // ---- Requests --------------------------------------------------------------------------------

  datatype Problem = Problem(id: ProblemId, room: RoomId, slot: nat, title: string, prompt: string)

  datatype RoundNumber = One | Two

  datatype Request =
    | Leave
    | GiveFeedback(round: RoundNumber, user: UserId)
    | Pick(round: RoundNumber, user: UserId, problem: Option<ProblemId>, customText: Option<string>)
    | SubmitCode(round: RoundNumber, user: UserId, language: string, code: string, at: Time)

  datatype Reply = Ok | Rejected(httpStatus: nat)

  datatype Response = Response(session: Session, reply: Reply)

  function RoundOf(s: Session, n: RoundNumber): Round { if n.One? then s.r1 else s.r2 }

  function WithRound(s: Session, n: RoundNumber, r: Round): Session {
    if n.One? then s.(r1 := r) else s.(r2 := r)
  }

  function Bump(s: Session): Session { s.(version := s.version + 1) }

  function DoLeave(s: Session): Response {
    Response(if Terminal(s.status) then s else Bump(s).(status := Abandoned), Ok)
  }

  function DoFeedback(s: Session, n: RoundNumber, user: UserId): Response {
    var r := RoundOf(s, n);
    if user != r.interviewer && user != r.interviewee then Response(s, Rejected(403))
    else if user in r.givers then Response(s, Rejected(409))
    else Response(Bump(WithRound(s, n, r.(givers := r.givers + {user}))), Ok)
  }

  /** Python's `str.isspace` code points. */
  predicate IsSpace(c: char) {
    var i := c as int;
    9 <= i <= 13 || 28 <= i <= 32 || i in {133, 160, 5760, 8232, 8233, 8239, 8287, 12288} || 8192 <= i <= 8202
  }

  lemma SpacesAre(c: char)
    ensures IsSpace(c) <==>
              (c as int) in {9, 10, 11, 12, 13, 28, 29, 30, 31, 32, 133, 160, 5760, 8192, 8193, 8194, 8195, 8196, 8197, 8198, 8199,
                             8200, 8201, 8202, 8232, 8233, 8239, 8287, 12288}
  {
  }

  function Strip(t: string): string {
    if t == [] then t
    else if IsSpace(t[0]) then Strip(t[1..])
    else if IsSpace(t[|t| - 1]) then Strip(t[..|t| - 1])
    else t
  }

  predicate AllSpace(t: string) { forall i :: 0 <= i < |t| ==> IsSpace(t[i]) }

  lemma MoreOnTheLeft(c: char, left: string, middle: string, right: string)
    ensures [c] + (left + middle + right) == ([c] + left) + middle + right
    ensures IsSpace(c) && AllSpace(left) ==> AllSpace([c] + left)
  {
  }

  lemma MoreOnTheRight(left: string, middle: string, right: string, c: char)
    ensures (left + middle + right) + [c] == left + middle + (right + [c])
    ensures IsSpace(c) && AllSpace(right) ==> AllSpace(right + [c])
  {
  }

  /** What is stripped is exactly the white space at both ends. */
  lemma {:induction false} StripTrims(t: string) returns (left: string, right: string)
    ensures t == left + Strip(t) + right && AllSpace(left) && AllSpace(right)
    ensures Strip(t) != "" ==> !IsSpace(Strip(t)[0]) && !IsSpace(Strip(t)[|Strip(t)| - 1])
  {
    hide IsSpace, AllSpace;
    left, right := "", "";
    if t == "" {
      NoSpace();
    } else if IsSpace(t[0]) {
      left, right := StripTrims(t[1..]);
      MoreOnTheLeft(t[0], left, Strip(t), right);
      assert t == [t[0]] + t[1..];
      left := [t[0]] + left;
    } else if IsSpace(t[|t| - 1]) {
      left, right := StripTrims(t[..|t| - 1]);
      MoreOnTheRight(left, Strip(t), right, t[|t| - 1]);
      assert t == t[..|t| - 1] + [t[|t| - 1]];
      right := right + [t[|t| - 1]];
    } else {
      NoSpace();
      assert "" + t + "" == t;
    }
  }

  lemma NoSpace()
    ensures AllSpace("")
  {
  }

  predicate Given(t: Option<string>) { t.Some? && t.value != "" }

  function Find(bank: seq<Problem>, id: ProblemId): Option<Problem> {
    if bank == [] then None else if bank[0].id == id then Some(bank[0]) else Find(bank[1..], id)
  }

  /** The stored choice a pick asks for, or the status it is refused with. */
  function Choice(bank: seq<Problem>, room: RoomId, problem: Option<ProblemId>, customText: Option<string>)
    : (Reply, Option<ProblemId>, Option<string>)
  {
    if Given(problem) == Given(customText) then (Rejected(400), None, None)
    else if Given(problem) then
      var row := Find(bank, problem.value);
      if row.None? || row.value.room != room then (Rejected(404), None, None)
      else (Ok, Some(row.value.id), None)
    else
      var text := Strip(customText.value);
      if text == "" || |text| > 2000 then (Rejected(400), None, None) else (Ok, None, Some(text))
  }

  function DoPick(s: Session, bank: seq<Problem>, n: RoundNumber, user: UserId, problem: Option<ProblemId>,
                  customText: Option<string>): Response
  {
    var r := RoundOf(s, n);
    if user != r.interviewer then Response(s, Rejected(403))
    else if r.status == Done then Response(s, Rejected(409))
    else
      var (reply, id, text) := Choice(bank, s.room, problem, customText);
      if reply != Ok then Response(s, reply)
      else Response(Bump(WithRound(s, n, r.(problem := id, customText := text))), Ok)
  }

  const SUPPORTED_LANGUAGES: set<string> :=
    {"python", "javascript", "typescript", "java", "cpp", "c", "csharp", "go", "ruby"}

  function DoSubmit(s: Session, n: RoundNumber, user: UserId, language: string, code: string, at: Time): Response {
    var r := RoundOf(s, n);
    if language !in SUPPORTED_LANGUAGES || |code| > 50_000 then Response(s, Rejected(400))
    else if user != r.interviewee then Response(s, Rejected(403))
    else Response(Bump(WithRound(s, n, r.(submission := Some(Submission(language, code, at))))), Ok)
  }

  function Handle(s: Session, bank: seq<Problem>, q: Request): Response {
    match q
    case Leave => DoLeave(s)
    case GiveFeedback(n, user) => DoFeedback(s, n, user)
    case Pick(n, user, problem, text) => DoPick(s, bank, n, user, problem, text)
    case SubmitCode(n, user, language, code, at) => DoSubmit(s, n, user, language, code, at)
  }

  // ---- What every poll and every request keeps -------------------------------------------------

  predicate Unstarted(r: Round) { r.status == Pending && r.startedAt == None && r.endedAt == None }
  predicate Running(r: Round) { r.status == Active && r.startedAt.Some? && r.endedAt == None }
  predicate Stopped(r: Round) { r.status == InFeedback && r.startedAt.Some? && r.endedAt.Some? }
  predicate Over(r: Round) { r.status == Done && r.startedAt.Some? && r.endedAt.Some? }

  predicate FrozenRounds(r1: Round, r2: Round) {
    || (Unstarted(r2) && (Unstarted(r1) || Running(r1) || Stopped(r1)))
    || (Over(r1) && (Running(r2) || Stopped(r2)))
  }

  /** When the current timed phase began. */
  function PhaseStart(s: Session): Option<Time> {
    match s.status
    case Preparation => s.startedAt
    case Round1Active => s.r1.startedAt
    case Round1Feedback => s.r1.endedAt
    case Round2Active => s.r2.startedAt
    case Round2Feedback => s.r2.endedAt
    case _ => None
  }

  function PhaseLength(status: Status, d: Durations): nat {
    match status
    case Preparation => d.preparation
    case Round1Active => d.active
    case Round2Active => d.active
    case Round1Feedback => d.feedback
    case Round2Feedback => d.feedback
    case _ => 0
  }

  /** The session status determines both rounds and what the countdown shows. */
  ghost predicate InPhase(s: Session, d: Durations) {
    && (match s.status
        case Created => Unstarted(s.r1) && Unstarted(s.r2) && s.startedAt == None && s.endsAt == None
        case Preparation => Unstarted(s.r1) && Unstarted(s.r2)
        case Round1Active => Running(s.r1) && Unstarted(s.r2)
        case Round1Feedback => Stopped(s.r1) && Unstarted(s.r2)
        case Round2Active => Over(s.r1) && Running(s.r2)
        case Round2Feedback => Over(s.r1) && Stopped(s.r2)
        case Completed => Over(s.r1) && Over(s.r2)
        case Abandoned => FrozenRounds(s.r1, s.r2)
        case Canceled => false)
    && (s.status.Completed? <==> s.completedAt.Some?)
    && (!s.status.Created? && !s.status.Abandoned? ==> s.startedAt.Some?)
    && (!s.status.Created? && !Terminal(s.status) ==>
          && PhaseStart(s).Some?
          && s.endsAt == Some(PhaseStart(s).value + PhaseLength(s.status, d)))
  }

  ghost predicate RoundOk(r: Round, interviewer: UserId, interviewee: UserId) {
    && r.interviewer == interviewer && r.interviewee == interviewee
    && r.givers <= {interviewer, interviewee}
    && !(r.problem.Some? && r.customText.Some?)
    && (r.problem.Some? ==> r.problem.value != "")
    && (r.customText.Some? ==> r.customText.value != "")
    && (r.submission.Some? ==> r.submission.value.language != "")
  }

  ghost predicate RoundsOk(s: Session) {
    RoundOk(s.r1, s.userA, s.userB) && RoundOk(s.r2, s.userB, s.userA)
  }

  ghost predicate Valid(s: Session, d: Durations) {
    && s.userA != s.userB
    && RoundsOk(s)
    && InPhase(s, d)
  }

  lemma NewSessionIsValid(a: UserId, b: UserId, room: RoomId, mode: string, now: Time, d: Durations)
    requires a != b
    ensures Valid(NewSession(a, b, room, mode, now), d)
  {
  }

  /** A poll moves rounds along but leaves what the participants put into them alone. */
  predicate SameContent(r: Round, q: Round) {
    q == r.(status := q.status, startedAt := q.startedAt, endedAt := q.endedAt)
  }

  lemma AdvanceKeepsContent(s: Session, now: Time, d: Durations)
    ensures var t := Advance(s, now, d);
            && SameContent(s.r1, t.r1) && SameContent(s.r2, t.r2)
            && t.userA == s.userA && t.userB == s.userB && t.room == s.room && t.mode == s.mode
            && t.createdAt == s.createdAt
  {
  }

  lemma AdvanceKeepsPhase(s: Session, now: Time, d: Durations)
    requires InPhase(s, d)
    ensures InPhase(Advance(s, now, d), d)
  {
    match s.status
    case Created =>
    case Preparation =>
    case _ =>
  }

  lemma {:induction false} AdvanceKeepsValid(s: Session, now: Time, d: Durations)
    requires Valid(s, d)
    ensures Valid(Advance(s, now, d), d)
  {
    AdvanceKeepsContent(s, now, d);
    AdvanceKeepsPhase(s, now, d);
  }

  lemma {:induction false} FoundHasId(bank: seq<Problem>, id: ProblemId)
    ensures Find(bank, id).Some? ==> Find(bank, id).value.id == id && Find(bank, id).value in bank
  {
    if bank != [] && bank[0].id != id {
      FoundHasId(bank[1..], id);
    }
  }

  /** Problem ids are keys. */
  ghost predicate DistinctIds(bank: seq<Problem>) { forall i, j :: 0 <= i < j < |bank| ==> bank[i].id != bank[j].id }

  lemma {:induction false} FindIsComplete(bank: seq<Problem>, p: Problem)
    requires DistinctIds(bank) && p in bank
    ensures Find(bank, p.id) == Some(p)
  {
    if bank[0] != p {
      var i :| 0 <= i < |bank| && bank[i] == p;
      assert bank[0].id != bank[i].id;
      FindIsComplete(bank[1..], p);
    }
  }

  /**
   Who may pick what: the reply of every pick, its refusals in order of precedence. Both kinds of session
   share this rule.
   */
  lemma {:induction false} PickReply(s: Session, bank: seq<Problem>, n: RoundNumber, user: UserId, problem: Option<ProblemId>,
                                     customText: Option<string>)
    requires DistinctIds(bank)
    ensures var r, reply := RoundOf(s, n), Handle(s, bank, Pick(n, user, problem, customText)).reply;
            && (reply == Rejected(403) <==> user != r.interviewer)
            && (reply == Rejected(409) <==> user == r.interviewer && r.status == Done)
            && (reply == Rejected(404) <==>
                  && user == r.interviewer && r.status != Done && Given(problem) && !Given(customText)
                  && forall p :: p in bank && p.room == s.room ==> p.id != problem.value)
            && (reply == Ok <==>
                  && user == r.interviewer && r.status != Done
                  && (|| (Given(problem) && !Given(customText) && exists p :: p in bank && p.room == s.room && p.id == problem.value)
                      || (!Given(problem) && Given(customText) && 1 <= |Strip(customText.value)| <= 2000)))
            && (reply in {Ok, Rejected(400), Rejected(403), Rejected(404), Rejected(409)})
            && (reply != Ok ==> Handle(s, bank, Pick(n, user, problem, customText)).session == s)
  {
    if Given(problem) {
      FoundHasId(bank, problem.value);
      forall p | p in bank && p.id == problem.value ensures Find(bank, problem.value) == Some(p) {
        FindIsComplete(bank, p);
      }
    }
    hide Find, Strip;
  }

  lemma LeaveKeepsPhase(s: Session, d: Durations)
    requires InPhase(s, d)
    ensures InPhase(DoLeave(s).session, d)
  {
  }

  /** The parts of a session its phase depends on. */
  predicate SameClock(s: Session, t: Session) {
    && t.status == s.status && t.startedAt == s.startedAt && t.completedAt == s.completedAt && t.endsAt == s.endsAt
    && t.r1.status == s.r1.status && t.r1.startedAt == s.r1.startedAt && t.r1.endedAt == s.r1.endedAt
    && t.r2.status == s.r2.status && t.r2.startedAt == s.r2.startedAt && t.r2.endedAt == s.r2.endedAt
  }

  lemma SameClockSamePhase(s: Session, t: Session, d: Durations)
    requires InPhase(s, d) && SameClock(s, t)
    ensures InPhase(t, d)
  {
  }

  lemma HandleKeepsClock(s: Session, bank: seq<Problem>, q: Request)
    requires !q.Leave?
    ensures SameClock(s, Handle(s, bank, q).session)
  {
    hide Choice;
  }

  lemma HandleKeepsPhase(s: Session, bank: seq<Problem>, q: Request, d: Durations)
    requires InPhase(s, d)
    ensures InPhase(Handle(s, bank, q).session, d)
  {
    hide InPhase, DoLeave, DoFeedback, DoPick, DoSubmit, SameClock;
    if q.Leave? {
      LeaveKeepsPhase(s, d);
    } else {
      HandleKeepsClock(s, bank, q);
      SameClockSamePhase(s, Handle(s, bank, q).session, d);
    }
  }

  lemma PickKeepsRounds(s: Session, bank: seq<Problem>, n: RoundNumber, user: UserId, problem: Option<ProblemId>,
                        customText: Option<string>)
    requires RoundsOk(s)
    ensures RoundsOk(DoPick(s, bank, n, user, problem, customText).session)
  {
    if problem.Some? {
      FoundHasId(bank, problem.value);
    }
  }

  lemma SubmitKeepsRounds(s: Session, n: RoundNumber, user: UserId, language: string, code: string, at: Time)
    requires RoundsOk(s)
    ensures RoundsOk(DoSubmit(s, n, user, language, code, at).session)
  {
  }

  lemma {:induction false} HandleKeepsValid(s: Session, bank: seq<Problem>, q: Request, d: Durations)
    requires Valid(s, d)
    ensures Valid(Handle(s, bank, q).session, d)
  {
    HandleKeepsPhase(s, bank, q, d);
    match q
    case Leave =>
    case GiveFeedback(n, user) =>
    case Pick(n, user, problem, text) => PickKeepsRounds(s, bank, n, user, problem, text);
    case SubmitCode(n, user, language, code, at) => SubmitKeepsRounds(s, n, user, language, code, at);
  }

  lemma HandleKeepsParties(s: Session, bank: seq<Problem>, q: Request)
    ensures var t := Handle(s, bank, q).session; t.userA == s.userA && t.userB == s.userB
  {
    match q
    case Leave =>
    case GiveFeedback(n, user) =>
    case Pick(n, user, problem, text) =>
    case SubmitCode(n, user, language, code, at) =>
  }
}
