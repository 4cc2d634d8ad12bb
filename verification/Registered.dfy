/** Registered sessions: database rows whose columns the service updates in place. */
module Registered {
  import opened Wrappers
  import opened Identity
  import opened Sessions
  import Lifecycle
  import Redis
  import Streaks

  const DAY_LENGTH: nat := 86_400_000

  function DayOf(now: Time): Streaks.Day { now / DAY_LENGTH }

  lemma OverStays(s: Session, now: Time, d: Durations)
    ensures Terminal(s.status) ==> Advance(s, now, d) == s
  {
  }

  class InterviewRound {
    const interviewer: UserId
    const interviewee: UserId
    var status: RoundStatus
    var startedAt: Option<Time>
    var endedAt: Option<Time>
    var feedbackGivers: set<UserId>
    var problemId: Option<ProblemId>
    var customProblemText: Option<string>
    var submission: Option<Submission>

    function View(): Round
      reads this
    {
      Round(interviewer, interviewee, status, startedAt, endedAt, feedbackGivers, problemId, customProblemText, submission)
    }

    constructor (interviewer: UserId, interviewee: UserId)
      ensures View() == NewRound(interviewer, interviewee)
    {
      this.interviewer, this.interviewee := interviewer, interviewee;
      status, startedAt, endedAt, feedbackGivers := Pending, None, None, {};
      problemId, customProblemText, submission := None, None, None;
    }
  }

  class InterviewSession {
    const userA: UserId
    const userB: UserId
    const room: RoomId
    const mode: string
    const createdAt: Time
    const round1: InterviewRound
    const round2: InterviewRound
    var status: Status
    var version: int
    var startedAt: Option<Time>
    var completedAt: Option<Time>
    var abandonedAt: Option<Time>
    var endsAt: Option<Time>   // the session's ends_at key in Redis

    ghost predicate Separate() { round1 != round2 }

    function View(): Session
      reads this, round1, round2
    {
      Session(userA, userB, room, mode, status, version, createdAt, startedAt, completedAt,
              round1.View(), round2.View(), endsAt)
    }

    constructor (a: UserId, b: UserId, room: RoomId, mode: string, now: Time)
      ensures Separate() && fresh(round1) && fresh(round2)
      ensures View() == NewSession(a, b, room, mode, now)
    {
      userA, userB := a, b;
      this.room, this.mode, createdAt := room, mode, now;
      status, version := Created, 1;
      startedAt, completedAt, abandonedAt, endsAt := None, None, None, None;
      round1 := new InterviewRound(a, b);
      round2 := new InterviewRound(b, a);
    }

    function GetRound(n: RoundNumber): (r: InterviewRound)
      ensures r == round1 || r == round2
    {
      if n.One? then round1 else round2
    }

    /** Credits both participants with an interview on the day of `now`. */
    method CreditParticipants(now: Time, streaks: Streaks.StreakTable)
      requires streaks.Valid()
      modifies streaks, streaks.rows.Values
      ensures streaks.Valid() && fresh(streaks.rows.Values - old(streaks.rows.Values))
      ensures forall u :: u != userA && u != userB ==> streaks.RowOf(u) == old(streaks.RowOf(u))
      ensures userA != userB ==> forall u :: u == userA || u == userB ==>
                streaks.RowOf(u) == Streaks.Record(old(streaks.RowOf(u)), Streaks.Interview, DayOf(now))
    {
      var _ := streaks.RecordCheckin(userA, Streaks.Interview, DayOf(now));
      var _ := streaks.RecordCheckin(userB, Streaks.Interview, DayOf(now));
    }

    /** The status machine of `advance_state`, without what completion sets off. */
    method MoveOn(now: Time, d: Durations)
      requires Separate() && !Terminal(status)
      modifies this, round1, round2
      ensures View() == Advance(old(View()), now, d) && abandonedAt == old(abandonedAt)
    {
      match status {
        case Created =>
          status := Preparation;
          startedAt := Some(now);
          version := version + 1;
          endsAt := Some(now + d.preparation);
        case Preparation =>
          if startedAt.Some? && now - startedAt.value >= d.preparation {
            status := Round1Active;
            version := version + 1;
            round1.status := Active;
            round1.startedAt := Some(now);
            endsAt := Some(now + d.active);
          }
        case Round1Active =>
          if round1.startedAt.Some? && now - round1.startedAt.value >= d.active {
            status := Round1Feedback;
            version := version + 1;
            round1.status := InFeedback;
            round1.endedAt := Some(now);
            endsAt := Some(now + d.feedback);
          }
        case Round1Feedback =>
          var timeUp := if round1.endedAt.Some? then now - round1.endedAt.value >= d.feedback else true;
          var bothSubmitted := |round1.feedbackGivers| >= 2;
          if timeUp || bothSubmitted {
            status := Round2Active;
            version := version + 1;
            round1.status := Done;
            round2.status := Active;
            round2.startedAt := Some(now);
            endsAt := Some(now + d.active);
          }
        case Round2Active => MoveSecondRound(now, d);
        case Round2Feedback => MoveSecondRound(now, d);
      }
    }

    /** ... its last two transitions. */
    method MoveSecondRound(now: Time, d: Durations)
      requires Separate() && (status.Round2Active? || status.Round2Feedback?)
      modifies this, round2
      ensures View() == Advance(old(View()), now, d) && abandonedAt == old(abandonedAt)
    {
      match status {
        case Round2Active =>
          if round2.startedAt.Some? && now - round2.startedAt.value >= d.active {
            status := Round2Feedback;
            version := version + 1;
            round2.status := InFeedback;
            round2.endedAt := Some(now);
            endsAt := Some(now + d.feedback);
          }
        case Round2Feedback =>
          var timeUp := if round2.endedAt.Some? then now - round2.endedAt.value >= d.feedback else true;
          var bothSubmitted := |round2.feedbackGivers| >= 2;
          if timeUp || bothSubmitted {
            status := Completed;
            completedAt := Some(now);
            version := version + 1;
            round2.status := Done;
          }
      }
    }

    method AdvanceState(now: Time, testing: bool, redis: Redis.RedisClient, streaks: Streaks.StreakTable)
      returns (active: bool)
      requires Separate() && streaks.Valid()
      modifies this, round1, round2, redis, streaks, streaks.rows.Values
      ensures View() == Advance(old(View()), now, ModeDurations(mode, testing))
      ensures active == !Terminal(status) && abandonedAt == old(abandonedAt)
      ensures streaks.Valid() && fresh(streaks.rows.Values - old(streaks.rows.Values))
      ensures status == Completed && old(status) != Completed ==>
                && redis.View() == Redis.Forget(old(redis.View()), userA, userB)
                && (forall u :: u != userA && u != userB ==> streaks.RowOf(u) == old(streaks.RowOf(u)))
                && (userA != userB ==> forall u :: u == userA || u == userB ==>
                      streaks.RowOf(u) == Streaks.Record(old(streaks.RowOf(u)), Streaks.Interview, DayOf(now)))
      ensures !(status == Completed && old(status) != Completed) ==>
                redis.View() == old(redis.View()) && forall u :: streaks.RowOf(u) == old(streaks.RowOf(u))
    {
      hide Advance, ModeDurations;
      OverStays(View(), now, ModeDurations(mode, testing));
      if Terminal(status) {
        return false;
      }
      MoveOn(now, ModeDurations(mode, testing));
      if status == Completed {
        CreditParticipants(now, streaks);
        ForgetParticipants(redis);
      }
      return !Terminal(status);
    }

    method ForgetParticipants(redis: Redis.RedisClient)
      modifies redis
      ensures redis.View() == Redis.Forget(old(redis.View()), userA, userB)
    {
      redis.ForgetUser(userA);
      redis.ForgetUser(userB);
    }

    /** `loaded`: whether the participants can be read after the commit; if not, their keys stay. */
    method LeaveSession(now: Time, redis: Redis.RedisClient, loaded: bool)
      requires Separate()
      modifies this, redis
      ensures View() == DoLeave(old(View())).session
      ensures abandonedAt == if Terminal(old(status)) then old(abandonedAt) else Some(now)
      ensures redis.View() == if Terminal(old(status)) || !loaded then old(redis.View())
                              else Redis.Forget(old(redis.View()), userA, userB)
    {
      if !Terminal(status) {
        status := Abandoned;
        abandonedAt := Some(now);
        version := version + 1;
        if loaded {
          ForgetParticipants(redis);
        }
      }
    }

    method SubmitFeedback(n: RoundNumber, user: UserId) returns (reply: Reply)
      requires Separate()
      modifies this, round1, round2
      ensures Response(View(), reply) == DoFeedback(old(View()), n, user)
    {
      var r := GetRound(n);
      if user != r.interviewer && user != r.interviewee {
        return Rejected(403);
      }
      if user in r.feedbackGivers {
        return Rejected(409);
      }
      r.feedbackGivers := r.feedbackGivers + {user};
      version := version + 1;
      return Ok;
    }

    method SelectProblem(bank: seq<Problem>, n: RoundNumber, user: UserId, problem: Option<ProblemId>,
                         customText: Option<string>) returns (reply: Reply)
      requires Separate()
      modifies this, round1, round2
      ensures Response(View(), reply) == DoPick(old(View()), bank, n, user, problem, customText)
    {
      var r := GetRound(n);
      if user != r.interviewer {
        return Rejected(403);
      }
      if r.status == Done {
        return Rejected(409);
      }
      if Given(problem) == Given(customText) {
        return Rejected(400);
      }
      if Given(problem) {
        var row := Find(bank, problem.value);
        if row.None? || row.value.room != room {
          return Rejected(404);
        }
        r.problemId := Some(row.value.id);
        r.customProblemText := None;
      } else {
        var text := Strip(customText.value);
        if text == "" || |text| > 2000 {
          return Rejected(400);
        }
        r.customProblemText := Some(text);
        r.problemId := None;
      }
      version := version + 1;
      return Ok;
    }

    method SubmitRoundCode(n: RoundNumber, user: UserId, language: string, code: string, at: Time) returns (reply: Reply)
      requires Separate()
      modifies this, round1, round2
      ensures Response(View(), reply) == DoSubmit(old(View()), n, user, language, code, at)
    {
      if language !in SUPPORTED_LANGUAGES {
        return Rejected(400);
      }
      if |code| > 50_000 {
        return Rejected(400);
      }
      var r := GetRound(n);
      if user != r.interviewee {
        return Rejected(403);
      }
      r.submission := Some(Submission(language, code, at));
      version := version + 1;
      return Ok;
    }

    /** Any one request, as the router dispatches it. */
    method Serve(bank: seq<Problem>, q: Request, now: Time, redis: Redis.RedisClient) returns (reply: Reply)
      requires Separate()
      modifies this, round1, round2, redis
      ensures Response(View(), reply) == Handle(old(View()), bank, q)
    {
      match q {
        case Leave =>
          LeaveSession(now, redis, true);
          reply := Ok;
        case GiveFeedback(n, user) => reply := SubmitFeedback(n, user);
        case Pick(n, user, problem, text) => reply := SelectProblem(bank, n, user, problem, text);
        case SubmitCode(n, user, language, code, at) => reply := SubmitRoundCode(n, user, language, code, at);
      }
    }

    /** What the loop keeps: a valid session that can be polled `budget` times at most. */
    ghost predicate Within(d: Durations, last: Time, budget: int)
      reads this, round1, round2
    {
      && Separate() && Valid(View(), d) && Lifecycle.Pending(View(), d, last)
      && 1 <= Lifecycle.PollsLeft(View(), d, last) <= budget
    }

    method ServeAll(bank: seq<Problem>, requests: seq<Request>, now: Time, redis: Redis.RedisClient, ghost d: Durations,
                    ghost budget: int)
      requires Within(d, now, budget)
      modifies this, round1, round2, redis
      ensures Within(d, now, budget) && View() == Lifecycle.Play(old(View()), bank, d, Lifecycle.Asks(requests))
    {
      for j := 0 to |requests|
        invariant Within(d, now, budget) && View() == Lifecycle.Play(old(View()), bank, d, Lifecycle.Asks(requests[..j]))
      {
        ghost var was := View();
        Lifecycle.PlayAsk(old(View()), bank, d, requests, j);
        var _ := Serve(bank, requests[j], now, redis);
        HandleKeepsValid(was, bank, requests[j], d);
        Lifecycle.AskSpendsNoPolls(was, bank, d, now, requests[j]);
      }
      assert requests[..|requests|] == requests;
    }

    method PollOnce(now: Time, testing: bool, redis: Redis.RedisClient, streaks: Streaks.StreakTable, ghost last: Time,
                    ghost budget: int) returns (active: bool)
      requires Within(ModeDurations(mode, testing), last, budget) && streaks.Valid()
      requires Lifecycle.Timed(status) ==> last + Lifecycle.POLL_INTERVAL <= now
      modifies this, round1, round2, redis, streaks, streaks.rows.Values
      ensures View() == Advance(old(View()), now, ModeDurations(mode, testing)) && active == !Terminal(status)
      ensures active ==> Within(ModeDurations(mode, testing), now, budget - 1)
      ensures streaks.Valid() && fresh(streaks.rows.Values - old(streaks.rows.Values))
    {
      ghost var before := View();
      active := AdvanceState(now, testing, redis, streaks);
      if !Terminal(before.status) {
        Lifecycle.PollsAreSpent(before, ModeDurations(mode, testing), last, now);
      }
      AdvanceKeepsValid(before, now, ModeDurations(mode, testing));
    }

    /** After `polls` polls, and the requests served after them, the session is not over and has played them all. */
    ghost predicate Playing(start: Session, bank: seq<Problem>, d: Durations, clock: nat -> Time, asked: nat -> seq<Request>,
                            polls: nat, budget: int)
      reads this, round1, round2
    {
      && Within(d, if polls == 0 then clock(0) else clock(polls - 1), budget) && (polls == 0 ==> status == Created)
      && View() == Lifecycle.Play(start, bank, d, Lifecycle.Rounds(clock, asked, polls))
      && Lifecycle.NotOver(start, bank, d, clock, asked, polls)
    }

    lemma BeginsPlaying(bank: seq<Problem>, d: Durations, clock: nat -> Time, asked: nat -> seq<Request>)
      requires Separate() && status == Created && Valid(View(), d)
      ensures Playing(View(), bank, d, clock, asked, 0, Lifecycle.PollBound(d))
    {
      Lifecycle.PlayNothing(View(), bank, d, clock, asked);
    }

    /** One turn of the loop. */
    method PlayRound(clock: nat -> Time, asked: nat -> seq<Request>, bank: seq<Problem>, testing: bool, redis: Redis.RedisClient,
                     streaks: Streaks.StreakTable, ghost start: Session, polls: nat, ghost budget: int) returns (active: bool)
      requires streaks.Valid() && Playing(start, bank, ModeDurations(mode, testing), clock, asked, polls, budget)
      requires polls > 0 ==> clock(polls - 1) + 2_000 <= clock(polls)
      modifies this, round1, round2, redis, streaks, streaks.rows.Values
      ensures budget >= 1 && streaks.Valid() && fresh(streaks.rows.Values - old(streaks.rows.Values))
      ensures if active then Playing(start, bank, ModeDurations(mode, testing), clock, asked, polls + 1, budget - 1)
              else
                && Terminal(status) && Lifecycle.NotOver(start, bank, ModeDurations(mode, testing), clock, asked, polls)
                && View() == Lifecycle.Play(start, bank, ModeDurations(mode, testing), Lifecycle.LoopEvents(clock, asked, polls + 1))
    {
      hide Valid, Lifecycle.Pending, Lifecycle.PollsLeft, Lifecycle.Play, Lifecycle.NotOver, Advance, ModeDurations;
      ghost var d := ModeDurations(mode, testing);
      ghost var played := Lifecycle.Rounds(clock, asked, polls);
      Lifecycle.PlayPoll(start, bank, d, played, clock(polls));
      active := PollOnce(clock(polls), testing, redis, streaks, if polls == 0 then clock(0) else clock(polls - 1), budget);
      if active {
        Lifecycle.StillNotOver(start, bank, d, clock, asked, polls + 1);
        Lifecycle.PlayAppend(start, bank, d, played + [Lifecycle.Poll(clock(polls))], Lifecycle.Asks(asked(polls)));
        ServeAll(bank, asked(polls), clock(polls), redis, d, budget - 1);
      }
    }

    /**
     The poll loop. `clock(i)` is the time of its i-th poll, the sleep keeps polls at least two seconds
     apart, and `asked(i)` are the requests served between polls i and i + 1. It plays these events up to
     the first poll after which the session is over.
     */
    method StartSessionLifecycle(clock: nat -> Time, asked: nat -> seq<Request>, bank: seq<Problem>, testing: bool,
                                 redis: Redis.RedisClient, streaks: Streaks.StreakTable) returns (polls: nat)
      requires Separate() && streaks.Valid()
      requires status == Created && Valid(View(), ModeDurations(mode, testing))
      requires forall i: nat :: clock(i) + 2_000 <= clock(i + 1)
      modifies this, round1, round2, redis, streaks, streaks.rows.Values
      ensures Terminal(status)
      ensures polls >= 1
              && View() == Lifecycle.Play(old(View()), bank, ModeDurations(mode, testing), Lifecycle.LoopEvents(clock, asked, polls))
              && Lifecycle.NotOver(old(View()), bank, ModeDurations(mode, testing), clock, asked, polls - 1)
      ensures 1 <= polls <= Lifecycle.PollBound(ModeDurations(mode, testing))
      ensures !testing ==> polls <= if mode == "QUICK" then 376 else 1_036
    {
      hide Playing, Valid, View, ModeDurations, Lifecycle.PollBound, Lifecycle.Play, Lifecycle.NotOver, Lifecycle.Rounds,
           Lifecycle.LoopEvents, Terminal;
      ghost var d := ModeDurations(mode, testing);
      ghost var bound := Lifecycle.PollBound(d);
      ghost var start := View();
      Lifecycle.PollBoundIs(mode);
      BeginsPlaying(bank, d, clock, asked);
      polls := 0;
      while true
        invariant streaks.Valid() && fresh(streaks.rows.Values - old(streaks.rows.Values))
        invariant Playing(start, bank, d, clock, asked, polls, bound - polls)
        decreases bound - polls
      {
        var active := PlayRound(clock, asked, bank, testing, redis, streaks, start, polls, bound - polls);
        polls := polls + 1;
        if !active {
          break;
        }
      }
    }
  }
}
