/** Interview credit over whole runs of the service. */
module Credits {
  import opened Wrappers
  import opened Identity
  import opened Redis
  import opened MatchRuns
  import opened Matchmaking
  import S = Sessions
  import Registered
  import Streaks

  function Count(log: seq<Credit>, m: MatchId, u: UserId): nat {
    if log == [] then 0
    else Count(log[..|log| - 1], m, u) + (if log[|log| - 1].matchId == m && log[|log| - 1].user == u then 1 else 0)
  }

  function DaysOf(log: seq<Credit>, u: UserId): seq<Streaks.Day> {
    if log == [] then [] else
    var rest := DaysOf(log[..|log| - 1], u);
    if log[|log| - 1].user == u then rest + [log[|log| - 1].day] else rest
  }

  /** User `u` took part in registered session `m`, and it completed. */
  predicate Earned(w: World, m: MatchId, u: UserId) {
    && m in w.sessions && m !in w.guests && w.sessions[m].status.Completed?
    && (u == w.sessions[m].userA || u == w.sessions[m].userB)
  }

  ghost predicate ByDay(log: seq<Credit>) { forall i, j :: 0 <= i <= j < |log| ==> log[i].day <= log[j].day }

  ghost predicate Accounted(w: World) {
    && w.guests <= w.sessions.Keys
    && (forall m, u :: Count(w.credits, m, u) == if Earned(w, m, u) then 1 else 0)
    && (forall c :: c in w.credits ==>
          && Earned(w, c.matchId, c.user) && w.sessions[c.matchId].completedAt.Some?
          && c.day == Registered.DayOf(w.sessions[c.matchId].completedAt.value))
    && ByDay(w.credits)
    && (forall c :: c in w.credits ==> c.day <= Registered.DayOf(w.now))
  }

  lemma CountSnoc(log: seq<Credit>, c: Credit, m: MatchId, u: UserId)
    ensures Count(log + [c], m, u) == Count(log, m, u) + (if c.matchId == m && c.user == u then 1 else 0)
  {
    assert (log + [c])[..|log|] == log;
  }

  lemma CountPair(log: seq<Credit>, m: MatchId, a: UserId, b: UserId, day: Streaks.Day, x: MatchId, u: UserId)
    requires a != b
    ensures Count(log + [Credit(a, m, day), Credit(b, m, day)], x, u)
         == Count(log, x, u) + (if x == m && (u == a || u == b) then 1 else 0)
  {
    var one := log + [Credit(a, m, day)];
    assert log + [Credit(a, m, day), Credit(b, m, day)] == one + [Credit(b, m, day)];
    CountSnoc(log, Credit(a, m, day), x, u);
    CountSnoc(one, Credit(b, m, day), x, u);
  }

  /** Completion earns both participants the credit; nobody else's credit changes. */
  lemma PollingEarns(w: World, m: MatchId, testing: bool)
    requires m in w.sessions
    ensures var s := w.sessions[m];
            var t := Polling(w, testing, m);
            var day := Registered.DayOf(w.now);
            && t.guests == w.guests && t.now == w.now && t.sessions.Keys == w.sessions.Keys
            && (forall x :: x in w.sessions && x != m ==> t.sessions[x] == w.sessions[x])
            && (if t.credits == w.credits then forall x, u :: Earned(t, x, u) <==> Earned(w, x, u)
                else
                  && t.credits == w.credits + [Credit(s.userA, m, day), Credit(s.userB, m, day)]
                  && t.sessions[m].completedAt == Some(w.now)
                  && forall x, u :: Earned(t, x, u) <==> Earned(w, x, u) || (x == m && (u == s.userA || u == s.userB)))
            && (forall x, u :: Earned(w, x, u) ==> x in w.sessions && t.sessions[x] == w.sessions[x])
            && (forall u :: Earned(w, m, u) ==> t.credits == w.credits)
  {
    var s := w.sessions[m];
    var d := DurationsOf(s, testing);
    SessionEffect(s, [], S.Leave, w.now, d);
    S.AdvanceKeepsContent(s, w.now, d);
    hide S.Advance, DurationsOf;
  }

  lemma LatestDay(log: seq<Credit>, x: Credit, y: Credit)
    requires ByDay(log) && x.day == y.day && forall c :: c in log ==> c.day <= x.day
    ensures ByDay(log + [x, y])
  {
    assert forall i :: 0 <= i < |log| ==> log[i] in log;
  }

  lemma {:induction false} PollingAccounts(w: World, m: MatchId, testing: bool)
    requires Accounted(w) && m in w.sessions && w.sessions[m].userA != w.sessions[m].userB
    ensures Accounted(Polling(w, testing, m))
  {
    hide Polling, Earned, Count, ByDay;
    PollingEarns(w, m, testing);
    var s := w.sessions[m];
    var t := Polling(w, testing, m);
    var day := Registered.DayOf(w.now);
    if t.credits != w.credits {
      LatestDay(w.credits, Credit(s.userA, m, day), Credit(s.userB, m, day));
      forall x, u ensures Count(t.credits, x, u) == if Earned(t, x, u) then 1 else 0 {
        CountPair(w.credits, m, s.userA, s.userB, day, x, u);
      }
      assert forall c :: c in t.credits ==> c in w.credits || c == Credit(s.userA, m, day) || c == Credit(s.userB, m, day);
    }
  }

  lemma ServingAccounts(w: World, bank: seq<S.Problem>, m: MatchId, q: S.Request, loaded: bool)
    requires Accounted(w)
    ensures Accounted(Serving(w, bank, m, q, loaded))
  {
    if m in w.sessions {
      var s := w.sessions[m];
      S.HandleKeepsParties(s, bank, q);
      HandleKeepsCompletion(s, bank, q);
      hide S.Handle;
      var t := Serving(w, bank, m, q, loaded);
      assert forall x, u :: Earned(t, x, u) <==> Earned(w, x, u);
    }
  }

  lemma HandleKeepsCompletion(s: S.Session, bank: seq<S.Problem>, q: S.Request)
    ensures var t := S.Handle(s, bank, q).session;
            (t.status.Completed? <==> s.status.Completed?) && t.completedAt == s.completedAt
  {
    match q
    case Leave =>
    case GiveFeedback(n, user) =>
    case Pick(n, user, problem, text) =>
    case SubmitCode(n, user, language, code, at) =>
  }

  lemma JoiningAccounts(w: World, user: UserId, key: QueueKey, lastPartner: UserId, m: MatchId, creation: Creation)
    requires Accounted(w) && m !in w.sessions
    ensures Accounted(Joining(w, user, key, lastPartner, m, creation))
  {
    hide Join;
    var t := Joining(w, user, key, lastPartner, m, creation);
    assert forall x, u :: Earned(t, x, u) <==> Earned(w, x, u);
  }

  lemma PerformAccounts(w: World, bank: seq<S.Problem>, a: Action, testing: bool)
    requires Paired(w) && Accounted(w) && NewId(w, a)
    ensures Accounted(Perform(w, bank, testing, a))
  {
    hide Accounted, Joining, Serving, LeaveQueue;
    match a
    case JoinAction(user, key, lastPartner, m, creation) => JoiningAccounts(w, user, key, lastPartner, m, creation);
    case LeaveQueueAction(user, key) => QueueLeaveAccounts(w, user, key);
    case RequestAction(m, q, loaded) => ServingAccounts(w, bank, m, q, loaded);
    case PollAction(m) =>
      if m in w.sessions {
        PollingAccounts(w, m, testing);
      }
    case TickAction(span) => TickAccounts(w, span);
  }

  lemma QueueLeaveAccounts(w: World, user: UserId, key: QueueKey)
    requires Accounted(w)
    ensures Accounted(w.(keys := LeaveQueue(w.keys, user, key)))
  {
    hide LeaveQueue;
    assert forall x, u :: Earned(w.(keys := LeaveQueue(w.keys, user, key)), x, u) <==> Earned(w, x, u);
  }

  lemma TickAccounts(w: World, span: Time)
    requires Accounted(w)
    ensures Accounted(w.(now := w.now + span))
  {
    var t := w.(now := w.now + span);
    assert forall x, u :: Earned(t, x, u) <==> Earned(w, x, u);
    assert Registered.DayOf(w.now) <= Registered.DayOf(t.now);
  }

  lemma {:induction false} AlwaysAccounted(bank: seq<S.Problem>, testing: bool, actions: seq<Action>)
    requires NewIdsFrom(EMPTY, bank, testing, actions)
    ensures Accounted(Run(bank, testing, actions))
  {
    if actions != [] {
      var before := actions[..|actions| - 1];
      AlwaysAccounted(bank, testing, before);
      AlwaysPaired(bank, testing, before);
      PerformAccounts(Run(bank, testing, before), bank, actions[|actions| - 1], testing);
    }
  }

  /**
   Every participant of a registered interview is credited once when it completes, and never otherwise,
   however long its loop may have slept.
   */
  lemma {:induction false} CreditedExactlyOnce(bank: seq<S.Problem>, testing: bool, actions: seq<Action>,
                                               m: MatchId, u: UserId)
    requires NewIdsFrom(EMPTY, bank, testing, actions)
    ensures var w := Run(bank, testing, actions);
            Count(w.credits, m, u) == if Earned(w, m, u) then 1 else 0
  {
    AlwaysAccounted(bank, testing, actions);
  }

  /** `u` completed a registered interview on the UTC day that starts `day` times 86,400 seconds after the epoch. */
  ghost predicate CompletedOn(w: World, u: UserId, day: Streaks.Day) {
    exists m :: Earned(w, m, u) && w.sessions[m].completedAt.Some?
                && day * 86_400_000 <= w.sessions[m].completedAt.value < (day + 1) * 86_400_000
  }

  lemma DayBounds(t: Time, day: Streaks.Day)
    ensures day * 86_400_000 <= t < (day + 1) * 86_400_000 <==> Registered.DayOf(t) == day
  {
  }

  lemma {:induction false} DaysAreCredits(log: seq<Credit>, u: UserId)
    requires ByDay(log)
    ensures Streaks.Ascending(DaysOf(log, u))
    ensures forall day :: day in DaysOf(log, u) <==> exists c :: c in log && c.user == u && c.day == day
  {
    if log != [] {
      var before, c := log[..|log| - 1], log[|log| - 1];
      DaysAreCredits(before, u);
      forall day | day in DaysOf(before, u) ensures day <= c.day {
        var x :| x in before && x.user == u && x.day == day;
        var i :| 0 <= i < |before| && before[i] == x;
        assert log[i] == x;
      }
      assert forall x :: x in log <==> x in before || x == c;
      var days := DaysOf(before, u);
      forall i | 0 <= i < |days| ensures days[i] <= c.day {
        assert days[i] in days;
      }
    }
  }

  lemma {:induction false} CountedIsLogged(log: seq<Credit>, m: MatchId, u: UserId)
    ensures Count(log, m, u) > 0 ==> exists c :: c in log && c.matchId == m && c.user == u
  {
    if log != [] && Count(log, m, u) > 0 {
      var c := log[|log| - 1];
      if c.matchId == m && c.user == u {
        assert c in log;
      } else {
        CountedIsLogged(log[..|log| - 1], m, u);
      }
    }
  }

  /**
   The interview streak over any run: the counter is the run of consecutive days, ending at the last
   one, on which the user completed a registered interview.
   */
  lemma {:induction false} StreakCountsCompletedInterviews(bank: seq<S.Problem>, testing: bool,
                                                           actions: seq<Action>, u: UserId)
    requires NewIdsFrom(EMPTY, bank, testing, actions)
    ensures var w := Run(bank, testing, actions);
            var days := DaysOf(w.credits, u);
            && Streaks.Tracks(Streaks.Fold(days), days)
            && forall day :: day in Streaks.Days(days) <==> CompletedOn(w, u, day)
  {
    AlwaysAccounted(bank, testing, actions);
    var w := Run(bank, testing, actions);
    var days := DaysOf(w.credits, u);
    DaysAreCredits(w.credits, u);
    Streaks.StreakIsRunLength(days);
    forall day | CompletedOn(w, u, day) ensures day in days {
      var m :| Earned(w, m, u) && w.sessions[m].completedAt.Some?
               && day * 86_400_000 <= w.sessions[m].completedAt.value < (day + 1) * 86_400_000;
      DayBounds(w.sessions[m].completedAt.value, day);
      CountedIsLogged(w.credits, m, u);
    }
    forall day | day in days ensures CompletedOn(w, u, day) {
      var c :| c in w.credits && c.user == u && c.day == day;
      DayBounds(w.sessions[c.matchId].completedAt.value, day);
    }
  }
}
