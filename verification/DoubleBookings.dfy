/**
 Three runs in which every reservation is finalized in time and a user still ends up in two sessions. In
 the first, a script runs between the deletion of a pair's locks and its removal from the queue. In the
 second no script runs inside any finalization: a user's second request, past its check for a match,
 queues the user again after the first request has been matched and finalized. In the third no script
 takes anybody who is engaged to an unfinished match: a finalization outlives its own session, and its
 late note replaces that of the next one.
 */
module DoubleBookings {
  import opened Identity
  import opened SortedSets
  import opened Redis
  import opened Matchmaking
  import opened Commands
  import opened Bookings

  /** No script runs while some join is being finalized. */
  predicate Undisturbed(s: State, act: Act) {
    act.Command? && act.id in s.joiners && s.joiners[act.id].stage.RunScript? ==>
      forall i :: i in s.joiners ==> !Unlocked(s.joiners[i])
  }

  /** Scripts reserve nobody who is engaged to an unfinished match. */
  predicate Sparing(s: State, act: Act) {
    act.Command? && act.id in s.joiners && s.joiners[act.id].stage.RunScript? && NextReply(s, act.id).NewMatch? ==>
      !Taken(s, s.joiners[act.id].user) && !Taken(s, NextReply(s, act.id).partner)
  }

  /** What is asked of every step of a run, besides that it is timely. */
  datatype Rule = Anything | NoScriptInFinalization | NobodyTaken

  predicate Obeys(rule: Rule, s: State, act: Act) {
    match rule
    case Anything => true
    case NoScriptInFinalization => Undisturbed(s, act)
    case NobodyTaken => Sparing(s, act)
  }

  predicate ObedientRun(rule: Rule, acts: seq<Act>)
    decreases |acts|
  {
    acts == [] || (ObedientRun(rule, acts[..|acts| - 1]) && Obeys(rule, Exec(acts[..|acts| - 1]), acts[|acts| - 1]))
  }

  /** A timely run under a rule that leads to `s`. */
  ghost predicate Reached(rule: Rule, acts: seq<Act>, s: State) {
    TimelyRun(acts) && ObedientRun(rule, acts) && Exec(acts) == s
  }

  lemma Reach(acts: seq<Act>, s: State, act: Act, t: State, rule: Rule) returns (more: seq<Act>)
    requires Reached(rule, acts, s) && Timely(s, act) && Obeys(rule, s, act) && t == Step(s, act)
    ensures Reached(rule, more, t)
  {
    more := acts + [act];
    assert more[..|acts|] == acts;
    hide Step;
  }

  const ROOM := QueueKey("room", "STANDARD", "REGISTERED")

  function At(u: UserId, m: MatchId, stage: Stage): Joiner { Joiner(u, ROOM, "", m, stage, 0) }

  /** Finished, with "a" as partner. */
  function TookFirst(u: UserId, m: MatchId): Stage { Finished(Matched(m, u, "a")) }

  /** A command that moves request `id`, at time 0, to stage `next`. */
  lemma Move(acts: seq<Act>, s: State, id: nat, u: UserId, m: MatchId, stage: Stage, k: Keys, next: Stage, rule: Rule)
    returns (more: seq<Act>, t: State)
    requires Reached(rule, acts, s) && s.now == 0 && id in s.joiners && s.joiners[id] == At(u, m, stage) && !stage.Create?
    requires Issue(s.keys, s.joiners[id], 0, true) == (k, At(u, m, next)) && Obeys(rule, s, Command(id, true))
    ensures Reached(rule, more, t) && t == s.(keys := k, joiners := s.joiners[id := At(u, m, next)])
  {
    hide Reached, Issue, Obeys;
    t := s.(keys := k, joiners := s.joiners[id := At(u, m, next)]);
    more := Reach(acts, s, Command(id, true), t, rule);
  }

  /** A request of a user without a match, up to its script. */
  lemma ReachScript(acts: seq<Act>, s: State, id: nat, u: UserId, m: MatchId, rule: Rule) returns (more: seq<Act>, t: State)
    requires Reached(rule, acts, s) && s.now == 0 && Timely(s, Arrive(id, u, ROOM, "", m))
    requires u !in s.keys.activeMatch && (u in s.keys.currentQueue ==> s.keys.currentQueue[u].value == ROOM)
    ensures Reached(rule, more, t)
    ensures t == s.(keys := s.keys.(currentQueue := s.keys.currentQueue[u := Expiring(ROOM, QUEUE_TTL)]),
                    joiners := s.joiners[id := At(u, m, RunScript)])
  {
    hide Reached;
    t := s.(joiners := s.joiners[id := At(u, m, CheckMatch)]);
    more := Reach(acts, s, Arrive(id, u, ROOM, "", m), t, rule);
    more, t := Move(more, t, id, u, m, CheckMatch, t.keys, ReadQueue, rule);
    more, t := Move(more, t, id, u, m, ReadQueue, t.keys, NoteQueue, rule);
    more, t := Move(more, t, id, u, m, NoteQueue,
                    t.keys.(currentQueue := t.keys.currentQueue[u := Expiring(ROOM, QUEUE_TTL)]), RunScript, rule);
    assert t.joiners == s.joiners[id := At(u, m, RunScript)];
  }

  /** In an empty queue the script queues its caller. */
  lemma ReachQueued(acts: seq<Act>, s: State, id: nat, u: UserId, m: MatchId, rule: Rule) returns (more: seq<Act>, t: State)
    requires Reached(rule, acts, s) && s.now == 0 && id in s.joiners && s.joiners[id] == At(u, m, RunScript)
    requires s.keys.locks == map[] && Queue(s.keys, ROOM) == [] && Obeys(rule, s, Command(id, true))
    ensures Reached(rule, more, t)
    ensures t == s.(keys := s.keys.(queues := s.keys.queues[ROOM := [Entry(0, u)]]),
                    joiners := s.joiners[id := At(u, m, Finished(Queued))])
  {
    hide Reached, Obeys;
    var k := s.keys.(queues := s.keys.queues[ROOM := [Entry(0, u)]]);
    assert s.keys.queues[ROOM := []][ROOM := [Entry(0, u)]] == k.queues;
    more, t := Move(acts, s, id, u, m, RunScript, k, Finished(Queued), rule);
  }

  lemma {:induction false} IdAsymmetric(a: Id, b: Id)
    requires IdBefore(a, b)
    ensures !IdBefore(b, a)
  {
    if a != "" && a[0] == b[0] {
      IdAsymmetric(a[1..], b[1..]);
    }
  }

  lemma Antisymmetric(x: Entry, y: Entry)
    ensures !(Before(x, y) && Before(y, x)) && !Before(x, x)
  {
    if x.score == y.score && IdBefore(x.id, y.id) {
      IdAsymmetric(x.id, y.id);
    }
    IdOrder(x.id, x.id);
  }

  /** With "a" first in the queue and no locks, the script pairs any newcomer with "a". */
  lemma FirstIsTaken(k: Keys, u: UserId, m: MatchId)
    requires k.locks == map[] && ROOM in k.queues && k.queues[ROOM] != [] && k.queues[ROOM][0].id == "a" && u != "a"
    requires forall e :: e in k.queues[ROOM] ==> e.score == 0 && IdBefore(e.id, u)
    ensures var (k', reply) := Reserve(k, ROOM, u, m, "", 0);
            && reply == NewMatch("a", m)
            && k' == k.(queues := k.queues[ROOM := k.queues[ROOM] + [Entry(0, u)]],
                        locks := map[u := Expiring(m, LOCK_TTL), "a" := Expiring(m, LOCK_TTL)])
  {
    var q := k.queues[ROOM];
    NothingStale(q, -900_000);
    AddedLast(q, u);
    assert k.queues[ROOM := q] == k.queues;
    assert k.locks[u := Expiring(m, LOCK_TTL)]["a" := Expiring(m, LOCK_TTL)]
        == map[u := Expiring(m, LOCK_TTL), "a" := Expiring(m, LOCK_TTL)];
    hide EvictThrough, Add;
  }

  lemma {:induction false} NothingStale(q: SortedSet, bound: int)
    requires forall e :: e in q ==> e.score > bound
    ensures EvictThrough(q, bound) == q
  {
    if q != [] {
      NothingStale(q[1..], bound);
    }
  }

  lemma {:induction false} AddedLast(q: SortedSet, u: UserId)
    requires forall e :: e in q ==> e.score == 0 && IdBefore(e.id, u)
    ensures Remove(q, u) == q && Add(q, 0, u) == q + [Entry(0, u)]
  {
    if q != [] {
      AddedLast(q[1..], u);
      Antisymmetric(q[0], Entry(0, u));
    }
  }

  /** The script pairs its caller with "a", and the session is stored. */
  lemma ReachStored(acts: seq<Act>, s: State, id: nat, u: UserId, m: MatchId, rule: Rule) returns (more: seq<Act>, t: State)
    requires Reached(rule, acts, s) && s.now == 0 && id in s.joiners && s.joiners[id] == At(u, m, RunScript)
    requires s.keys.locks == map[] && ROOM in s.keys.queues
    requires s.keys.queues[ROOM] != [] && s.keys.queues[ROOM][0].id == "a" && u != "a"
    requires forall e :: e in s.keys.queues[ROOM] ==> e.score == 0 && IdBefore(e.id, u)
    requires Obeys(rule, s, Command(id, true))
    ensures Reached(rule, more, t)
    ensures t == s.(keys := s.keys.(queues := s.keys.queues[ROOM := s.keys.queues[ROOM] + [Entry(0, u)]],
                                    locks := map[u := Expiring(m, LOCK_TTL), "a" := Expiring(m, LOCK_TTL)]),
                    joiners := s.joiners[id := At(u, m, DeleteLocks("a"))],
                    sessions := s.sessions[m := Pair(u, "a")])
  {
    hide Reached, Obeys;
    FirstIsTaken(s.keys, u, m);
    hide Reserve;
    var k := s.keys.(queues := s.keys.queues[ROOM := s.keys.queues[ROOM] + [Entry(0, u)]],
                     locks := map[u := Expiring(m, LOCK_TTL), "a" := Expiring(m, LOCK_TTL)]);
    var t1;
    more, t1 := Move(acts, s, id, u, m, RunScript, k, Create("a"), rule);
    t := t1.(joiners := s.joiners[id := At(u, m, DeleteLocks("a"))], sessions := s.sessions[m := Pair(u, "a")]);
    assert t1.joiners[id := At(u, m, DeleteLocks("a"))] == t.joiners;
    NotAScript(rule, t1, id);
    more := Reach(more, t1, Command(id, true), t, rule);
  }

  lemma NotAScript(rule: Rule, s: State, id: nat)
    requires id in s.joiners && !s.joiners[id].stage.RunScript?
    ensures Obeys(rule, s, Command(id, true))
  {
  }

  /** "a" waits. */
  lemma ReachWaiter(rule: Rule) returns (acts: seq<Act>, s: State)
    ensures Reached(rule, acts, s)
    ensures s == State(0, Keys(map[ROOM := [Entry(0, "a")]], map[], map["a" := Expiring(ROOM, QUEUE_TTL)], map[]),
                       map[0 := At("a", "m0", Finished(Queued))], map[])
  {
    assert Reached(rule, [], IDLE);
    hide Reached;
    acts, s := ReachScript([], IDLE, 0, "a", "m0", rule);
    acts, s := ReachQueued(acts, s, 0, "a", "m0", rule);
    assert s.joiners == map[0 := At("a", "m0", Finished(Queued))];
  }

  /** The locks of the stored pair go. */
  lemma ReachUnlocked(acts: seq<Act>, s: State, id: nat, u: UserId, m: MatchId,
                      rule: Rule) returns (more: seq<Act>, t: State)
    requires Reached(rule, acts, s) && s.now == 0 && id in s.joiners && s.joiners[id] == At(u, m, DeleteLocks("a"))
    requires s.keys.locks.Keys == {u, "a"}
    ensures Reached(rule, more, t)
    ensures t == s.(keys := s.keys.(locks := map[]), joiners := s.joiners[id := At(u, m, Unqueue("a"))])
  {
    hide Reached;
    NotAScript(rule, s, id);
    assert s.keys.locks - {u, "a"} == map[];
    more, t := Move(acts, s, id, u, m, DeleteLocks("a"), s.keys.(locks := map[]), Unqueue("a"), rule);
  }

  /** ... and the rest of the finalization, which leaves `rest` in the queue. */
  lemma ReachFinalized(acts: seq<Act>, s: State, id: nat, u: UserId, m: MatchId, rest: SortedSet, rule: Rule)
    returns (more: seq<Act>, t: State)
    requires Reached(rule, acts, s) && s.now == 0 && id in s.joiners && s.joiners[id] == At(u, m, Unqueue("a"))
    requires Remove(Remove(Queue(s.keys, ROOM), u), "a") == rest
    ensures Reached(rule, more, t)
    ensures t == s.(keys := s.keys.(queues := s.keys.queues[ROOM := rest],
                                    activeMatch := s.keys.activeMatch[u := Expiring(m, MATCH_TTL)]["a" := Expiring(m, MATCH_TTL)]),
                    joiners := s.joiners[id := At(u, m, TookFirst(u, m))])
  {
    hide Reached, Obeys, Remove;
    NotAScript(rule, s, id);
    more, t := Move(acts, s, id, u, m, Unqueue("a"), WithQueue(s.keys, ROOM, rest), BindCaller("a"), rule);
    NotAScript(rule, t, id);
    more, t := Move(more, t, id, u, m, BindCaller("a"),
                    t.keys.(activeMatch := t.keys.activeMatch[u := Expiring(m, MATCH_TTL)]), BindPartner("a"), rule);
    NotAScript(rule, t, id);
    more, t := Move(more, t, id, u, m, BindPartner("a"),
                    t.keys.(activeMatch := t.keys.activeMatch["a" := Expiring(m, MATCH_TTL)]), TookFirst(u, m), rule);
    assert t.joiners == s.joiners[id := At(u, m, TookFirst(u, m))];
  }

  lemma RemoveHead(x: Entry, q: SortedSet, id: UserId)
    ensures Remove([x] + q, id) == (if x.id == id then [] else [x]) + Remove(q, id)
  {
    assert ([x] + q)[1..] == q;
  }

  lemma Removals()
    ensures Remove(Remove([Entry(0, "a"), Entry(0, "b")], "b"), "a") == []
    ensures Remove(Remove([Entry(0, "a"), Entry(0, "b"), Entry(0, "c")], "c"), "a") == [Entry(0, "b")]
    ensures Remove(Remove([Entry(0, "b")], "b"), "a") == []
  {
    var a, b, c := Entry(0, "a"), Entry(0, "b"), Entry(0, "c");
    assert [a, b] == [a] + [b] && [a, b, c] == [a] + [b, c] && [b, c] == [b] + [c] && [b] == [b] + [] && [c] == [c] + [];
    RemoveHead(a, [b], "b");
    RemoveHead(b, [], "b");
    RemoveHead(a, [], "a");
    RemoveHead(a, [b, c], "c");
    RemoveHead(b, [c], "c");
    RemoveHead(c, [], "c");
    RemoveHead(a, [b], "a");
    RemoveHead(b, [], "a");
    hide Remove;
    assert [a] + [] == [a] && [] + [b] == [b];
  }

  lemma Letters()
    ensures IdBefore("a", "b") && IdBefore("a", "c") && IdBefore("b", "c") && IdBefore("a", "d")
  {
  }

  lemma NobodyUnlocked(s: State, id: nat)
    requires forall i :: i in s.joiners ==> !Unlocked(s.joiners[i])
    ensures Obeys(NoScriptInFinalization, s, Command(id, true))
  {
  }

  lemma Free(s: State, u: UserId)
    requires u in s.keys.activeMatch ==> s.keys.activeMatch[u].value !in s.sessions
    requires forall i :: i in s.joiners && Unlocked(s.joiners[i]) ==> s.joiners[i].matchId !in s.sessions
    ensures !Taken(s, u)
  {
  }

  lemma NobodyTakenYet(s: State, u: UserId)
    requires s.sessions == map[]
    ensures !Taken(s, u)
  {
  }

  lemma TakesFree(s: State, id: nat, u: UserId, m: MatchId)
    requires s.now == 0 && id in s.joiners && s.joiners[id] == At(u, m, RunScript) && !Taken(s, u) && !Taken(s, "a")
    requires s.keys.locks == map[] && ROOM in s.keys.queues
    requires s.keys.queues[ROOM] != [] && s.keys.queues[ROOM][0].id == "a" && u != "a"
    requires forall e :: e in s.keys.queues[ROOM] ==> e.score == 0 && IdBefore(e.id, u)
    ensures Obeys(NobodyTaken, s, Command(id, true))
  {
    FirstIsTaken(s.keys, u, m);
    hide Reserve, Taken;
  }

  /** "b" is paired with "a", and b's request has deleted the locks. */
  lemma ReachWindow(rule: Rule) returns (acts: seq<Act>, s: State)
    ensures Reached(rule, acts, s)
    ensures s == State(0, Keys(map[ROOM := [Entry(0, "a"), Entry(0, "b")]], map[],
                               map["a" := Expiring(ROOM, QUEUE_TTL), "b" := Expiring(ROOM, QUEUE_TTL)], map[]),
                       map[0 := At("a", "m0", Finished(Queued)), 1 := At("b", "m1", Unqueue("a"))], map["m1" := Pair("b", "a")])
  {
    Letters();
    hide Reached, Obeys, Taken, IdBefore;
    acts, s := ReachWaiter(rule);
    acts, s := ReachScript(acts, s, 1, "b", "m1", rule);
    AnyRule(rule, s, 1, "b", "m1");
    acts, s := ReachStored(acts, s, 1, "b", "m1", rule);
    acts, s := ReachUnlocked(acts, s, 1, "b", "m1", rule);
    assert [Entry(0, "a")] + [Entry(0, "b")] == [Entry(0, "a"), Entry(0, "b")];
    assert s.joiners == map[0 := At("a", "m0", Finished(Queued)), 1 := At("b", "m1", Unqueue("a"))];
  }

  /** With no session and nobody being finalized, a script that takes "a" keeps every rule. */
  lemma AnyRule(rule: Rule, s: State, id: nat, u: UserId, m: MatchId)
    requires s.sessions == map[] && forall i :: i in s.joiners ==> !Unlocked(s.joiners[i])
    requires s.now == 0 && id in s.joiners && s.joiners[id] == At(u, m, RunScript)
    requires s.keys.locks == map[] && ROOM in s.keys.queues
    requires s.keys.queues[ROOM] != [] && s.keys.queues[ROOM][0].id == "a" && u != "a"
    requires forall e :: e in s.keys.queues[ROOM] ==> e.score == 0 && IdBefore(e.id, u)
    ensures Obeys(rule, s, Command(id, true))
  {
    NobodyTakenYet(s, "a");
    NobodyTakenYet(s, u);
    TakesFree(s, id, u, m);
    NobodyUnlocked(s, id);
    hide Taken, Undisturbed, Sparing, IdBefore;
  }

  /**
   The first run: "b" is paired with "a"; after b's request has deleted the locks, and before it has
   taken the two out of the queue, the script of "c" takes "a".
   */
  lemma WindowDoubleBooks()
    ensures exists acts, s :: Reached(Anything, acts, s) && DoubleBooked(s)
  {
    Letters();
    hide Reached, IdBefore;
    var acts, s := ReachWindow(Anything);
    acts, s := ReachScript(acts, s, 2, "c", "m2", Anything);
    acts, s := ReachStored(acts, s, 2, "c", "m2", Anything);
    TwoSessions(s);
  }

  lemma TwoSessions(s: State)
    requires "m1" in s.sessions && "m2" in s.sessions && s.sessions["m1"].b == "a" && s.sessions["m2"].b == "a"
    ensures DoubleBooked(s)
  {
    assert In(s.sessions["m1"], "a") && In(s.sessions["m2"], "a");
  }

  /**
   The second: a second request of "a" passes its check; "b" is paired with "a" and completely finalized;
   the second request's script queues "a" again, and "c" takes it. No script runs inside a finalization.
   */
  lemma SecondRequestDoubleBooks()
    ensures exists acts, s :: Reached(NoScriptInFinalization, acts, s) && DoubleBooked(s)
  {
    hide Reached;
    var acts, s := ReachWaiter(NoScriptInFinalization);
    acts, s := ReachScript(acts, s, 3, "a", "m3", NoScriptInFinalization);
    acts, s := ReachScript(acts, s, 1, "b", "m1", NoScriptInFinalization);
    acts, s := ReachMatched(acts, s);
    acts, s := ReachTakenAgain(acts, s);
  }

  lemma ReachMatched(acts: seq<Act>, s: State) returns (more: seq<Act>, t: State)
    requires Reached(NoScriptInFinalization, acts, s) && s.now == 0
    requires s.keys.locks == map[] && s.keys.queues == map[ROOM := [Entry(0, "a")]]
    requires s.joiners.Keys == {0, 1, 3} && s.joiners[3] == At("a", "m3", RunScript)
    requires s.joiners[0] == At("a", "m0", Finished(Queued)) && s.joiners[1] == At("b", "m1", RunScript)
    ensures Reached(NoScriptInFinalization, more, t) && t.keys.queues == map[ROOM := []]
    ensures t.keys.currentQueue == s.keys.currentQueue
    ensures t.keys.activeMatch == s.keys.activeMatch["b" := Expiring("m1", MATCH_TTL)]["a" := Expiring("m1", MATCH_TTL)]
    ensures t.joiners == s.joiners[1 := At("b", "m1", TookFirst("b", "m1"))] && t.now == 0 && t.keys.locks == map[]
    ensures t.sessions == s.sessions["m1" := Pair("b", "a")]
  {
    Removals();
    Letters();
    hide Reached, Obeys, Remove, IdBefore;
    NobodyUnlocked(s, 1);
    more, t := ReachStored(acts, s, 1, "b", "m1", NoScriptInFinalization);
    assert [Entry(0, "a")] + [Entry(0, "b")] == [Entry(0, "a"), Entry(0, "b")];
    more, t := ReachUnlocked(more, t, 1, "b", "m1", NoScriptInFinalization);
    more, t := ReachFinalized(more, t, 1, "b", "m1", [], NoScriptInFinalization);
    assert t.joiners == s.joiners[1 := At("b", "m1", TookFirst("b", "m1"))];
  }

  lemma ReachTakenAgain(acts: seq<Act>, s: State) returns (more: seq<Act>, t: State)
    requires Reached(NoScriptInFinalization, acts, s) && s.now == 0 && s.keys.locks == map[]
    requires ROOM in s.keys.queues && s.keys.queues[ROOM] == []
    requires s.joiners.Keys == {0, 1, 3} && s.joiners[3] == At("a", "m3", RunScript)
    requires s.joiners[0] == At("a", "m0", Finished(Queued)) && s.joiners[1] == At("b", "m1", TookFirst("b", "m1"))
    requires "c" !in s.keys.activeMatch && "c" !in s.keys.currentQueue && "m1" in s.sessions && s.sessions["m1"].b == "a"
    ensures Reached(NoScriptInFinalization, more, t) && DoubleBooked(t)
  {
    hide Reached, Obeys;
    NobodyUnlocked(s, 3);
    more, t := ReachQueued(acts, s, 3, "a", "m3", NoScriptInFinalization);
    more, t := ReachScript(more, t, 2, "c", "m2", NoScriptInFinalization);
    NobodyUnlocked(t, 2);
    more, t := ReachStored(more, t, 2, "c", "m2", NoScriptInFinalization);
    TwoSessions(t);
  }

  // ---- A late note -------------------------------------------------------------------------------

  lemma TakesNobody(s: State, id: nat, u: UserId, m: MatchId)
    requires s.now == 0 && id in s.joiners && s.joiners[id] == At(u, m, RunScript) && Queue(s.keys, ROOM) == []
    ensures Obeys(NobodyTaken, s, Command(id, true))
  {
    hide Taken;
  }

  /** "b" is paired with "a", and the session ends before its notes are written; a second request of "a" is under way. */
  lemma ReachEnded() returns (acts: seq<Act>, s: State)
    ensures Reached(NobodyTaken, acts, s) && s.now == 0 && s.sessions == map[]
    ensures s.keys == Keys(map[ROOM := [Entry(0, "a"), Entry(0, "b")]], map[], map["a" := Expiring(ROOM, QUEUE_TTL)], map[])
    ensures s.joiners == map[0 := At("a", "m0", Finished(Queued)), 1 := At("b", "m1", Unqueue("a")), 3 := At("a", "m3", RunScript)]
  {
    hide Reached, Obeys, Taken;
    acts, s := ReachWindow(NobodyTaken);
    acts, s := ReachEnd(acts, s, "m1");
    acts, s := ReachScript(acts, s, 3, "a", "m3", NobodyTaken);
    assert s.joiners == map[0 := At("a", "m0", Finished(Queued)), 1 := At("b", "m1", Unqueue("a")), 3 := At("a", "m3", RunScript)];
  }

  lemma ReachEnd(acts: seq<Act>, s: State, m: MatchId) returns (more: seq<Act>, t: State)
    requires Reached(NobodyTaken, acts, s) && m in s.sessions
    ensures Reached(NobodyTaken, more, t)
    ensures t == s.(keys := Forget(s.keys, s.sessions[m].a, s.sessions[m].b), sessions := s.sessions - {m})
  {
    EndObeys(s, m);
    hide Reached, Obeys;
    t := s.(keys := Forget(s.keys, s.sessions[m].a, s.sessions[m].b), sessions := s.sessions - {m});
    more := Reach(acts, s, SessionEnd(m), t, NobodyTaken);
  }

  lemma EndObeys(s: State, m: MatchId)
    ensures Obeys(NobodyTaken, s, SessionEnd(m))
  {
  }

  /** "c" is paired with "a". */
  lemma ReachNext(acts: seq<Act>, s: State) returns (more: seq<Act>, t: State)
    requires Reached(NobodyTaken, acts, s) && s.now == 0 && s.sessions == map[]
    requires s.keys == Keys(map[ROOM := [Entry(0, "a"), Entry(0, "b")]], map[], map["a" := Expiring(ROOM, QUEUE_TTL)], map[])
    requires s.joiners == map[0 := At("a", "m0", Finished(Queued)), 1 := At("b", "m1", Unqueue("a")), 3 := At("a", "m3", RunScript)]
    ensures Reached(NobodyTaken, more, t) && t.now == 0 && t.sessions == map["m2" := Pair("c", "a")]
    ensures t.keys.locks == map[] && t.keys.activeMatch == map[] && t.keys.currentQueue.Keys == {"a", "c"}
    ensures t.keys.queues == map[ROOM := [Entry(0, "a"), Entry(0, "b"), Entry(0, "c")]]
    ensures t.joiners == s.joiners[2 := At("c", "m2", Unqueue("a"))]
  {
    Letters();
    hide Reached, Obeys, Taken, IdBefore;
    more, t := ReachScript(acts, s, 2, "c", "m2", NobodyTaken);
    NobodyTakenYet(t, "a");
    NobodyTakenYet(t, "c");
    TakesFree(t, 2, "c", "m2");
    more, t := ReachStored(more, t, 2, "c", "m2", NobodyTaken);
    assert [Entry(0, "a"), Entry(0, "b")] + [Entry(0, "c")] == [Entry(0, "a"), Entry(0, "b"), Entry(0, "c")];
    more, t := ReachUnlocked(more, t, 2, "c", "m2", NobodyTaken);
    assert t.joiners == s.joiners[2 := At("c", "m2", Unqueue("a"))];
  }

  /** The new pair is finalized; then the late notes of the ended match replace a's. */
  lemma ReachLateNote(acts: seq<Act>, s: State) returns (more: seq<Act>, t: State)
    requires Reached(NobodyTaken, acts, s) && s.now == 0 && s.keys.activeMatch == map[]
    requires s.keys.queues == map[ROOM := [Entry(0, "a"), Entry(0, "b"), Entry(0, "c")]]
    requires 1 in s.joiners && s.joiners[1] == At("b", "m1", Unqueue("a"))
    requires 2 in s.joiners && s.joiners[2] == At("c", "m2", Unqueue("a"))
    ensures Reached(NobodyTaken, more, t) && t.now == 0 && t.sessions == s.sessions
    ensures t.keys.locks == s.keys.locks && Queue(t.keys, ROOM) == [] && t.keys.currentQueue == s.keys.currentQueue
    ensures "a" in t.keys.activeMatch && t.keys.activeMatch["a"].value == "m1" && t.keys.activeMatch.Keys == {"a", "b", "c"}
    ensures t.joiners == s.joiners[2 := At("c", "m2", TookFirst("c", "m2"))][1 := At("b", "m1", TookFirst("b", "m1"))]
  {
    Removals();
    hide Reached, Obeys, Remove;
    more, t := ReachFinalized(acts, s, 2, "c", "m2", [Entry(0, "b")], NobodyTaken);
    more, t := ReachFinalized(more, t, 1, "b", "m1", [], NobodyTaken);
  }

  /** "a" is queued again, and "d" takes it. */
  lemma ReachTakenLast(acts: seq<Act>, s: State) returns (more: seq<Act>, t: State)
    requires Reached(NobodyTaken, acts, s) && s.now == 0 && s.keys.locks == map[] && Queue(s.keys, ROOM) == []
    requires 3 in s.joiners && s.joiners[3] == At("a", "m3", RunScript) && "d" !in s.keys.currentQueue
    requires forall i :: i in s.joiners ==> !Unlocked(s.joiners[i]) && i < 4 && s.joiners[i].matchId != "m4"
    requires "a" in s.keys.activeMatch && s.keys.activeMatch["a"].value !in s.sessions && "d" !in s.keys.activeMatch
    ensures Reached(NobodyTaken, more, t) && t.sessions == s.sessions["m4" := Pair("d", "a")]
  {
    Letters();
    hide Reached, Obeys, Taken, IdBefore;
    TakesNobody(s, 3, "a", "m3");
    more, t := ReachQueued(acts, s, 3, "a", "m3", NobodyTaken);
    more, t := ReachScript(more, t, 4, "d", "m4", NobodyTaken);
    Free(t, "a");
    Free(t, "d");
    TakesFree(t, 4, "d", "m4");
    more, t := ReachStored(more, t, 4, "d", "m4", NobodyTaken);
  }

  /**
   The third: b's session with "a" ends before its notes are written. "c" is paired with "a" and
   finalized, and only then come the notes of the ended match; a's no longer names its session, so a
   second request queues "a" again and "d" takes it. No script took anybody engaged to an unfinished match.
   */
  lemma LateNoteDoubleBooks()
    ensures exists acts, s :: Reached(NobodyTaken, acts, s) && DoubleBooked(s)
  {
    hide Reached;
    var acts, s := ReachEnded();
    acts, s := ReachNext(acts, s);
    acts, s := ReachLateNote(acts, s);
    acts, s := ReachTakenLast(acts, s);
    assert In(s.sessions["m2"], "a") && In(s.sessions["m4"], "a");
  }
}
