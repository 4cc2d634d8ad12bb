/**
 When single commands can book a user twice, and when they cannot. A script may reserve a user whose
 locks are gone but whose join is still being finalized, or who already has a session; if none ever
 does, no user is in two sessions.
 */
module Bookings {
  import opened Identity
  import opened Redis
  import opened Commands

  // ---- Who must not be reserved --------------------------------------------------------------------

  /** The joins that have reserved two users and are not done with them. */
  predicate Owns(j: Joiner) {
    j.stage.Create? || j.stage.DeleteLocks? || j.stage.Unqueue? || j.stage.BindCaller? || j.stage.BindPartner?
  }

  predicate Has(j: Joiner, u: UserId) { Owns(j) && (u == j.user || u == j.stage.partner) }

  /** ... and have given up their locks. */
  predicate Unlocked(j: Joiner) { j.stage.Unqueue? || j.stage.BindCaller? || j.stage.BindPartner? }

  /** The user's active_match names an unfinished session. */
  predicate Noted(s: State, u: UserId) {
    Exists(s.keys.activeMatch, u, s.now) && s.keys.activeMatch[u].value in s.sessions
  }

  /** The user is being finalized, after the locks and before the notes. */
  predicate Unsettled(s: State, u: UserId) {
    exists i | i in s.joiners :: Unlocked(s.joiners[i]) && Has(s.joiners[i], u)
  }

  predicate Engaged(s: State, u: UserId) { Noted(s, u) || Unsettled(s, u) }

  /** The reply of the script that request `id` is about to run. */
  function NextReply(s: State, id: nat): ScriptReply
    requires id in s.joiners
  {
    var j := s.joiners[id];
    Reserve(s.keys, j.key, j.user, j.matchId, j.lastPartner, s.now).1
  }

  /** A script step that reserves nobody who is engaged. */
  predicate Careful(s: State, act: Act) {
    act.Command? && act.id in s.joiners && s.joiners[act.id].stage.RunScript? && NextReply(s, act.id).NewMatch? ==>
      !Engaged(s, s.joiners[act.id].user) && !Engaged(s, NextReply(s, act.id).partner)
  }

  /** No note of an unfinished session lapses. */
  ghost predicate NotesLast(s: State, act: Act) {
    act.Clock? ==> forall u :: Noted(s, u) ==> s.now + act.span < s.keys.activeMatch[u].expires
  }

  ghost predicate CarefulRun(acts: seq<Act>)
    decreases |acts|
  {
    acts == [] ||
    var before, act := acts[..|acts| - 1], acts[|acts| - 1];
    CarefulRun(before) && Timely(Exec(before), act) && NotesLast(Exec(before), act) && Careful(Exec(before), act)
  }

  // ---- The invariant -------------------------------------------------------------------------------

  predicate In(p: Pair, u: UserId) { u == p.a || u == p.b }

  /** The join has stored its session. */
  predicate Stored(j: Joiner) { j.stage.DeleteLocks? || Unlocked(j) || j.stage.Finished? }

  ghost predicate Named(s: State, m: MatchId) { exists i :: i in s.joiners && s.joiners[i].matchId == m && Stored(s.joiners[i]) }

  /** The join will still write the user's note. */
  predicate AwaitsNote(j: Joiner, u: UserId) { Has(j, u) && !j.stage.Create? && (j.stage.BindPartner? ==> u == j.stage.partner) }

  /** The user has the note of session `m`, or the join of `m` will still write it. */
  ghost predicate Covered(s: State, m: MatchId, u: UserId) {
    || (Exists(s.keys.activeMatch, u, s.now) && s.keys.activeMatch[u].value == m)
    || (exists i :: i in s.joiners && s.joiners[i].matchId == m && AwaitsNote(s.joiners[i], u))
  }

  ghost predicate JoinsApart(s: State) {
    forall i, j, u :: i in s.joiners && j in s.joiners && Has(s.joiners[i], u) && Has(s.joiners[j], u) ==> i == j
  }

  ghost predicate JoinsMatch(s: State) {
    forall m, i, u :: m in s.sessions && i in s.joiners && Has(s.joiners[i], u) ==>
      if s.joiners[i].matchId == m then In(s.sessions[m], u) else !In(s.sessions[m], u)
  }

  ghost predicate SessionsApart(s: State) {
    forall m1, m2, u :: m1 in s.sessions && m2 in s.sessions && In(s.sessions[m1], u) && In(s.sessions[m2], u) ==> m1 == m2
  }

  ghost predicate SessionsCovered(s: State) {
    forall m, u :: m in s.sessions && In(s.sessions[m], u) ==> Covered(s, m, u)
  }

  ghost predicate NamesOk(s: State) {
    && (forall m :: m in s.sessions ==> Named(s, m))
    && (forall u :: u in s.keys.activeMatch ==> Named(s, s.keys.activeMatch[u].value))
    && (forall u :: u in s.keys.activeMatch && s.keys.activeMatch[u].value in s.sessions ==>
          In(s.sessions[s.keys.activeMatch[u].value], u))
  }

  ghost predicate Orderly(s: State) {
    Exclusive(s) && JoinsApart(s) && JoinsMatch(s) && SessionsApart(s) && SessionsCovered(s) && NamesOk(s)
  }

  /** A user in an unfinished session, or in a reservation, is locked or engaged. */
  lemma BusyIsSeen(s: State, m: MatchId, u: UserId)
    requires Orderly(s) && m in s.sessions && In(s.sessions[m], u)
    ensures Exists(s.keys.locks, u, s.now) || Engaged(s, u)
  {
    assert Covered(s, m, u);
    if !(Exists(s.keys.activeMatch, u, s.now) && s.keys.activeMatch[u].value == m) {
      var i :| i in s.joiners && s.joiners[i].matchId == m && AwaitsNote(s.joiners[i], u);
      assert Reserved(s, i);
    }
  }

  lemma HeldIsSeen(s: State, i: nat, u: UserId)
    requires Orderly(s) && i in s.joiners && Has(s.joiners[i], u)
    ensures Exists(s.keys.locks, u, s.now) || Engaged(s, u)
  {
    assert Reserved(s, i);
  }

  // ---- Every step keeps it -------------------------------------------------------------------------

  /** Request `id` moves on; nothing else changes but what the caller says. */
  predicate Moves(s: State, t: State, id: nat) {
    && id in s.joiners && id in t.joiners && t.now == s.now
    && t.joiners == s.joiners[id := t.joiners[id]]
    && t.joiners[id] == s.joiners[id].(stage := t.joiners[id].stage, reservedAt := t.joiners[id].reservedAt)
  }

  lemma StillNamed(s: State, t: State, m: MatchId)
    requires Named(s, m) && SameJoins(s, t)
    ensures Named(t, m)
  {
    var i :| i in s.joiners && s.joiners[i].matchId == m && Stored(s.joiners[i]);
    assert i in t.joiners && t.joiners[i].matchId == m && Stored(t.joiners[i]);
  }

  lemma StillCovered(s: State, t: State, m: MatchId, u: UserId)
    requires Covered(s, m, u) && SameJoins(s, t)
    requires forall i :: i in s.joiners && AwaitsNote(s.joiners[i], u) ==> AwaitsNote(t.joiners[i], u)
    requires Exists(s.keys.activeMatch, u, s.now) && s.keys.activeMatch[u].value == m ==>
               Exists(t.keys.activeMatch, u, t.now) && t.keys.activeMatch[u].value == m
    ensures Covered(t, m, u)
  {
    if i :| i in s.joiners && s.joiners[i].matchId == m && AwaitsNote(s.joiners[i], u) {
      assert i in t.joiners && t.joiners[i].matchId == m && AwaitsNote(t.joiners[i], u);
    }
  }

  /** Every join is still there, with its match id, and what was stored stays stored. */
  ghost predicate SameJoins(s: State, t: State) {
    forall i :: i in s.joiners ==>
      i in t.joiners && t.joiners[i].matchId == s.joiners[i].matchId && (Stored(s.joiners[i]) ==> Stored(t.joiners[i]))
  }

  /** No join holds anyone it did not hold before. */
  ghost predicate NoNewHolds(s: State, t: State) {
    forall i, u :: i in t.joiners && Has(t.joiners[i], u) ==>
      i in s.joiners && Has(s.joiners[i], u) && t.joiners[i].matchId == s.joiners[i].matchId
  }

  ghost predicate NoNewSessions(s: State, t: State) {
    forall m :: m in t.sessions ==> m in s.sessions && t.sessions[m] == s.sessions[m]
  }

  ghost predicate NoNewNotes(s: State, t: State) {
    forall u :: u in t.keys.activeMatch ==> u in s.keys.activeMatch && t.keys.activeMatch[u] == s.keys.activeMatch[u]
  }

  ghost predicate StillAwaitNote(s: State, t: State) {
    forall i, u :: i in s.joiners && i in t.joiners && AwaitsNote(s.joiners[i], u) ==> AwaitsNote(t.joiners[i], u)
  }

  /** The notes of the sessions that go on are alive. */
  ghost predicate NotesKept(s: State, t: State) {
    forall m, u :: m in t.sessions && In(t.sessions[m], u)
                   && Exists(s.keys.activeMatch, u, s.now) && s.keys.activeMatch[u].value == m ==>
      Exists(t.keys.activeMatch, u, t.now) && t.keys.activeMatch[u].value == m
  }

  lemma NamesShrink(s: State, t: State)
    requires NamesOk(s) && SameJoins(s, t) && NoNewSessions(s, t) && NoNewNotes(s, t)
    ensures NamesOk(t)
  {
    forall m | Named(s, m) ensures Named(t, m) {
      StillNamed(s, t, m);
    }
  }

  lemma CoversShrink(s: State, t: State)
    requires SessionsCovered(s) && SameJoins(s, t) && NoNewSessions(s, t) && StillAwaitNote(s, t) && NotesKept(s, t)
    ensures SessionsCovered(t)
  {
    forall m, u | m in t.sessions && In(t.sessions[m], u) ensures Covered(t, m, u) {
      StillCovered(s, t, m, u);
    }
  }

  lemma JoinsShrink(s: State, t: State)
    requires JoinsApart(s) && NoNewHolds(s, t)
    ensures JoinsApart(t)
  {
  }

  lemma MatchesShrink(s: State, t: State)
    requires JoinsMatch(s) && NoNewHolds(s, t) && NoNewSessions(s, t)
    ensures JoinsMatch(t)
  {
  }

  /** A step that adds no hold, no session and no note. */
  lemma QuietStep(s: State, t: State)
    requires Orderly(s) && Exclusive(t) && SameJoins(s, t) && NoNewHolds(s, t) && NoNewSessions(s, t)
    requires NoNewNotes(s, t) && StillAwaitNote(s, t) && NotesKept(s, t)
    ensures Orderly(t)
  {
    assert SessionsApart(t);
    hide Exclusive, JoinsApart, JoinsMatch, SessionsApart, SessionsCovered, NamesOk, SameJoins, NoNewHolds, NoNewSessions,
         NoNewNotes, StillAwaitNote, NotesKept;
    NamesShrink(s, t);
    CoversShrink(s, t);
    JoinsShrink(s, t);
    MatchesShrink(s, t);
  }

  /** A request moves on without reserving, storing or noting anything. */
  lemma QuietMove(s: State, t: State, id: nat)
    requires Orderly(s) && Exclusive(t) && Moves(s, t, id)
    requires t.sessions == s.sessions && t.keys.activeMatch == s.keys.activeMatch
    requires var i, j := s.joiners[id], t.joiners[id];
             && (Stored(i) ==> Stored(j)) && (forall u :: Has(j, u) ==> Has(i, u)) && (forall u :: AwaitsNote(i, u) ==> AwaitsNote(j, u))
    ensures Orderly(t)
  {
    hide Orderly, Exclusive;
    assert SameJoins(s, t) && NoNewHolds(s, t) && StillAwaitNote(s, t);
    QuietStep(s, t);
  }

  lemma ScriptStep(s: State, id: nat, stored: bool)
    requires Orderly(s) && id in s.joiners && s.joiners[id].stage.RunScript? && Careful(s, Command(id, stored))
    requires Exclusive(Step(s, Command(id, stored)))
    ensures Orderly(Step(s, Command(id, stored)))
  {
    var j := s.joiners[id];
    var t := Step(s, Command(id, stored));
    ReserveLocks(s.keys, j.key, j.user, j.matchId, j.lastPartner, s.now);
    ReserveSparesNotes(s.keys, j.key, j.user, j.matchId, j.lastPartner, s.now);
    var reply := NextReply(s, id);
    hide Reserve;
    if reply.NewMatch? {
      var pair := {j.user, reply.partner};
      forall u | u in pair
        ensures (forall i :: i in s.joiners ==> !Has(s.joiners[i], u)) && (forall m :: m in s.sessions ==> !In(s.sessions[m], u))
      {
        forall i | i in s.joiners ensures !Has(s.joiners[i], u) {
          if Has(s.joiners[i], u) { HeldIsSeen(s, i, u); }
        }
        forall m | m in s.sessions ensures !In(s.sessions[m], u) {
          if In(s.sessions[m], u) { BusyIsSeen(s, m, u); }
        }
      }
      NewReservation(s, t, id, reply.partner);
    } else {
      QuietMove(s, t, id);
    }
  }

  /** A join that has not stored its session is the only one with its match id. */
  lemma NotYetStored(s: State, id: nat, m: MatchId)
    requires Exclusive(s) && id in s.joiners && !Stored(s.joiners[id]) && Named(s, m)
    ensures m != s.joiners[id].matchId
  {
  }

  /** Two users whom nobody holds and who are in no session are reserved. */
  lemma NewReservation(s: State, t: State, id: nat, partner: UserId)
    requires Orderly(s) && Exclusive(t) && Moves(s, t, id) && s.joiners[id].stage.RunScript?
    requires t.sessions == s.sessions && t.keys.activeMatch == s.keys.activeMatch && t.joiners[id].stage == Create(partner)
    requires forall u, i :: u in {s.joiners[id].user, partner} && i in s.joiners ==> !Has(s.joiners[i], u)
    requires forall u, m :: u in {s.joiners[id].user, partner} && m in s.sessions ==> !In(s.sessions[m], u)
    ensures Orderly(t)
  {
    hide Exclusive, JoinsApart, JoinsMatch;
    assert SameJoins(s, t) && StillAwaitNote(s, t) && NoNewSessions(s, t) && NoNewNotes(s, t) && NotesKept(s, t);
    assert SessionsApart(t);
    forall m | m in s.sessions ensures m != s.joiners[id].matchId {
      SessionIsNamed(s, m);
      NotYetStored(s, id, m);
    }
    hide SessionsCovered, NamesOk, SessionsApart, StillAwaitNote, NotesKept, SameJoins, NoNewSessions, NoNewNotes;
    NamesShrink(s, t);
    CoversShrink(s, t);
    NewHolder(s, t, id, partner);
  }

  lemma NewHolder(s: State, t: State, id: nat, partner: UserId)
    requires JoinsApart(s) && JoinsMatch(s) && Moves(s, t, id)
    requires t.sessions == s.sessions && t.joiners[id].stage == Create(partner)
    requires forall u, i :: u in {s.joiners[id].user, partner} && i in s.joiners ==> !Has(s.joiners[i], u)
    requires forall u, m :: u in {s.joiners[id].user, partner} && m in s.sessions ==> !In(s.sessions[m], u)
    requires forall m :: m in s.sessions ==> m != s.joiners[id].matchId
    ensures JoinsApart(t) && JoinsMatch(t)
  {
    assert forall u :: Has(t.joiners[id], u) ==> u in {s.joiners[id].user, partner};
    assert forall i :: i in t.joiners && i != id ==> t.joiners[i] == s.joiners[i];
  }

  lemma SessionIsNamed(s: State, m: MatchId)
    requires Orderly(s) && m in s.sessions
    ensures Named(s, m)
  {
  }

  /** The session is stored. */
  lemma NewSession(s: State, t: State, id: nat)
    requires Orderly(s) && Exclusive(t) && Moves(s, t, id) && s.joiners[id].stage.Create?
    requires var j := s.joiners[id];
             && t.joiners[id].stage == DeleteLocks(j.stage.partner) && t.keys == s.keys
             && t.sessions == s.sessions[j.matchId := Pair(j.user, j.stage.partner)]
    ensures Orderly(t)
  {
    hide Exclusive, JoinsApart, JoinsMatch, SessionsApart, SessionsCovered, NamesOk;
    assert NoNewHolds(s, t) && SameJoins(s, t);
    JoinsShrink(s, t);
    NewSessionNamed(s, t, id);
    NewSessionCovered(s, t, id);
    NewSessionApart(s, t, id);
  }

  lemma NewSessionNamed(s: State, t: State, id: nat)
    requires Exclusive(s) && NamesOk(s) && SameJoins(s, t)
    requires id in s.joiners && !Stored(s.joiners[id]) && Stored(t.joiners[id])
    requires t.keys == s.keys && t.sessions.Keys == s.sessions.Keys + {s.joiners[id].matchId}
    requires forall m :: m in s.sessions && m != s.joiners[id].matchId ==> t.sessions[m] == s.sessions[m]
    ensures NamesOk(t) && s.joiners[id].matchId !in s.sessions
  {
    forall m | Named(s, m) ensures Named(t, m) && m != s.joiners[id].matchId {
      StillNamed(s, t, m);
      NotYetStored(s, id, m);
    }
    assert Named(t, s.joiners[id].matchId);
  }

  lemma NewSessionCovered(s: State, t: State, id: nat)
    requires SessionsCovered(s) && SameJoins(s, t) && Moves(s, t, id) && s.joiners[id].stage.Create?
    requires t.keys == s.keys && t.joiners[id].stage == DeleteLocks(s.joiners[id].stage.partner)
    requires t.sessions == s.sessions[s.joiners[id].matchId := Pair(s.joiners[id].user, s.joiners[id].stage.partner)]
    ensures SessionsCovered(t)
  {
    forall m, u | m in t.sessions && In(t.sessions[m], u) ensures Covered(t, m, u) {
      if m == s.joiners[id].matchId {
        assert AwaitsNote(t.joiners[id], u);
      } else {
        StillCovered(s, t, m, u);
      }
    }
  }

  lemma NewSessionApart(s: State, t: State, id: nat)
    requires JoinsApart(s) && JoinsMatch(s) && SessionsApart(s) && NoNewHolds(s, t) && Exclusive(t)
    requires Moves(s, t, id) && s.joiners[id].stage.Create? && s.joiners[id].matchId !in s.sessions
    requires t.sessions == s.sessions[s.joiners[id].matchId := Pair(s.joiners[id].user, s.joiners[id].stage.partner)]
    ensures JoinsMatch(t) && SessionsApart(t)
  {
    var j := s.joiners[id];
    assert forall u :: In(t.sessions[j.matchId], u) <==> Has(j, u);
    forall m, i, u | m in t.sessions && i in t.joiners && Has(t.joiners[i], u)
      ensures if t.joiners[i].matchId == m then In(t.sessions[m], u) else !In(t.sessions[m], u)
    {
      assert Has(s.joiners[i], u);
      if m == j.matchId {
        assert t.joiners[i].matchId == m ==> i == id;
      }
    }
    hide Exclusive, NoNewHolds, JoinsApart;
    assert forall m, u :: m in s.sessions && In(s.sessions[m], u) ==> !Has(j, u);
  }

  /** One of the two notes is written. */
  lemma NewNote(s: State, t: State, id: nat, who: UserId)
    requires Orderly(s) && Exclusive(t) && Moves(s, t, id) && t.sessions == s.sessions
    requires var i, j := s.joiners[id], t.joiners[id];
             && Unlocked(i) && Stored(j) && Has(i, who)
             && (forall u :: Has(j, u) ==> Has(i, u)) && (forall u :: AwaitsNote(i, u) && u != who ==> AwaitsNote(j, u))
    requires t.keys.activeMatch == s.keys.activeMatch[who := Expiring(s.joiners[id].matchId, s.now + MATCH_TTL)]
    ensures Orderly(t)
  {
    assert SameJoins(s, t) && NoNewHolds(s, t) && NoNewSessions(s, t);
    assert SessionsApart(t);
    assert forall m :: m in s.sessions ==> (In(s.sessions[m], who) <==> m == s.joiners[id].matchId);
    hide Exclusive, SessionsApart;
    JoinsShrink(s, t);
    MatchesShrink(s, t);
    hide JoinsApart, JoinsMatch, NoNewHolds;
    NewNoteNamed(s, t, id, who);
    NewNoteCovered(s, t, id, who);
  }

  lemma NewNoteNamed(s: State, t: State, id: nat, who: UserId)
    requires NamesOk(s) && SameJoins(s, t) && id in s.joiners && Stored(s.joiners[id]) && t.sessions == s.sessions
    requires forall m :: m in s.sessions ==> (In(s.sessions[m], who) <==> m == s.joiners[id].matchId)
    requires t.keys.activeMatch == s.keys.activeMatch[who := Expiring(s.joiners[id].matchId, s.now + MATCH_TTL)]
    ensures NamesOk(t)
  {
    assert Named(s, s.joiners[id].matchId);
    forall m | Named(s, m) ensures Named(t, m) {
      StillNamed(s, t, m);
    }
  }

  lemma NewNoteCovered(s: State, t: State, id: nat, who: UserId)
    requires SessionsCovered(s) && SameJoins(s, t) && Moves(s, t, id) && t.sessions == s.sessions
    requires forall u :: AwaitsNote(s.joiners[id], u) && u != who ==> AwaitsNote(t.joiners[id], u)
    requires forall m :: m in s.sessions ==> (In(s.sessions[m], who) <==> m == s.joiners[id].matchId)
    requires t.keys.activeMatch == s.keys.activeMatch[who := Expiring(s.joiners[id].matchId, s.now + MATCH_TTL)]
    ensures SessionsCovered(t)
  {
    forall m, u | m in t.sessions && In(t.sessions[m], u) ensures Covered(t, m, u) {
      if u != who {
        StillCovered(s, t, m, u);
      }
    }
  }

  lemma CommandStep(s: State, id: nat, stored: bool)
    requires Orderly(s) && id in s.joiners && Careful(s, Command(id, stored)) && Exclusive(Step(s, Command(id, stored)))
    ensures Orderly(Step(s, Command(id, stored)))
  {
    var t := Step(s, Command(id, stored));
    hide Exclusive, JoinsApart, JoinsMatch, SessionsApart, SessionsCovered, NamesOk, Reserve;
    match s.joiners[id].stage
    case RunScript => ScriptStep(s, id, stored);
    case BindCaller(_) => NewNote(s, t, id, s.joiners[id].user);
    case BindPartner(b) => NewNote(s, t, id, b);
    case Create(_) =>
      if stored {
        NewSession(s, t, id);
      } else {
        QuietMove(s, t, id);
      }
    case _ => QuietMove(s, t, id);
  }

  lemma EndSparesNotes(s: State, m: MatchId)
    requires Orderly(s) && m in s.sessions
    ensures NotesKept(s, Step(s, SessionEnd(m)))
  {
    hide Exclusive, JoinsApart, JoinsMatch, SessionsCovered, NamesOk, Issue;
    var t := Step(s, SessionEnd(m));
    assert forall x, u :: x in t.sessions && In(t.sessions[x], u) ==> !In(s.sessions[m], u);
  }

  lemma EndStep(s: State, m: MatchId)
    requires Orderly(s) && m in s.sessions && Exclusive(Step(s, SessionEnd(m)))
    ensures Orderly(Step(s, SessionEnd(m)))
  {
    var t := Step(s, SessionEnd(m));
    EndSparesNotes(s, m);
    hide Orderly, Exclusive, NotesKept;
    assert SameJoins(s, t) && NoNewHolds(s, t) && StillAwaitNote(s, t) && NoNewSessions(s, t) && NoNewNotes(s, t);
    QuietStep(s, t);
  }

  lemma ArriveStep(s: State, act: Act)
    requires Orderly(s) && act.Arrive? && Timely(s, act) && Exclusive(Step(s, act))
    ensures Orderly(Step(s, act))
  {
    hide Orderly, Exclusive;
    var t := Step(s, act);
    assert SameJoins(s, t) && NoNewHolds(s, t) && StillAwaitNote(s, t);
    QuietStep(s, t);
  }

  lemma ClockStep(s: State, span: Time)
    requires Orderly(s) && NotesLast(s, Clock(span)) && Exclusive(Step(s, Clock(span)))
    ensures Orderly(Step(s, Clock(span)))
  {
    hide Orderly, Exclusive;
    var t := Step(s, Clock(span));
    assert forall m, u :: m in t.sessions && Exists(s.keys.activeMatch, u, s.now) && s.keys.activeMatch[u].value == m ==>
                            Noted(s, u);
    QuietStep(s, t);
  }

  lemma QueueLeaveStep(s: State, user: UserId, key: QueueKey)
    requires Orderly(s) && Exclusive(Step(s, QueueLeave(user, key)))
    ensures Orderly(Step(s, QueueLeave(user, key)))
  {
    hide Orderly, Exclusive;
    var t := Step(s, QueueLeave(user, key));
    assert t == s.(keys := s.keys.(queues := t.keys.queues));
    QuietStep(s, t);
  }

  lemma StepKeepsOrder(s: State, act: Act)
    requires Orderly(s) && Timely(s, act) && NotesLast(s, act) && Careful(s, act)
    ensures Orderly(Step(s, act))
  {
    StepKeepsExclusive(s, act);
    hide Orderly, Issue, Exclusive;
    match act
    case Arrive(_, _, _, _, _) => ArriveStep(s, act);
    case Command(id, stored) =>
      if id in s.joiners {
        CommandStep(s, id, stored);
      }
    case QueueLeave(user, key) => QueueLeaveStep(s, user, key);
    case SessionEnd(m) =>
      if m in s.sessions {
        EndStep(s, m);
      }
    case Clock(span) => ClockStep(s, span);
  }

  lemma {:induction false} AlwaysOrderly(acts: seq<Act>)
    requires CarefulRun(acts)
    ensures Orderly(Exec(acts)) && TimelyRun(acts)
  {
    if acts != [] {
      AlwaysOrderly(acts[..|acts| - 1]);
      StepKeepsOrder(Exec(acts[..|acts| - 1]), acts[|acts| - 1]);
    }
  }

  ghost predicate Shared(sessions: map<MatchId, Pair>) {
    exists m1, m2, u :: m1 != m2 && m1 in sessions && m2 in sessions && In(sessions[m1], u) && In(sessions[m2], u)
  }

  /** Some user is in two unfinished sessions. */
  ghost predicate DoubleBooked(s: State) { Shared(s.sessions) }

  /**
   No double booking between single commands: in every run whose scripts reserve nobody who is being
   finalized or has the note of an unfinished session, no user is in two sessions.
   */
  lemma {:induction false} CarefulRunsBookOnce(acts: seq<Act>)
    requires CarefulRun(acts)
    ensures !DoubleBooked(Exec(acts))
  {
    AlwaysOrderly(acts);
  }

  // ---- The condition is needed ---------------------------------------------------------------------

  /** The user is engaged to a match that has not ended. */
  predicate Taken(s: State, u: UserId) {
    || Noted(s, u)
    || exists i | i in s.joiners :: Unlocked(s.joiners[i]) && Has(s.joiners[i], u) && s.joiners[i].matchId in s.sessions
  }

  lemma TakenIsBooked(s: State, u: UserId) returns (m: MatchId)
    requires Orderly(s) && Taken(s, u)
    ensures m in s.sessions && In(s.sessions[m], u)
  {
    if Noted(s, u) {
      m := s.keys.activeMatch[u].value;
    } else {
      var i :| i in s.joiners && Unlocked(s.joiners[i]) && Has(s.joiners[i], u) && s.joiners[i].matchId in s.sessions;
      m := s.joiners[i].matchId;
    }
  }

  lemma BookedIsTaken(s: State, m: MatchId, u: UserId)
    requires Orderly(s) && m in s.sessions && In(s.sessions[m], u) && !Exists(s.keys.locks, u, s.now)
    ensures Taken(s, u)
  {
    assert Covered(s, m, u);
    if !(Exists(s.keys.activeMatch, u, s.now) && s.keys.activeMatch[u].value == m) {
      var i :| i in s.joiners && s.joiners[i].matchId == m && AwaitsNote(s.joiners[i], u);
      assert Reserved(s, i);
    }
  }

  /** A script that reserves a pair, and the storing of their session right after it. */
  lemma ScriptThenCreate(s: State, id: nat)
    requires Exclusive(s) && id in s.joiners && s.joiners[id].stage.RunScript? && NextReply(s, id).NewMatch?
    ensures var t := Step(Step(s, Command(id, true)), Command(id, true));
            t.sessions == s.sessions[s.joiners[id].matchId := Pair(s.joiners[id].user, NextReply(s, id).partner)]
  {
    hide Reserve;
  }

  /**
   The converse, at any script step of a careful run: if the session it reserves for is stored at once,
   some user is in two sessions if and only if the script took someone who was taken.
   */
  lemma {:induction false} CarelessStepIff(acts: seq<Act>, id: nat)
    requires CarefulRun(acts)
    requires var s := Exec(acts); id in s.joiners && s.joiners[id].stage.RunScript? && NextReply(s, id).NewMatch?
    ensures var s := Exec(acts);
            DoubleBooked(Step(Step(s, Command(id, true)), Command(id, true)))
            <==> Taken(s, s.joiners[id].user) || Taken(s, NextReply(s, id).partner)
  {
    AlwaysOrderly(acts);
    hide Exec, CarefulRun, Orderly, Step;
    CarelessStep(Exec(acts), id);
  }

  lemma CarelessStep(s: State, id: nat)
    requires Orderly(s) && id in s.joiners && s.joiners[id].stage.RunScript? && NextReply(s, id).NewMatch?
    ensures DoubleBooked(Step(Step(s, Command(id, true)), Command(id, true)))
            <==> Taken(s, s.joiners[id].user) || Taken(s, NextReply(s, id).partner)
  {
    hide Orderly, Step, Taken, JoinsApart, JoinsMatch, SessionsCovered, NamesOk, Shared;
    NewToSessions(s, id);
    ScriptThenCreate(s, id);
    UnlockedReply(s, id);
    hide NextReply, Exclusive;
    var p := Pair(s.joiners[id].user, NextReply(s, id).partner);
    AddPair(s.sessions, s.joiners[id].matchId, p);
    if Taken(s, p.a) {
      var m := TakenIsBooked(s, p.a);
      assert In(p, p.a);
    }
    if Taken(s, p.b) {
      var m := TakenIsBooked(s, p.b);
      assert In(p, p.b);
    }
    if m, u :| m in s.sessions && In(s.sessions[m], u) && In(p, u) {
      BookedIsTaken(s, m, u);
    }
  }

  lemma NewToSessions(s: State, id: nat)
    requires Orderly(s) && id in s.joiners && s.joiners[id].stage.RunScript?
    ensures Exclusive(s) && !Shared(s.sessions) && s.joiners[id].matchId !in s.sessions
  {
    if s.joiners[id].matchId in s.sessions {
      SessionIsNamed(s, s.joiners[id].matchId);
      NotYetStored(s, id, s.joiners[id].matchId);
    }
  }

  lemma UnlockedReply(s: State, id: nat)
    requires id in s.joiners && NextReply(s, id).NewMatch?
    ensures !Exists(s.keys.locks, s.joiners[id].user, s.now) && !Exists(s.keys.locks, NextReply(s, id).partner, s.now)
  {
    var j := s.joiners[id];
    ReserveLocks(s.keys, j.key, j.user, j.matchId, j.lastPartner, s.now);
    hide Reserve;
  }

  lemma AddPair(sessions: map<MatchId, Pair>, m0: MatchId, p: Pair)
    requires !Shared(sessions) && m0 !in sessions
    ensures Shared(sessions[m0 := p]) <==> exists m, u :: m in sessions && In(sessions[m], u) && In(p, u)
  {
    var t := sessions[m0 := p];
    if m1, m2, u :| m1 != m2 && m1 in t && m2 in t && In(t[m1], u) && In(t[m2], u) {
      var m := if m1 == m0 then m2 else m1;
      assert m in sessions && In(sessions[m], u);
    }
    if m, u :| m in sessions && In(sessions[m], u) && In(p, u) {
      assert In(t[m], u) && In(t[m0], u);
    }
  }
}
