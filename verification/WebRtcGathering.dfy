/** Candidates from end to end: what one browser gathers is what the other one adds. */
module WebRtcGathering {
  import opened Wrappers
  import opened WebRtcPeer
  import opened WebRtcProtocol
  import opened WebRtcStranding
  import opened WebRtcIce

  // ---- Gathered, forgotten, on the way ---------------------------------------------------------------

  /** A browser with a local description finds a candidate during negotiation `n`. */
  predicate Finds(p: Peer, e: Event, n: NegId) {
    e.Gather? && p.pc.Some? && p.pc.value.local.Some? && p.negId == Some(n)
  }

  function FoundBy(p: Peer, e: Event, n: NegId): seq<Tagged> { if Finds(p, e, n) then [Tagged(n, e.candidate)] else [] }

  function GatheredByOfferer(acts: seq<Act>, n: NegId): seq<Tagged>
    decreases |acts|
  {
    if acts == [] then [] else
    var before, act := acts[..|acts| - 1], acts[|acts| - 1];
    GatheredByOfferer(before, n) + (if act.AtOfferer? then FoundBy(Exec(START, before).offerer, act.event, n) else [])
  }

  function GatheredByAnswerer(acts: seq<Act>, n: NegId): seq<Tagged>
    decreases |acts|
  {
    if acts == [] then [] else
    var before, act := acts[..|acts| - 1], acts[|acts| - 1];
    GatheredByAnswerer(before, n) + (if act.AtAnswerer? then FoundBy(Exec(START, before).answerer, act.event, n) else [])
  }

  function Wiped(got: seq<Tagged>, e: Event, n: NegId): seq<Tagged> { if Resets(e) then Only(got, n) else [] }

  /** Received, and then wiped out by a reset of the receiver. */
  function ForgottenByAnswerer(acts: seq<Act>, n: NegId): seq<Tagged>
    decreases |acts|
  {
    if acts == [] then [] else
    var before, act := acts[..|acts| - 1], acts[|acts| - 1];
    ForgottenByAnswerer(before, n) + (if act.AtAnswerer? then Wiped(Exec(START, before).gotAnswerer, act.event, n) else [])
  }

  function ForgottenByOfferer(acts: seq<Act>, n: NegId): seq<Tagged>
    decreases |acts|
  {
    if acts == [] then [] else
    var before, act := acts[..|acts| - 1], acts[|acts| - 1];
    ForgottenByOfferer(before, n) + (if act.AtOfferer? then Wiped(Exec(START, before).gotOfferer, act.event, n) else [])
  }

  /** The candidates tagged `n` in a channel, in order. */
  function Carried(ms: seq<Signal>, n: NegId): seq<Tagged> {
    if ms == [] then [] else
    var rest := Carried(ms[..|ms| - 1], n);
    if ms[|ms| - 1].Ice? && ms[|ms| - 1].negId == n then rest + [Tagged(n, ms[|ms| - 1].candidate)] else rest
  }

  lemma {:induction false} CarriedAppend(ms: seq<Signal>, sent: seq<Signal>, n: NegId)
    ensures Carried(ms + sent, n) == Carried(ms, n) + Carried(sent, n)
  {
    if sent == [] {
      assert ms + sent == ms;
    } else {
      var most := sent[..|sent| - 1];
      CarriedAppend(ms, most, n);
      assert (ms + sent)[..|ms + sent| - 1] == ms + most;
    }
  }

  lemma CarriedFirst(ms: seq<Signal>, n: NegId)
    requires ms != []
    ensures Carried(ms, n)
         == (if ms[0].Ice? && ms[0].negId == n then [Tagged(n, ms[0].candidate)] else []) + Carried(ms[1..], n)
  {
    assert ms == [ms[0]] + ms[1..];
    CarriedAppend([ms[0]], ms[1..], n);
    assert [ms[0]][..0] == [];
  }

  lemma EventSends(p: Peer, e: Event, drawn: NegId, n: NegId)
    ensures var sent := React(p, e, drawn).sent;
            && |sent| <= 1
            && (if Finds(p, e, n) then sent == [Ice(n, e.candidate)] else sent != [] && sent[0].Ice? ==> sent[0].negId != n)
  {
    hide Begin;
  }

  /** What an event sends carries exactly what was found. */
  lemma EventCarries(ms: seq<Signal>, p: Peer, e: Event, drawn: NegId, n: NegId)
    ensures Carried(ms + React(p, e, drawn).sent, n) == Carried(ms, n) + FoundBy(p, e, n)
  {
    hide React, Finds;
    var sent := React(p, e, drawn).sent;
    EventSends(p, e, drawn, n);
    CarriedAppend(ms, sent, n);
    if sent != [] {
      assert sent[..0] == [];
    }
  }

  lemma SignalCarriesNothing(ms: seq<Signal>, p: Peer, m: Signal, drawn: NegId, nonce: int, n: NegId)
    ensures Carried(ms + HandleSignal(p, m, drawn, nonce).sent, n) == Carried(ms, n)
  {
    hide Flush, Begin;
    var sent := HandleSignal(p, m, drawn, nonce).sent;
    assert |sent| <= 1;
    CarriedAppend(ms, sent, n);
    if sent != [] {
      assert sent[..0] == [];
    }
  }

  lemma OnlyNoted(ms: seq<Signal>, got: seq<Tagged>, n: NegId)
    requires ms != []
    ensures Only(NoteIce(got, ms[0]), n) + Carried(ms[1..], n) == Only(got, n) + Carried(ms, n)
  {
    CarriedFirst(ms, n);
    if ms[0].Ice? {
      OnlySnoc(got, Tagged(ms[0].negId, ms[0].candidate), n);
    }
  }

  lemma ResetForgetsAll(got: seq<Tagged>, e: Event, n: NegId)
    ensures Only(got, n) == Wiped(got, e, n) + Only(GotAfter(got, e), n)
  {
    OnlyNone([], n);
  }

  // ---- Nothing is lost on the way --------------------------------------------------------------------

  /** What one step moves from one place to the next. */
  lemma OfferersStep(s: System, act: Act, n: NegId)
    requires Lossless(act)
    ensures var t := Step(s, act);
            Only(s.gotAnswerer, n) + Carried(s.toAnswerer, n) + (if act.AtOfferer? then FoundBy(s.offerer, act.event, n) else [])
            == (if act.AtAnswerer? then Wiped(s.gotAnswerer, act.event, n) else []) + Only(t.gotAnswerer, n) + Carried(t.toAnswerer, n)
  {
    hide React, HandleSignal, NoteIce, FoundBy, GotAfter, Wiped, Only, Carried;
    match act
    case AtOfferer(e) => EventCarries(s.toAnswerer, s.offerer, e, s.next, n);
    case AtAnswerer(e) => ResetForgetsAll(s.gotAnswerer, e, n);
    case DeliverToOfferer(nonce) =>
      if s.toOfferer != [] {
        SignalCarriesNothing(s.toAnswerer, s.offerer, s.toOfferer[0], s.next, nonce, n);
      }
    case DeliverToAnswerer(nonce) =>
      if s.toAnswerer != [] {
        OnlyNoted(s.toAnswerer, s.gotAnswerer, n);
      }
  }

  lemma AnswerersStep(s: System, act: Act, n: NegId)
    requires Lossless(act)
    ensures var t := Step(s, act);
            Only(s.gotOfferer, n) + Carried(s.toOfferer, n) + (if act.AtAnswerer? then FoundBy(s.answerer, act.event, n) else [])
            == (if act.AtOfferer? then Wiped(s.gotOfferer, act.event, n) else []) + Only(t.gotOfferer, n) + Carried(t.toOfferer, n)
  {
    hide React, HandleSignal, NoteIce, FoundBy, GotAfter, Wiped, Only, Carried;
    match act
    case AtAnswerer(e) => EventCarries(s.toOfferer, s.answerer, e, s.next, n);
    case AtOfferer(e) => ResetForgetsAll(s.gotOfferer, e, n);
    case DeliverToAnswerer(nonce) =>
      if s.toAnswerer != [] {
        SignalCarriesNothing(s.toOfferer, s.answerer, s.toAnswerer[0], s.next, nonce, n);
      }
    case DeliverToOfferer(nonce) =>
      if s.toOfferer != [] {
        OnlyNoted(s.toOfferer, s.gotOfferer, n);
      }
  }

  lemma Regroup<T>(all: seq<T>, gone: seq<T>, here: seq<T>, coming: seq<T>, more: seq<T>, wiped: seq<T>, here': seq<T>, coming': seq<T>)
    requires all == gone + here + coming && here + coming + more == wiped + here' + coming'
    ensures all + more == (gone + wiped) + here' + coming'
  {
    assert all + more == gone + (here + coming + more);
    assert gone + (wiped + here' + coming') == (gone + wiped) + here' + coming';
  }

  /** In every run without loss: what the offerer gathered is what the answerer forgot, has, or will receive, in this order. */
  lemma {:induction false} OfferersCandidatesArrive(acts: seq<Act>, n: NegId)
    requires forall act :: act in acts ==> Lossless(act)
    ensures var s := Exec(START, acts);
            GatheredByOfferer(acts, n) == ForgottenByAnswerer(acts, n) + Only(s.gotAnswerer, n) + Carried(s.toAnswerer, n)
  {
    if acts != [] {
      var before, act := acts[..|acts| - 1], acts[|acts| - 1];
      OfferersCandidatesArrive(before, n);
      assert act in acts;
      var s := Exec(START, before);
      var t := Step(s, act);
      hide Step, FoundBy, Wiped, Only, Carried;
      OfferersStep(s, act, n);
      Regroup(GatheredByOfferer(before, n), ForgottenByAnswerer(before, n), Only(s.gotAnswerer, n), Carried(s.toAnswerer, n),
              if act.AtOfferer? then FoundBy(s.offerer, act.event, n) else [],
              if act.AtAnswerer? then Wiped(s.gotAnswerer, act.event, n) else [], Only(t.gotAnswerer, n), Carried(t.toAnswerer, n));
    }
  }

  /** The same in the other direction. */
  lemma {:induction false} AnswerersCandidatesArrive(acts: seq<Act>, n: NegId)
    requires forall act :: act in acts ==> Lossless(act)
    ensures var s := Exec(START, acts);
            GatheredByAnswerer(acts, n) == ForgottenByOfferer(acts, n) + Only(s.gotOfferer, n) + Carried(s.toOfferer, n)
  {
    if acts != [] {
      var before, act := acts[..|acts| - 1], acts[|acts| - 1];
      AnswerersCandidatesArrive(before, n);
      assert act in acts;
      var s := Exec(START, before);
      var t := Step(s, act);
      hide Step, FoundBy, Wiped, Only, Carried;
      AnswerersStep(s, act, n);
      Regroup(GatheredByAnswerer(before, n), ForgottenByOfferer(before, n), Only(s.gotOfferer, n), Carried(s.toOfferer, n),
              if act.AtAnswerer? then FoundBy(s.answerer, act.event, n) else [],
              if act.AtOfferer? then Wiped(s.gotOfferer, act.event, n) else [], Only(t.gotOfferer, n), Carried(t.toOfferer, n));
    }
  }

  // ---- Gathered here, added there --------------------------------------------------------------------

  /**
   In step, without loss, whatever either side resets: what the offerer gathered for the answerer's
   negotiation was added there in this order, once, under its offer, except what the answerer received
   before a reset of its own, and what is still on the way.
   */
  lemma {:induction false} GatheredIsAdded(acts: seq<Act>)
    requires InStepRun(acts) && forall act :: act in acts ==> Lossless(act)
    requires Exec(START, acts).answerer.negId.Some?
    ensures var s := Exec(START, acts);
            var n := s.answerer.negId.value;
            && GatheredByOfferer(acts, n)
               == ForgottenByAnswerer(acts, n) + Took(Log(s.answerer), n) + Carried(s.toAnswerer, n)
            && n in s.offers && (forall x :: x in Log(s.answerer) && x.item.negId == n ==> x.under == s.offers[n])
  {
    OfferersCandidatesArrive(acts, Exec(START, acts).answerer.negId.value);
    AnswererConservesIce(acts);
    hide Exec, InStepRun, GatheredByOfferer, ForgottenByAnswerer, Took, Only;
  }

  /** What the offerer forgot belongs to negotiations that it has given up. */
  lemma {:induction false} ForgottenIsOver(acts: seq<Act>, n: NegId)
    ensures ForgottenByOfferer(acts, n) != [] ==> n < Exec(START, acts).next && Exec(START, acts).offerer.negId != Some(n)
  {
    if acts != [] {
      var before, act := acts[..|acts| - 1], acts[|acts| - 1];
      ForgottenIsOver(before, n);
      SafeAlways(before);
      KeepsIceAlways(before, n);
      var s := Exec(START, before);
      assert s.offerer.isOfferer && forall m :: m in s.toOfferer ==> !m.Offer?;
      if n !in s.answers {
        OnlyNone(s.gotOfferer, n);
      }
      assert n in s.answers ==> n < s.next;
      hide Safe, React, HandleSignal, Only, OffererKeeps;
      match act
      case AtOfferer(e) => EventEffect(s.offerer, e, s.next);
      case DeliverToOfferer(nonce) =>
        if s.toOfferer != [] {
          OffererAfter(s.offerer, s.toOfferer[0], s.next, nonce);
        }
      case _ =>
    }
  }

  /**
   Without loss, however calls overlap and whatever either side resets: what the answerer gathered for
   the offerer's negotiation was added there in this order, once, or waits in its queue for the answer,
   except what is still on the way; what was added is under that negotiation's answer.
   */
  lemma {:induction false} GatheredIsAddedBack(acts: seq<Act>)
    requires forall act :: act in acts ==> Lossless(act)
    requires Exec(START, acts).offerer.negId.Some?
    ensures var s := Exec(START, acts);
            var n := s.offerer.negId.value;
            && GatheredByAnswerer(acts, n) == Took(Log(s.offerer), n) + Only(s.offerer.pendingIce, n) + Carried(s.toOfferer, n)
            && (RemoteOf(s.offerer).Some? ==> Only(s.offerer.pendingIce, n) == [])
            && (n in s.answers ==> forall x :: x in Log(s.offerer) && x.item.negId == n ==> x.under == s.answers[n])
  {
    hide Exec, GatheredByAnswerer, ForgottenByOfferer, Took, Only, Log, RemoteOf, Carried, Lossless;
    var s := Exec(START, acts);
    var n := s.offerer.negId.value;
    AnswerersCandidatesArrive(acts, n);
    ForgottenIsOver(acts, n);
    OffererConservesIce(acts);
    hide *;
    assert [] + Only(s.gotOfferer, n) == Only(s.gotOfferer, n);
  }
}
