/**
 When an offerer can wait for an answer that it will never accept. A suspended `createOffer` call that
 settles under another negotiation id than its own sends such an offer; nothing else does.
 */
module WebRtcStranding {
  import opened Wrappers
  import opened WebRtcPeer
  import opened WebRtcProtocol

  predicate Lossless(act: Act) { !act.LoseToOfferer? && !act.LoseToAnswerer? }

  predicate Waiting(o: Peer) { o.pc.Some? && o.pc.value.signaling == HaveLocalOffer }

  /** Waiting on an offer whose answer will be taken for a stale one. */
  predicate Stranded(o: Peer) {
    Waiting(o) && !(o.pc.value.local.Some? && o.pc.value.local.value.OfferSdp? && o.negId == Some(o.pc.value.local.value.negId))
  }

  /** The offer of negotiation `n`, or its answer, is on its way. */
  ghost predicate InFlight(s: System, n: NegId) {
    || (exists i :: 0 <= i < |s.toAnswerer| && s.toAnswerer[i].Offer? && s.toAnswerer[i].negId == n)
    || (exists i :: 0 <= i < |s.toOfferer| && s.toOfferer[i].Answer? && s.toOfferer[i].negId == n)
  }

  // ---- What the offerer waits for ------------------------------------------------------------------

  ghost predicate Settled(s: System) {
    var o := s.offerer;
    && s.delivered <= s.answers.Keys && s.consumed <= s.answers.Keys
    && (Waiting(o) ==>
          && o.pc.value.local.Some? && o.pc.value.local.value.OfferSdp?
          && o.pc.value.local.value.negId in s.offers && s.offers[o.pc.value.local.value.negId] == o.pc.value.local.value
          && o.pc.value.local.value.negId !in s.consumed)
    && (o.negId.Some? && o.negId.value in s.delivered ==> o.negId.value in s.consumed)
    && (o.negId.Some? && o.negId.value in s.consumed ==> o.pc.Some? && o.pc.value.remote == Some(s.answers[o.negId.value]))
  }

  lemma SettledDeliverToOfferer(s: System, nonce: int)
    requires Safe(s) && Settled(s)
    ensures Settled(Step(s, DeliverToOfferer(nonce)))
  {
    if s.toOfferer != [] {
      OffererAfter(s.offerer, s.toOfferer[0], s.next, nonce);
      hide HandleSignal;
    }
  }

  lemma SettledDeliverToAnswerer(s: System, nonce: int)
    requires Safe(s) && Settled(s)
    ensures Settled(Step(s, DeliverToAnswerer(nonce)))
  {
    if s.toAnswerer != [] {
      TakingEffect(s, nonce);
      hide Step, Safe, NoteIce;
    }
  }

  lemma SettledOffering(s: System, e: Event)
    requires Safe(s) && Settled(s) && e.Continue? && e.run in s.offerer.runs
    ensures Settled(Step(s, AtOfferer(e)))
  {
    assert e.run.negId !in s.offers && e.run.negId !in s.consumed;
    hide Safe;
  }

  lemma SettledAtOfferer(s: System, e: Event)
    requires Safe(s) && Settled(s)
    ensures Settled(Step(s, AtOfferer(e)))
  {
    if e.Continue? && e.run in s.offerer.runs {
      SettledOffering(s, e);
    } else {
      assert s.next !in s.consumed && s.next !in s.delivered;
      hide Safe, Resume;
      assert NoteOffer(s.offers, React(s.offerer, e, s.next).sent) == s.offers;
    }
  }

  lemma SettledStep(s: System, act: Act)
    requires Safe(s) && Settled(s)
    ensures Settled(Step(s, act))
  {
    match act
    case AtOfferer(e) => SettledAtOfferer(s, e);
    case AtAnswerer(e) =>
    case DeliverToOfferer(nonce) => SettledDeliverToOfferer(s, nonce);
    case DeliverToAnswerer(nonce) => SettledDeliverToAnswerer(s, nonce);
    case LoseToOfferer(_) =>
    case LoseToAnswerer(_) =>
  }

  lemma {:induction false} SettledAlways(acts: seq<Act>)
    ensures Safe(Exec(START, acts)) && Settled(Exec(START, acts))
  {
    SafeAlways(acts);
    if acts != [] {
      SettledAlways(acts[..|acts| - 1]);
      SettledStep(Exec(START, acts[..|acts| - 1]), acts[|acts| - 1]);
    }
  }

  // ---- Without loss every offer is answered ----------------------------------------------------------

  ghost predicate Tracked(s: System) { forall n :: n in s.offers ==> InFlight(s, n) || n in s.delivered }

  lemma InFlightGrows(s: System, t: System, n: NegId)
    requires InFlight(s, n) && s.toAnswerer <= t.toAnswerer && s.toOfferer <= t.toOfferer
    ensures InFlight(t, n)
  {
    if i :| 0 <= i < |s.toAnswerer| && s.toAnswerer[i].Offer? && s.toAnswerer[i].negId == n {
      assert t.toAnswerer[i] == s.toAnswerer[i];
    } else {
      var i :| 0 <= i < |s.toOfferer| && s.toOfferer[i].Answer? && s.toOfferer[i].negId == n;
      assert t.toOfferer[i] == s.toOfferer[i];
    }
  }

  lemma TrackedLocal(s: System, act: Act)
    requires Tracked(s) && (act.AtOfferer? || act.AtAnswerer?)
    ensures Tracked(Step(s, act))
  {
    var t := Step(s, act);
    forall n | n in t.offers ensures InFlight(t, n) || n in t.delivered {
      if n in s.offers {
        if InFlight(s, n) {
          InFlightGrows(s, t, n);
        }
      } else {
        assert t.toAnswerer[|s.toAnswerer|].Offer? && t.toAnswerer[|s.toAnswerer|].negId == n;
      }
    }
  }

  lemma TrackedAtOfferer(s: System, nonce: int)
    requires Safe(s) && Tracked(s) && s.toOfferer != []
    ensures Tracked(Step(s, DeliverToOfferer(nonce)))
  {
    var t := Step(s, DeliverToOfferer(nonce));
    var m := s.toOfferer[0];
    OffererAfter(s.offerer, m, s.next, nonce);
    hide HandleSignal, Safe;
    assert t.toAnswerer == s.toAnswerer && t.offers == s.offers;
    forall n | n in s.offers && InFlight(s, n) ensures InFlight(t, n) || n in t.delivered {
      if i :| 0 <= i < |s.toAnswerer| && s.toAnswerer[i].Offer? && s.toAnswerer[i].negId == n {
      } else {
        var i :| 0 <= i < |s.toOfferer| && s.toOfferer[i].Answer? && s.toOfferer[i].negId == n;
        if i > 0 {
          assert t.toOfferer[i - 1] == s.toOfferer[i];
        }
      }
    }
  }

  lemma TrackedAtAnswerer(s: System, nonce: int)
    requires Safe(s) && Tracked(s) && s.toAnswerer != []
    ensures Tracked(Step(s, DeliverToAnswerer(nonce)))
  {
    hide Step, Safe, NoteAnswer, NoteIce;
    TakingEffect(s, nonce);
    var t := Step(s, DeliverToAnswerer(nonce));
    forall n | n in s.offers && InFlight(s, n) ensures InFlight(t, n) {
      if i :| 0 <= i < |s.toAnswerer| && s.toAnswerer[i].Offer? && s.toAnswerer[i].negId == n {
        if i > 0 {
          assert t.toAnswerer[i - 1] == s.toAnswerer[i];
        } else {
          assert t.toOfferer[|s.toOfferer|].Answer? && t.toOfferer[|s.toOfferer|].negId == n;
        }
      } else {
        var i :| 0 <= i < |s.toOfferer| && s.toOfferer[i].Answer? && s.toOfferer[i].negId == n;
        assert t.toOfferer[i] == s.toOfferer[i];
      }
    }
  }

  lemma {:induction false} TrackedAlways(acts: seq<Act>)
    requires forall act :: act in acts ==> Lossless(act)
    ensures Tracked(Exec(START, acts))
  {
    if acts != [] {
      var before, act := acts[..|acts| - 1], acts[|acts| - 1];
      TrackedAlways(before);
      SafeAlways(before);
      assert act in acts;
      var s := Exec(START, before);
      match act
      case AtOfferer(_) => TrackedLocal(s, act);
      case AtAnswerer(_) => TrackedLocal(s, act);
      case DeliverToOfferer(nonce) =>
        if s.toOfferer != [] {
          TrackedAtOfferer(s, nonce);
        }
      case DeliverToAnswerer(nonce) =>
        if s.toAnswerer != [] {
          TrackedAtAnswerer(s, nonce);
        }
    }
  }

  /**
   Without loss, whatever is torn down or retried: an offerer that waits for an answer has sent the offer
   it waits on, and its current offer or the matching answer is in flight if and only if it is not stranded.
   */
  lemma {:induction false} WaitingIsAnsweredIff(acts: seq<Act>)
    requires forall act :: act in acts ==> Lossless(act)
    ensures var s := Exec(START, acts);
            Waiting(s.offerer) ==>
              && s.offerer.pc.value.local.Some? && s.offerer.pc.value.local.value.OfferSdp?
              && s.offerer.pc.value.local.value.negId in s.offers
              && s.offers[s.offerer.pc.value.local.value.negId] == s.offerer.pc.value.local.value
              && (!Stranded(s.offerer) <==> s.offerer.negId.Some? && InFlight(s, s.offerer.negId.value))
  {
    TrackedAlways(acts);
    SettledAlways(acts);
  }

  // ---- Stranding -------------------------------------------------------------------------------------

  /** A suspended call that is about to send an offer under another id than the current one. */
  predicate OutOfStep(o: Peer, e: Event) {
    && e.Continue? && e.run in o.runs && o.negId != Some(e.run.negId)
    && o.pc.Some? && o.pc.value.id == e.run.pcId && o.pc.value.signaling == Stable
  }

  predicate InStep(s: System, act: Act) { act.AtOfferer? ==> !OutOfStep(s.offerer, act.event) }

  /** No suspended call ever sends its offer under another id. */
  predicate InStepRun(acts: seq<Act>)
    decreases |acts|
  {
    acts == [] || (InStepRun(acts[..|acts| - 1]) && InStep(Exec(START, acts[..|acts| - 1]), acts[|acts| - 1]))
  }

  lemma StrandedByEvent(o: Peer, e: Event, drawn: NegId)
    requires !Stranded(o)
    ensures Stranded(React(o, e, drawn).peer) <==> OutOfStep(o, e)
  {
  }

  lemma StrandedBySignal(o: Peer, m: Signal, drawn: NegId, nonce: int)
    requires o.isOfferer && !m.Offer? && !Stranded(o)
    ensures !Stranded(HandleSignal(o, m, drawn, nonce).peer)
  {
    OffererAfter(o, m, drawn, nonce);
    hide Flush;
  }

  /** An offerer is stranded by such an offer, at once, and by nothing else. */
  lemma StrandedByOutOfStep(s: System, act: Act)
    requires Safe(s) && !Stranded(s.offerer)
    ensures Stranded(Step(s, act).offerer) <==> !InStep(s, act)
  {
    assert s.offerer.isOfferer && forall m :: m in s.toOfferer ==> !m.Offer?;
    hide Safe, React, HandleSignal, Stranded, OutOfStep;
    match act
    case AtOfferer(e) => StrandedByEvent(s.offerer, e, s.next);
    case DeliverToOfferer(nonce) =>
      if s.toOfferer != [] {
        StrandedBySignal(s.offerer, s.toOfferer[0], s.next, nonce);
      }
    case _ =>
  }

  /** Only a teardown or retry of its own helps a stranded offerer. */
  lemma StrandedStays(s: System, act: Act)
    requires Safe(s) && Settled(s) && Stranded(s.offerer) && !(act.AtOfferer? && Resets(act.event))
    ensures Stranded(Step(s, act).offerer)
  {
    match act
    case AtOfferer(e) =>
    case DeliverToOfferer(nonce) =>
      if s.toOfferer != [] {
        OffererAfter(s.offerer, s.toOfferer[0], s.next, nonce);
        hide HandleSignal;
      }
    case _ =>
  }

  predicate StrandedAtSomePoint(acts: seq<Act>)
    decreases |acts|
  {
    Stranded(Exec(START, acts).offerer) || (acts != [] && StrandedAtSomePoint(acts[..|acts| - 1]))
  }

  /** In every run, with any losses, teardowns and retries, the offerer is stranded if and only if some offer was out of step. */
  lemma {:induction false} StrandedIff(acts: seq<Act>)
    ensures StrandedAtSomePoint(acts) <==> !InStepRun(acts)
  {
    if acts != [] {
      var before := acts[..|acts| - 1];
      StrandedIff(before);
      SettledAlways(before);
      var s := Exec(START, before);
      hide Safe, Settled, InStep;
      if !Stranded(s.offerer) {
        StrandedByOutOfStep(s, acts[|acts| - 1]);
      }
      hide Step, Stranded;
    }
  }

  lemma {:induction false} NeverStranded(acts: seq<Act>)
    requires InStepRun(acts)
    ensures !Stranded(Exec(START, acts).offerer)
  {
    StrandedIff(acts);
  }

  /** Whatever is lost or torn down: without out-of-step offers, an offerer waits for the offer it last made. */
  lemma {:induction false} WaitsForItsOwnOffer(acts: seq<Act>)
    requires InStepRun(acts)
    ensures var s := Exec(START, acts);
            Waiting(s.offerer) ==>
              && s.offerer.negId.Some? && s.offerer.negId.value in s.offers
              && s.offerer.pc.value.local == Some(s.offers[s.offerer.negId.value])
              && Consumes(s.offerer, s.offerer.negId.value)
  {
    NeverStranded(acts);
    SettledAlways(acts);
  }

  /** Without loss and out-of-step offers, retries and teardowns included, whoever waits is answered. */
  lemma {:induction false} WaitingIsAnswered(acts: seq<Act>)
    requires InStepRun(acts) && forall act :: act in acts ==> Lossless(act)
    ensures var s := Exec(START, acts);
            Waiting(s.offerer) ==>
              && s.offerer.negId.Some? && s.offerer.negId.value in s.offers
              && s.offerer.pc.value.local == Some(s.offers[s.offerer.negId.value])
              && InFlight(s, s.offerer.negId.value)
  {
    NeverStranded(acts);
    WaitingIsAnsweredIff(acts);
  }

  // ---- Three ways to stay in step --------------------------------------------------------------------

  /** A suspended call on the current connection. */
  predicate Live(o: Peer, r: Run) { r in o.runs && o.pc.Some? && o.pc.value.id == r.pcId }

  /** A call suspended on a closed connection never settles while one on the current connection is suspended. */
  ghost predicate Tidy(o: Peer, e: Event) {
    e.Continue? && e.run in o.runs && !Live(o, e.run) ==> forall r :: r in o.runs ==> !Live(o, r)
  }

  ghost predicate TidyRun(acts: seq<Act>)
    decreases |acts|
  {
    acts == [] ||
    var before, act := acts[..|acts| - 1], acts[|acts| - 1];
    TidyRun(before) && (act.AtOfferer? ==> Tidy(Exec(START, before).offerer, act.event))
  }

  /** Connections are numbered in the order they are opened. */
  ghost predicate Numbered(o: Peer) {
    && (o.pc.Some? ==> o.pc.value.id < o.pcCount)
    && (forall r :: r in o.runs ==> r.pcId < o.pcCount)
  }

  lemma NumberedEvent(o: Peer, e: Event, drawn: NegId)
    requires Numbered(o)
    ensures Numbered(React(o, e, drawn).peer)
  {
  }

  lemma NumberedSignal(o: Peer, m: Signal, drawn: NegId, nonce: int)
    requires o.isOfferer && Numbered(o)
    ensures Numbered(HandleSignal(o, m, drawn, nonce).peer)
  {
    hide Flush;
    FlushKeepsRuns();
  }

  lemma {:induction false} NumberedAlways(acts: seq<Act>)
    ensures Numbered(Exec(START, acts).offerer)
  {
    if acts != [] {
      var s, act := Exec(START, acts[..|acts| - 1]), acts[|acts| - 1];
      NumberedAlways(acts[..|acts| - 1]);
      SafeAlways(acts[..|acts| - 1]);
      assert s.offerer.isOfferer;
      hide Safe, React, HandleSignal, Numbered;
      match act
      case AtOfferer(e) => NumberedEvent(s.offerer, e, s.next);
      case DeliverToOfferer(nonce) =>
        if s.toOfferer != [] {
          NumberedSignal(s.offerer, s.toOfferer[0], s.next, nonce);
        }
      case _ =>
    }
  }

  /** A live call is the one the flag and the negotiation id stand for, so there is one at most. */
  ghost predicate OneLive(o: Peer) {
    && Numbered(o)
    && (forall r :: Live(o, r) ==> o.makingOffer && o.negId == Some(r.negId))
  }

  lemma OneLiveStep(s: System, act: Act)
    requires Safe(s) && OneLive(s.offerer) && (act.AtOfferer? ==> Tidy(s.offerer, act.event))
    ensures OneLive(Step(s, act).offerer) && InStep(s, act)
  {
    match act
    case AtOfferer(e) => OneLiveEvent(s.offerer, e, s.next);
    case DeliverToOfferer(nonce) =>
      if s.toOfferer != [] {
        OneLiveSignal(s.offerer, s.toOfferer[0], s.next, nonce);
      }
    case _ =>
  }

  lemma OneLiveEvent(o: Peer, e: Event, drawn: NegId)
    requires OneLive(o) && Tidy(o, e)
    ensures OneLive(React(o, e, drawn).peer) && !OutOfStep(o, e)
  {
    NumberedEvent(o, e, drawn);
    assert o.pc.Some? ==> forall r :: r in o.runs ==> r.pcId < o.pcCount;
    hide Numbered;
    if e.Continue? && e.run in o.runs {
      assert forall r :: Live(o, r) && Live(o, e.run) ==> r == e.run;
    }
  }

  lemma OneLiveSignal(o: Peer, m: Signal, drawn: NegId, nonce: int)
    requires o.isOfferer && OneLive(o)
    ensures OneLive(HandleSignal(o, m, drawn, nonce).peer)
  {
    hide Flush;
    FlushKeepsRuns();
  }

  lemma FlushKeepsRuns()
    ensures forall p :: var q := Flush(p);
                        q.runs == p.runs && q.pcCount == p.pcCount && q.makingOffer == p.makingOffer && q.negId == p.negId
                        && (q.pc.Some? <==> p.pc.Some?) && (p.pc.Some? ==> q.pc.value.id == p.pc.value.id)
  {
  }

  lemma {:induction false} TidyIsInStep(acts: seq<Act>)
    requires TidyRun(acts)
    ensures InStepRun(acts) && OneLive(Exec(START, acts).offerer)
  {
    if acts != [] {
      TidyIsInStep(acts[..|acts| - 1]);
      SafeAlways(acts[..|acts| - 1]);
      OneLiveStep(Exec(START, acts[..|acts| - 1]), acts[|acts| - 1]);
    }
  }

  /** One call at a time is outstanding, on whatever connection. */
  ghost predicate OneRun(o: Peer) { forall r1, r2 :: r1 in o.runs && r2 in o.runs ==> r1 == r2 }

  ghost predicate OneRunThroughout(acts: seq<Act>)
    decreases |acts|
  {
    OneRun(Exec(START, acts).offerer) && (acts != [] ==> OneRunThroughout(acts[..|acts| - 1]))
  }

  lemma {:induction false} OneRunIsTidy(acts: seq<Act>)
    requires OneRunThroughout(acts)
    ensures TidyRun(acts)
  {
    if acts != [] {
      OneRunIsTidy(acts[..|acts| - 1]);
    }
  }

  /** So with one call at a time, without loss, whoever waits is answered, whatever either side resets. */
  lemma {:induction false} OneCallIsAnswered(acts: seq<Act>)
    requires OneRunThroughout(acts) && forall act :: act in acts ==> Lossless(act)
    ensures var s := Exec(START, acts);
            Waiting(s.offerer) ==>
              && s.offerer.negId.Some? && s.offerer.negId.value in s.offers
              && s.offerer.pc.value.local == Some(s.offers[s.offerer.negId.value])
              && InFlight(s, s.offerer.negId.value)
  {
    OneRunIsTidy(acts);
    TidyIsInStep(acts);
    WaitingIsAnswered(acts);
  }

  /** A call settles only while its connection is the current one: closing a connection leaves its calls pending for ever. */
  predicate SettlesOpen(acts: seq<Act>)
    decreases |acts|
  {
    acts == [] ||
    var before, act := acts[..|acts| - 1], acts[|acts| - 1];
    SettlesOpen(before)
    && (act.AtOfferer? && act.event.Continue? && act.event.run in Exec(START, before).offerer.runs ==>
          Live(Exec(START, before).offerer, act.event.run))
  }

  lemma {:induction false} SettlesOpenIsTidy(acts: seq<Act>)
    requires SettlesOpen(acts)
    ensures TidyRun(acts)
  {
    if acts != [] {
      SettlesOpenIsTidy(acts[..|acts| - 1]);
    }
  }

  /**
   With that, every run, losses and resets included, has one live call at most, and an offerer that waits
   does so under the id of its own offer and would accept its answer.
   */
  lemma {:induction false} OpenCallsNeverStrand(acts: seq<Act>)
    requires SettlesOpen(acts)
    ensures var o := Exec(START, acts).offerer;
            && (forall r1, r2 :: Live(o, r1) && Live(o, r2) ==> r1 == r2)
            && (Waiting(o) ==>
                  && o.pc.value.local.Some? && o.pc.value.local.value.OfferSdp?
                  && o.negId == Some(o.pc.value.local.value.negId) && Consumes(o, o.negId.value))
  {
    SettlesOpenIsTidy(acts);
    TidyIsInStep(acts);
    NeverStranded(acts);
    SettledAlways(acts);
  }

  ghost predicate AllLive(o: Peer) {
    && OneLive(o)
    && (forall r :: r in o.runs ==> Live(o, r))
    && (o.runs == {} ==> !o.makingOffer)
  }

  lemma AllLiveEvent(o: Peer, e: Event, drawn: NegId)
    requires AllLive(o) && (Resets(e) ==> !o.makingOffer)
    ensures AllLive(React(o, e, drawn).peer)
  {
    OneLiveEvent(o, e, drawn);
    if e.Continue? && e.run in o.runs {
      assert forall r :: r in o.runs ==> r == e.run;
    }
  }

  lemma AllLiveSignal(o: Peer, m: Signal, drawn: NegId, nonce: int)
    requires o.isOfferer && AllLive(o)
    ensures AllLive(HandleSignal(o, m, drawn, nonce).peer)
  {
    OneLiveSignal(o, m, drawn, nonce);
    hide Flush, OneLive;
    FlushKeepsRuns();
  }

  lemma AllLiveStep(s: System, act: Act)
    requires Safe(s) && AllLive(s.offerer) && (act.AtOfferer? && Resets(act.event) ==> !s.offerer.makingOffer)
    ensures AllLive(Step(s, act).offerer) && InStep(s, act)
  {
    OneLiveStep(s, act);
    assert s.offerer.isOfferer;
    hide Safe, React, HandleSignal, AllLive, InStep;
    match act
    case AtOfferer(e) => AllLiveEvent(s.offerer, e, s.next);
    case DeliverToOfferer(nonce) =>
      if s.toOfferer != [] {
        AllLiveSignal(s.offerer, s.toOfferer[0], s.next, nonce);
      }
    case _ =>
  }

  // ---- A reset while a call is outstanding ---------------------------------------------------------------

  /** Nothing is lost and the offerer is not reset. */
  predicate Calm(acts: seq<Act>) {
    forall act :: act in acts ==> Lossless(act) && !(act.AtOfferer? && Resets(act.event))
  }

  lemma Then(acts: seq<Act>, act: Act) returns (more: seq<Act>)
    ensures more == acts + [act] && Exec(START, more) == Step(Exec(START, acts), act)
  {
    more := acts + [act];
    assert more[..|acts|] == acts;
  }

  /** A new call is suspended; the abandoned one clears its flag; a third one renames the negotiation; the second one sends. */
  function Overlap(stale: Run, n: NegId, pcId: nat): seq<Event> {
    [Start, Media, Continue(stale, 0), Negotiate, Continue(Run(n + 1, pcId), 0)]
  }

  function PeerAfter(o: Peer, events: seq<Event>, n: NegId): Peer
    decreases |events|
  {
    if events == [] then o
    else React(PeerAfter(o, events[..|events| - 1], n), events[|events| - 1], n + |events| - 1).peer
  }

  /** After the first three events the second call is live, and no flag guards it. */
  lemma FlagCleared(o: Peer, stale: Run, n: NegId) returns (o1: Peer, o2: Peer, o3: Peer)
    requires o.isOfferer && stale in o.runs && !o.makingOffer && !o.hasMedia
    requires o.pc.Some? ==> o.pc.value.id != stale.pcId && o.pc.value.signaling == Stable
    requires stale.pcId < o.pcCount
    ensures o1 == React(o, Start, n).peer && o2 == React(o1, Media, n + 1).peer
    ensures o3 == React(o2, Continue(stale, 0), n + 2).peer
    ensures o3.pc == EnsurePeer(o).pc && o3.pc.value.signaling == Stable && !o3.makingOffer && o3.isOfferer && o3.callActive
            && o3.hasMedia && Run(n + 1, o3.pc.value.id) in o3.runs
  {
    o1 := React(o, Start, n).peer;
    o2 := React(o1, Media, n + 1).peer;
    assert o2.negId == Some(n + 1) && Run(n + 1, o2.pc.value.id) in o2.runs;
    o3 := React(o2, Continue(stale, 0), n + 2).peer;
  }

  lemma SecondCallSends(o: Peer, n: NegId)
    requires o.pc.Some? && o.pc.value.signaling == Stable && !o.makingOffer && o.isOfferer && o.callActive && o.hasMedia
    requires Run(n + 1, o.pc.value.id) in o.runs
    ensures Stranded(React(React(o, Negotiate, n + 3).peer, Continue(Run(n + 1, o.pc.value.id), 0), n + 4).peer)
  {
  }

  lemma OverlapStrands(o: Peer, stale: Run, n: NegId)
    requires o.isOfferer && stale in o.runs && stale.pcId < o.pcCount && !o.makingOffer && !o.hasMedia
    requires o.pc.Some? ==> o.pc.value.id != stale.pcId && o.pc.value.signaling == Stable
    ensures Stranded(PeerAfter(o, Overlap(stale, n, EnsurePeer(o).pc.value.id), n))
  {
    hide React, Stranded;
    var id := EnsurePeer(o).pc.value.id;
    var all := Overlap(stale, n, id);
    var o1, o2, o3 := FlagCleared(o, stale, n);
    var o4 := React(o3, Negotiate, n + 3).peer;
    SecondCallSends(o3, n);
    assert all[..4][..3] == all[..3] && all[..3][..2] == all[..2] && all[..2][..1] == all[..1] && all[..1][..0] == [];
    hide EnsurePeer;
    assert PeerAfter(o, all[..1], n) == o1;
    assert PeerAfter(o, all[..2], n) == o2;
    assert PeerAfter(o, all[..3], n) == o3;
    assert PeerAfter(o, all[..4], n) == o4;
  }

  lemma ThenEvent(acts: seq<Act>, e: Event) returns (more: seq<Act>)
    ensures more == acts + [AtOfferer(e)]
    ensures var s, t := Exec(START, acts), Exec(START, more);
            t.offerer == React(s.offerer, e, s.next).peer && t.next == s.next + 1
  {
    hide React, Exec;
    more := Then(acts, AtOfferer(e));
  }

  lemma CalmSnoc(before: seq<Act>, e: Event)
    requires Calm(before) && !Resets(e)
    ensures Calm(before + [AtOfferer(e)])
  {
  }

  lemma {:induction false} EventsInOrder(acts: seq<Act>, events: seq<Event>) returns (more: seq<Act>)
    requires forall i :: 0 <= i < |events| ==> !Resets(events[i])
    ensures Calm(more)
    ensures var s, t := Exec(START, acts), Exec(START, acts + more);
            t.offerer == PeerAfter(s.offerer, events, s.next) && t.next == s.next + |events|
  {
    hide React, Exec, Calm, Resets;
    if events == [] {
      more := [];
      assert acts + more == acts;
      CalmNothing();
    } else {
      var most, last := events[..|events| - 1], events[|events| - 1];
      var before := EventsInOrder(acts, most);
      CalmSnoc(before, last);
      more := before + [AtOfferer(last)];
      var all := ThenEvent(acts + before, last);
      assert all == acts + more;
    }
  }

  lemma CalmNothing()
    ensures Calm([])
  {
  }

  lemma AfterReset(o: Peer, e: Event, drawn: NegId)
    requires Resets(e) && Numbered(o)
    ensures var q := React(o, e, drawn).peer;
            && q.runs == o.runs && q.isOfferer == o.isOfferer && !q.makingOffer && !q.hasMedia && Numbered(q) && !Stranded(q)
            && (q.pc.Some? ==> q.pc.value.signaling == Stable && forall r :: r in q.runs ==> r.pcId != q.pc.value.id)
  {
  }

  lemma ResetCanStrand(acts: seq<Act>, e: Event) returns (more: seq<Act>)
    requires Resets(e) && Exec(START, acts).offerer.runs != {}
    ensures Calm(more) && Stranded(Exec(START, (acts + [AtOfferer(e)]) + more).offerer)
  {
    NumberedAlways(acts);
    SafeAlways(acts);
    hide Exec, React, Stranded;
    var s := Exec(START, acts);
    AfterReset(s.offerer, e, s.next);
    var reset := Then(acts, AtOfferer(e));
    var stale :| stale in s.offerer.runs;
    var t := Step(s, AtOfferer(e));
    OverlapStrands(t.offerer, stale, t.next);
    more := EventsInOrder(reset, Overlap(stale, t.next, EnsurePeer(t.offerer).pc.value.id));
  }

  lemma {:induction false} CalmKeepsAllLive(acts: seq<Act>, more: seq<Act>)
    requires Calm(more) && AllLive(Exec(START, acts).offerer) && !Stranded(Exec(START, acts).offerer)
    ensures AllLive(Exec(START, acts + more).offerer) && !Stranded(Exec(START, acts + more).offerer)
  {
    hide AllLive, Stranded;
    if more == [] {
      assert acts + more == acts;
    } else {
      var before, act := more[..|more| - 1], more[|more| - 1];
      CalmKeepsAllLive(acts, before);
      assert act in more && (acts + more)[..|acts + more| - 1] == acts + before;
      SafeAlways(acts + before);
      hide Safe, Step, InStep;
      AllLiveStep(Exec(START, acts + before), act);
      StrandedByOutOfStep(Exec(START, acts + before), act);
    }
  }

  lemma ResetDoesNotStrand(acts: seq<Act>, e: Event, more: seq<Act>)
    requires Resets(e) && Exec(START, acts).offerer.runs == {} && Calm(more)
    ensures !Stranded(Exec(START, (acts + [AtOfferer(e)]) + more).offerer)
  {
    NumberedAlways(acts);
    hide Exec, React, Stranded, Calm;
    var s := Exec(START, acts);
    AfterReset(s.offerer, e, s.next);
    var reset := Then(acts, AtOfferer(e));
    CalmKeepsAllLive(reset, more);
  }

  /**
   In every run: exactly a teardown or retry while some `createOffer` call is outstanding can strand the
   offerer. After it, and only after it, a run without loss and further resets of the offerer can lead there.
   */
  lemma {:induction false} ResetStrandsIff(acts: seq<Act>, e: Event)
    requires Resets(e)
    ensures (exists more :: Calm(more) && Stranded(Exec(START, (acts + [AtOfferer(e)]) + more).offerer))
            <==> Exec(START, acts).offerer.runs != {}
  {
    hide Stranded, Calm, Exec;
    if Exec(START, acts).offerer.runs != {} {
      var more := ResetCanStrand(acts, e);
    } else {
      forall more | Calm(more) ensures !Stranded(Exec(START, (acts + [AtOfferer(e)]) + more).offerer) {
        ResetDoesNotStrand(acts, e, more);
      }
    }
  }

  /** The offerer neither retries nor unmounts while it is making an offer. */
  predicate Patient(o: Peer, act: Act) { act.AtOfferer? && Resets(act.event) ==> !o.makingOffer }

  predicate PatientRun(acts: seq<Act>)
    decreases |acts|
  {
    acts == [] || (PatientRun(acts[..|acts| - 1]) && Patient(Exec(START, acts[..|acts| - 1]).offerer, acts[|acts| - 1]))
  }

  /** Then the flag tells whether a call is outstanding. */
  lemma {:induction false} PatientIsTidy(acts: seq<Act>)
    requires PatientRun(acts)
    ensures TidyRun(acts) && AllLive(Exec(START, acts).offerer)
  {
    if acts != [] {
      var s, act := Exec(START, acts[..|acts| - 1]), acts[|acts| - 1];
      PatientIsTidy(acts[..|acts| - 1]);
      SafeAlways(acts[..|acts| - 1]);
      AllLiveStep(s, act);
    }
  }

  /** So for an offerer that was patient so far, resetting while it is making an offer is exactly what can strand it. */
  lemma {:induction false} PatientResetStrandsIff(acts: seq<Act>, e: Event)
    requires PatientRun(acts) && Resets(e)
    ensures (exists more :: Calm(more) && Stranded(Exec(START, (acts + [AtOfferer(e)]) + more).offerer))
            <==> Exec(START, acts).offerer.makingOffer
  {
    PatientIsTidy(acts);
    ResetStrandsIff(acts, e);
    hide Calm, Stranded, Exec, TidyRun, PatientRun;
  }

  /** Media arrives and the call starts: `createOffer` is outstanding. */
  lemma ReachMaking() returns (acts: seq<Act>)
    ensures Calm(acts) && Exec(START, acts).offerer.runs != {}
  {
    var events := [Mount, Media, Start];
    acts := EventsInOrder([], events);
    assert [] + acts == acts;
    hide Exec;
    assert events[..2][..1] == events[..1] && events[..1][..0] == [];
    assert PeerAfter(START.offerer, events[..1], 0) == EnsurePeer(START.offerer);
    assert PeerAfter(START.offerer, events[..2], 0) == EnsurePeer(START.offerer).(hasMedia := true);
    var o := EnsurePeer(START.offerer).(hasMedia := true, callActive := true);
    assert Run(2, 0) in Begin(o, 2).runs;
    StartState();
  }

  lemma StartState()
    ensures Exec(START, []) == START
  {
  }

  /** Such a moment is reached, so a retry can strand the offerer although nothing is lost. */
  lemma RetryCanStrandTheOfferer()
    ensures exists acts :: (forall act :: act in acts ==> Lossless(act)) && Stranded(Exec(START, acts).offerer)
  {
    hide Exec, Stranded;
    var acts := ReachMaking();
    var more := ResetCanStrand(acts, Retry);
    assert forall act :: act in (acts + [AtOfferer(Retry)]) + more ==> Lossless(act);
  }
}
