/** What two clients agree on once nothing is in flight between them. */
module WebRtcQuiescence {
  import opened Wrappers
  import opened WebRtcPeer
  import opened WebRtcProtocol
  import opened WebRtcStranding
  import opened WebRtcOrder

  predicate OffererStays(acts: seq<Act>) { forall act :: act in acts ==> !(act.AtOfferer? && Resets(act.event)) }

  predicate AnswererStays(acts: seq<Act>) { forall act :: act in acts ==> !(act.AtAnswerer? && Resets(act.event)) }

  predicate LosslessRun(acts: seq<Act>) { forall act :: act in acts ==> Lossless(act) }

  // ---- The offerer's current negotiation -----------------------------------------------------------

  /** The call that stands for the current negotiation is outstanding, on a stable connection. */
  predicate Calling(o: Peer) {
    o.negId.Some? && o.pc.Some? && o.pc.value.signaling == Stable && Run(o.negId.value, o.pc.value.id) in o.runs
  }

  /** Its offer was sent, or that call is outstanding. */
  ghost predicate Underway(o: Peer, offers: map<NegId, Sdp>) {
    o.negId.Some? ==> o.negId.value in offers || Calling(o)
  }

  lemma UnderwayEvent(o: Peer, e: Event, offers: map<NegId, Sdp>, drawn: NegId)
    requires Underway(o, offers) && !OutOfStep(o, e)
    ensures var r := React(o, e, drawn); Underway(r.peer, NoteOffer(offers, r.sent))
  {
  }

  lemma UnderwaySignal(o: Peer, m: Signal, offers: map<NegId, Sdp>, drawn: NegId, nonce: int)
    requires o.isOfferer && Underway(o, offers)
    ensures Underway(HandleSignal(o, m, drawn, nonce).peer, offers)
  {
    hide Flush;
    FlushKeepsRuns();
  }

  lemma {:induction false} UnderwayAlways(acts: seq<Act>)
    requires InStepRun(acts)
    ensures Underway(Exec(START, acts).offerer, Exec(START, acts).offers)
  {
    if acts != [] {
      var s, act := Exec(START, acts[..|acts| - 1]), acts[|acts| - 1];
      UnderwayAlways(acts[..|acts| - 1]);
      SafeAlways(acts[..|acts| - 1]);
      assert s.offerer.isOfferer;
      hide Safe, React, HandleSignal, Underway, NoteOffer, OutOfStep;
      match act
      case AtOfferer(e) => UnderwayEvent(s.offerer, e, s.offers, s.next);
      case DeliverToOfferer(nonce) =>
        if s.toOfferer != [] {
          UnderwaySignal(s.offerer, s.toOfferer[0], s.offers, s.next, nonce);
        }
      case _ =>
    }
  }

  // ---- The answerer's current negotiation ----------------------------------------------------------

  /** If it has one, that is the newest one answered. */
  ghost predicate LatestAnswered(a: Peer, answers: map<NegId, Sdp>) {
    a.negId.Some? ==> forall k :: k in answers ==> k <= a.negId.value
  }

  lemma LatestAnsweredStep(s: System, act: Act)
    requires Safe(s) && InOrder(s) && LatestAnswered(s.answerer, s.answers)
    ensures LatestAnswered(Step(s, act).answerer, Step(s, act).answers)
  {
    assert !s.answerer.isOfferer;
    match act
    case DeliverToAnswerer(nonce) =>
      if s.toAnswerer != [] {
        TakingEffect(s, nonce);
        if s.toAnswerer[0].Offer? {
          NextOfferIsLater(s);
          TakenOfferIsCurrent(s, nonce);
          hide Step, Safe, InOrder;
        } else {
          SameNegotiation(s.answerer, s.toAnswerer[0], s.next, nonce);
          hide Safe, InOrder, HandleSignal;
        }
      }
    case AtAnswerer(e) =>
      if Resets(e) {
        ResetForgets(s.answerer, e, s.next);
      } else {
        SameNegotiationEvent(s.answerer, e, s.next);
      }
      hide Safe, InOrder, React;
    case _ =>
  }

  lemma ResetForgets(p: Peer, e: Event, drawn: NegId)
    requires Resets(e)
    ensures React(p, e, drawn).peer.negId == None
  {
  }

  lemma {:induction false} LatestAnsweredAlways(acts: seq<Act>)
    requires InStepRun(acts)
    ensures LatestAnswered(Exec(START, acts).answerer, Exec(START, acts).answers)
  {
    if acts != [] {
      var before := acts[..|acts| - 1];
      LatestAnsweredAlways(before);
      SafeAlways(before);
      InOrderAlways(before);
      LatestAnsweredStep(Exec(START, before), acts[|acts| - 1]);
    }
  }

  // ---- An answerer that starts over is heard ---------------------------------------------------------

  /** The answerer has asked for the call, by a start or a retry, if it was torn down at all. */
  predicate AsksAgain(acts: seq<Act>)
    decreases |acts|
  {
    acts == [] || AskedAfter(AsksAgain(acts[..|acts| - 1]), acts[|acts| - 1])
  }

  predicate AskedAfter(asked: bool, act: Act) {
    if act.AtAnswerer? && act.event.Unmount? then false
    else asked || (act.AtAnswerer? && (act.event.Start? || act.event.Retry?))
  }

  /** What a negotiation needs is there, and the flag is up for an outstanding call only. */
  predicate Ready(o: Peer) {
    (o.negId.Some? ==> o.hasMedia && o.pc.Some?) && (o.makingOffer ==> Calling(o))
  }

  lemma ReadyEvent(o: Peer, e: Event, drawn: NegId)
    requires Ready(o)
    ensures Ready(React(o, e, drawn).peer)
  {
  }

  lemma ReadySignal(o: Peer, m: Signal, drawn: NegId, nonce: int)
    requires o.isOfferer && Ready(o)
    ensures Ready(HandleSignal(o, m, drawn, nonce).peer)
  {
    hide AppliedUnder, Only;
  }

  lemma {:induction false} ReadyAlways(acts: seq<Act>)
    ensures Ready(Exec(START, acts).offerer)
  {
    if acts != [] {
      var s, act := Exec(START, acts[..|acts| - 1]), acts[|acts| - 1];
      ReadyAlways(acts[..|acts| - 1]);
      SafeAlways(acts[..|acts| - 1]);
      assert s.offerer.isOfferer;
      hide Safe, React, HandleSignal, Ready;
      match act
      case AtOfferer(e) => ReadyEvent(s.offerer, e, s.next);
      case DeliverToOfferer(nonce) =>
        if s.toOfferer != [] {
          ReadySignal(s.offerer, s.toOfferer[0], s.next, nonce);
        }
      case _ =>
    }
  }

  /** A call request is on its way, and no answer behind it. */
  ghost predicate CallLast(ms: seq<Signal>) {
    exists i :: 0 <= i < |ms| && ms[i].Call? && forall j :: i < j < |ms| ==> !ms[j].Answer?
  }

  lemma CallLastAppend(ms: seq<Signal>, sent: seq<Signal>)
    requires |sent| <= 1 && (sent != [] ==> !sent[0].Answer?)
    ensures CallLast(ms) || sent == [Call] ==> CallLast(ms + sent)
  {
    if sent == [Call] {
      assert (ms + sent)[|ms|].Call?;
    } else if CallLast(ms) {
      var i :| 0 <= i < |ms| && ms[i].Call? && forall j :: i < j < |ms| ==> !ms[j].Answer?;
      assert (ms + sent)[i].Call?;
    }
  }

  lemma CallLastTail(ms: seq<Signal>)
    requires CallLast(ms)
    ensures CallLast(ms[1..]) || (ms[0].Call? && forall m :: m in ms ==> !m.Answer?)
  {
    var i :| 0 <= i < |ms| && ms[i].Call? && forall j :: i < j < |ms| ==> !ms[j].Answer?;
    if i > 0 {
      assert ms[1..][i - 1].Call?;
      assert forall j :: 0 <= j < |ms[1..]| ==> ms[1..][j] == ms[j + 1];
    }
  }

  ghost predicate Offered(ms: seq<Signal>) { exists m :: m in ms && m.Offer? }

  /** An answerer without a negotiation will hear of the offerer's. */
  ghost predicate Heard(s: System) {
    s.answerer.negId.None? && s.offerer.negId.Some? ==> CallLast(s.toOfferer) || Offered(s.toAnswerer) || Calling(s.offerer)
  }

  /** In step, an outstanding call stays or sends its offer, and a new negotiation has one. */
  lemma CallingThroughEvent(o: Peer, e: Event, drawn: NegId)
    requires !OutOfStep(o, e)
    ensures var r := React(o, e, drawn);
            r.peer.negId.Some? ==>
              || Calling(r.peer)
              || (r.peer.negId == o.negId && (Calling(o) ==> |r.sent| == 1 && r.sent[0].Offer?))
  {
  }

  /** A signal other than an answer to it leaves an outstanding call alone; a call request starts one if that is possible. */
  lemma CallingThroughSignal(o: Peer, m: Signal, drawn: NegId, nonce: int)
    requires o.isOfferer && Ready(o) && !m.Offer? && (o.pc.Some? ==> !o.pc.value.signaling.HaveRemoteOffer?)
    ensures var q := HandleSignal(o, m, drawn, nonce).peer;
            && (Calling(o) ==> Calling(q))
            && (q.negId.Some? ==> Calling(q) || (q.negId == o.negId && (m.Call? ==> Waiting(o))))
  {
    hide AppliedUnder, Only;
  }

  lemma HeardAtOfferer(s: System, e: Event)
    requires Safe(s) && Heard(s) && !OutOfStep(s.offerer, e)
    ensures Heard(Step(s, AtOfferer(e)))
  {
    CallingThroughEvent(s.offerer, e, s.next);
    hide Safe, React, Calling, OutOfStep, CallLast;
    var t := Step(s, AtOfferer(e));
    if Offered(s.toAnswerer) {
      var m :| m in s.toAnswerer && m.Offer?;
      assert m in t.toAnswerer;
    }
    var sent := React(s.offerer, e, s.next).sent;
    if |sent| == 1 && sent[0].Offer? {
      assert sent[0] in t.toAnswerer;
    }
  }

  lemma HeardAtAnswerer(s: System, e: Event, asked: bool)
    requires Safe(s) && (asked ==> Heard(s)) && AskedAfter(asked, AtAnswerer(e))
    ensures Heard(Step(s, AtAnswerer(e)))
  {
    assert !s.answerer.isOfferer;
    AnswererEventOk(s.answerer, e, s.next, s.offers, s.answers);
    AskingCalls(s.answerer, e, s.next);
    hide Safe, React, CallLast, AnswererOk;
    CallLastAppend(s.toOfferer, React(s.answerer, e, s.next).sent);
  }

  lemma AskingCalls(a: Peer, e: Event, drawn: NegId)
    requires !a.isOfferer
    ensures e.Start? || e.Retry? ==> React(a, e, drawn).sent == [Call]
    ensures !Resets(e) ==> React(a, e, drawn).peer.negId == a.negId
  {
  }

  lemma HeardDeliverToOfferer(s: System, nonce: int)
    requires Safe(s) && Heard(s) && Ready(s.offerer) && s.toOfferer != []
    requires Waiting(s.offerer) ==> s.offerer.negId.Some? && InFlight(s, s.offerer.negId.value)
    ensures Heard(Step(s, DeliverToOfferer(nonce)))
  {
    var m := s.toOfferer[0];
    assert s.offerer.isOfferer && !m.Offer?;
    OffererAfter(s.offerer, m, s.next, nonce);
    CallingThroughSignal(s.offerer, m, s.next, nonce);
    hide Safe, HandleSignal, Calling, Ready, CallLast;
    var t := Step(s, DeliverToOfferer(nonce));
    assert t.toAnswerer == s.toAnswerer;
    if CallLast(s.toOfferer) {
      CallLastTail(s.toOfferer);
      if !CallLast(t.toOfferer) && Waiting(s.offerer) {
        FlyingOffer(s, s.offerer.negId.value);
      }
    }
  }

  lemma FlyingOffer(s: System, n: NegId)
    requires InFlight(s, n) && forall m :: m in s.toOfferer ==> !m.Answer?
    ensures Offered(s.toAnswerer)
  {
    assert forall i :: 0 <= i < |s.toOfferer| ==> s.toOfferer[i] in s.toOfferer;
    var i :| 0 <= i < |s.toAnswerer| && s.toAnswerer[i].Offer? && s.toAnswerer[i].negId == n;
    assert s.toAnswerer[i] in s.toAnswerer;
  }

  lemma HeardDeliverToAnswerer(s: System, nonce: int)
    requires Safe(s) && Heard(s) && s.toAnswerer != []
    ensures Heard(Step(s, DeliverToAnswerer(nonce)))
  {
    TakingEffect(s, nonce);
    if s.toAnswerer[0].Offer? {
      TakenOfferIsCurrent(s, nonce);
      hide Step, Safe;
    } else {
      assert !s.answerer.isOfferer;
      SameNegotiation(s.answerer, s.toAnswerer[0], s.next, nonce);
      hide Safe, HandleSignal, Calling, CallLast;
      assert s.toOfferer + [] == s.toOfferer;
      if Offered(s.toAnswerer) {
        var m :| m in s.toAnswerer && m.Offer?;
        assert m in s.toAnswerer[1..];
      }
    }
  }

  lemma {:induction false} HeardAlways(acts: seq<Act>)
    requires InStepRun(acts) && LosslessRun(acts)
    ensures AsksAgain(acts) ==> Heard(Exec(START, acts))
  {
    if acts != [] && AsksAgain(acts) {
      var before, act := acts[..|acts| - 1], acts[|acts| - 1];
      HeardAlways(before);
      SafeAlways(before);
      ReadyAlways(before);
      WaitingIsAnswered(before);
      assert act in acts;
      var s := Exec(START, before);
      hide Safe, Heard, Ready, InFlight, Waiting, InStepRun, React, HandleSignal;
      match act
      case AtOfferer(e) => HeardAtOfferer(s, e);
      case AtAnswerer(e) => HeardAtAnswerer(s, e, AsksAgain(before));
      case DeliverToOfferer(nonce) =>
        if s.toOfferer != [] {
          HeardDeliverToOfferer(s, nonce);
        }
      case DeliverToAnswerer(nonce) =>
        if s.toAnswerer != [] {
          HeardDeliverToAnswerer(s, nonce);
        }
    }
  }

  // ---- Quiet channels ------------------------------------------------------------------------------

  /** Both ends are stable on negotiation `n` and hold each other's descriptions. */
  predicate AgreeOn(s: System, n: NegId) {
    && s.offerer.negId == s.answerer.negId == Some(n)
    && s.offerer.pc.Some? && s.offerer.pc.value.signaling == Stable
    && s.answerer.pc.Some? && s.answerer.pc.value.signaling == Stable
    && s.offerer.pc.value.local.Some? && s.offerer.pc.value.local == s.answerer.pc.value.remote
    && s.offerer.pc.value.remote.Some? && s.offerer.pc.value.remote == s.answerer.pc.value.local
  }

  lemma QuietStateAgrees(s: System, n: NegId)
    requires Safe(s) && LatestAnswered(s.answerer, s.answers) && Newest(s.offerer, s.offers)
    requires s.offerer.negId == Some(n) && n in s.offers && s.answerer.negId.Some? && !Waiting(s.offerer)
    ensures AgreeOn(s, n)
  {
    hide ToAnswererOk, ToOffererOk, RunsOk;
  }

  /**
   In step, without loss, whatever either side tears down or retries: when nothing is in flight both ends
   agree on the offerer's current negotiation, if and only if its offer was sent and the answerer has a
   negotiation. The first is certain once no call is outstanding on the current connection, and then the
   second as well if the answerer asked for the call again after its last teardown.
   */
  lemma {:induction false} QuietEndsAgreeIff(acts: seq<Act>)
    requires InStepRun(acts) && LosslessRun(acts)
    requires var s := Exec(START, acts); s.toOfferer == [] && s.toAnswerer == [] && s.offerer.negId.Some?
    ensures var s := Exec(START, acts);
            && (AgreeOn(s, s.offerer.negId.value) <==> s.offerer.negId.value in s.offers && s.answerer.negId.Some?)
            && ((forall r :: !Live(s.offerer, r)) ==> s.offerer.negId.value in s.offers)
            && (AsksAgain(acts) && s.offerer.negId.value in s.offers ==> s.answerer.negId.Some?)
  {
    UnderwayAlways(acts);
    WaitingIsAnswered(acts);
    SafeAlways(acts);
    HeardAlways(acts);
    LatestAnsweredAlways(acts);
    NewestAlways(acts);
    hide Exec, InStepRun, LosslessRun, AsksAgain, Newest, LatestAnswered;
    var s := Exec(START, acts);
    var n := s.offerer.negId.value;
    if n !in s.offers {
      assert Live(s.offerer, Run(n, s.offerer.pc.value.id));
    } else if s.answerer.negId.Some? {
      QuietStateAgrees(s, n);
    }
  }

  /** So a retry of either side recovers: once it is quiet and no call is outstanding, both ends agree. */
  lemma {:induction false} AskedEndsAgree(acts: seq<Act>)
    requires InStepRun(acts) && LosslessRun(acts) && AsksAgain(acts)
    requires var s := Exec(START, acts);
             s.toOfferer == [] && s.toAnswerer == [] && s.offerer.negId.Some? && forall r :: !Live(s.offerer, r)
    ensures AgreeOn(Exec(START, acts), Exec(START, acts).offerer.negId.value)
  {
    QuietEndsAgreeIff(acts);
  }

  lemma {:induction false} StaysAsks(acts: seq<Act>)
    requires AnswererStays(acts)
    ensures AsksAgain(acts)
  {
    if acts != [] {
      assert acts[|acts| - 1] in acts;
      StaysAsks(acts[..|acts| - 1]);
    }
  }

  // ---- The offerer stays -------------------------------------------------------------------------------

  lemma {:induction false} StaysIsPatient(acts: seq<Act>)
    requires OffererStays(acts)
    ensures PatientRun(acts)
  {
    if acts != [] {
      StaysIsPatient(acts[..|acts| - 1]);
      assert acts[|acts| - 1] in acts;
    }
  }

  /** The offerer waits for the answer of negotiation `n`. */
  predicate WaitsFor(o: Peer, n: NegId) { Waiting(o) && o.negId == Some(n) }

  /** Whatever offer or answer is in flight, the offerer waits for that negotiation. */
  ghost predicate FlightIsCurrent(s: System) {
    && (forall m :: m in s.toAnswerer && m.Offer? ==> WaitsFor(s.offerer, m.negId))
    && (forall m :: m in s.toOfferer && m.Answer? ==> WaitsFor(s.offerer, m.negId))
  }

  lemma WaitThroughEvent(o: Peer, e: Event, drawn: NegId)
    requires !Resets(e) && !OutOfStep(o, e)
    ensures var r := React(o, e, drawn);
            && (forall n :: WaitsFor(o, n) ==> WaitsFor(r.peer, n))
            && (forall m :: m in r.sent && m.Offer? ==> !Waiting(o) && WaitsFor(r.peer, m.negId))
  {
  }

  lemma WaitThroughSignal(o: Peer, m: Signal, drawn: NegId, nonce: int)
    requires o.isOfferer && !(m.Answer? && Consumes(o, m.negId))
    ensures forall n :: WaitsFor(o, n) ==> WaitsFor(HandleSignal(o, m, drawn, nonce).peer, n)
  {
    hide Flush;
  }

  /** No second description of an answered negotiation is in flight. */
  lemma LastOfItsKind(s: System)
    requires Safe(s) && s.toOfferer != [] && s.toOfferer[0].Answer?
    ensures forall m :: m in s.toAnswerer && m.Offer? ==> m.negId != s.toOfferer[0].negId
    ensures forall m :: m in s.toOfferer[1..] && m.Answer? ==> m.negId != s.toOfferer[0].negId
  {
  }

  lemma FlightDeliverToOfferer(s: System, nonce: int)
    requires Safe(s) && FlightIsCurrent(s) && s.toOfferer != []
    ensures FlightIsCurrent(Step(s, DeliverToOfferer(nonce)))
  {
    var m := s.toOfferer[0];
    assert s.offerer.isOfferer && !m.Offer?;
    OffererAfter(s.offerer, m, s.next, nonce);
    if m.Answer? {
      LastOfItsKind(s);
      assert WaitsFor(s.offerer, m.negId);
    } else {
      WaitThroughSignal(s.offerer, m, s.next, nonce);
    }
    hide Safe, HandleSignal, WaitsFor;
    if m.Answer? {
      assert forall k :: WaitsFor(s.offerer, k) ==> k == m.negId by {
        OneWait(s.offerer, m.negId);
      }
    }
  }

  lemma OneWait(o: Peer, n: NegId)
    requires WaitsFor(o, n)
    ensures forall k :: WaitsFor(o, k) ==> k == n
  {
  }

  lemma FlightStep(s: System, act: Act)
    requires Safe(s) && FlightIsCurrent(s) && InStep(s, act) && !(act.AtOfferer? && Resets(act.event))
    ensures FlightIsCurrent(Step(s, act))
  {
    hide HandleSignal, WaitsFor;
    match act
    case AtOfferer(e) =>
      WaitThroughEvent(s.offerer, e, s.next);
      hide Safe, React, OutOfStep;
    case AtAnswerer(e) =>
      AnswererEventOk(s.answerer, e, s.next, s.offers, s.answers);
      hide Safe, React;
    case DeliverToOfferer(nonce) =>
      if s.toOfferer != [] {
        FlightDeliverToOfferer(s, nonce);
      }
    case DeliverToAnswerer(nonce) =>
      if s.toAnswerer != [] {
        TakingEffect(s, nonce);
        hide Step, Safe;
      }
    case _ =>
  }

  /** While the offerer stays, with any losses and whatever the answerer does, one negotiation at most is in flight: the awaited one. */
  lemma {:induction false} FlightIsCurrentAlways(acts: seq<Act>)
    requires OffererStays(acts)
    ensures FlightIsCurrent(Exec(START, acts))
  {
    if acts != [] {
      var before := acts[..|acts| - 1];
      FlightIsCurrentAlways(before);
      StaysIsPatient(acts);
      PatientIsTidy(acts);
      TidyIsInStep(acts);
      SafeAlways(before);
      assert acts[|acts| - 1] in acts;
      hide Safe, InStep, FlightIsCurrent, Step;
      FlightStep(Exec(START, before), acts[|acts| - 1]);
    }
  }

  /** Without a negotiation nothing was ever offered. */
  ghost predicate NotBegun(s: System) { s.offerer.negId.None? ==> s.offerer.runs == {} && s.offers == map[] }

  lemma NotBegunStep(s: System, act: Act)
    requires Safe(s) && NotBegun(s) && !(act.AtOfferer? && Resets(act.event))
    ensures NotBegun(Step(s, act))
  {
    match act
    case AtOfferer(e) =>
    case DeliverToOfferer(nonce) =>
      if s.toOfferer != [] {
        OffererAfter(s.offerer, s.toOfferer[0], s.next, nonce);
        hide HandleSignal;
      }
    case _ =>
  }

  lemma {:induction false} NotBegunAlways(acts: seq<Act>)
    requires OffererStays(acts)
    ensures NotBegun(Exec(START, acts))
  {
    if acts != [] {
      NotBegunAlways(acts[..|acts| - 1]);
      SafeAlways(acts[..|acts| - 1]);
      assert acts[|acts| - 1] in acts;
      NotBegunStep(Exec(START, acts[..|acts| - 1]), acts[|acts| - 1]);
    }
  }

  /** Nothing is lost and nobody resets: once nothing is in flight and no call is outstanding, both ends agree, also on having no negotiation. */
  lemma {:induction false} UndisturbedEndsAgree(acts: seq<Act>)
    requires LosslessRun(acts) && OffererStays(acts) && AnswererStays(acts)
    requires var s := Exec(START, acts); s.toOfferer == [] && s.toAnswerer == [] && s.offerer.runs == {}
    ensures var s := Exec(START, acts);
            && s.offerer.negId == s.answerer.negId
            && (s.offerer.pc.Some? ==> s.offerer.pc.value.signaling == Stable)
            && (s.offerer.negId.Some? ==> AgreeOn(s, s.offerer.negId.value))
  {
    StaysIsPatient(acts);
    PatientIsTidy(acts);
    TidyIsInStep(acts);
    NotBegunAlways(acts);
    SettledAlways(acts);
    StaysAsks(acts);
    if Exec(START, acts).offerer.negId.Some? {
      assert forall r :: !Live(Exec(START, acts).offerer, r);
      AskedEndsAgree(acts);
    }
    hide Exec, InStepRun, LosslessRun, OffererStays, AnswererStays;
  }
}
