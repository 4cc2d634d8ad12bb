/**
 Two clients of the hook and the two directions of the signalling channel between them.

 Every handler is one step; `maybeNegotiate` is two, split at its `createOffer` await. Channels keep
 order and never duplicate; a run says for itself whether they lose messages. The last five fields of
 `System` only record what happened.
 */
module WebRtcProtocol {
  import opened Wrappers
  import opened WebRtcPeer

  datatype System = System(
    offerer: Peer,
    answerer: Peer,
    toAnswerer: seq<Signal>,
    toOfferer: seq<Signal>,
    next: NegId,
    offers: map<NegId, Sdp>,      // every offer ever sent
    answers: map<NegId, Sdp>,     // every answer ever produced
    delivered: set<NegId>,        // answers that reached the offerer
    consumed: set<NegId>,         // answers the offerer applied
    gotOfferer: seq<Tagged>,      // candidates received since the last reset
    gotAnswerer: seq<Tagged>)

  datatype Event =
    | Mount
    | Unmount
    | Media
    | Start
    | Retry
    | Negotiate
    | Continue(run: Run, nonce: int)
    | Gather(candidate: Candidate)

  datatype Act =
    | AtOfferer(event: Event)
    | AtAnswerer(event: Event)
    | DeliverToOfferer(nonce: int)
    | DeliverToAnswerer(nonce: int)
    | LoseToOfferer(index: nat)
    | LoseToAnswerer(index: nat)

  const START := System(
    Peer(true, None, None, None, false, false, false, [], {}, 0),
    Peer(false, None, None, None, false, false, false, [], {}, 0),
    [], [], 0, map[], map[], {}, {}, [], [])

  function React(p: Peer, e: Event, drawn: NegId): Outcome {
    match e
    case Mount => Outcome(EnsurePeer(p), [])
    case Unmount => Outcome(Teardown(p), [])
    case Media => Outcome(MediaArrives(p, drawn), [])
    case Start => StartCall(p, drawn)
    case Retry => RetryConnection(p)
    case Negotiate => Outcome(Begin(p, drawn), [])
    case Continue(run, nonce) => if run in p.runs then Resume(p, run, nonce) else Outcome(p, [])
    case Gather(c) => GatherCandidate(p, c)
  }

  predicate Resets(e: Event) { e.Unmount? || e.Retry? }

  function GotAfter(got: seq<Tagged>, e: Event): seq<Tagged> { if Resets(e) then [] else got }

  function NoteOffer(offers: map<NegId, Sdp>, sent: seq<Signal>): map<NegId, Sdp> {
    if |sent| == 1 && sent[0].Offer? then offers[sent[0].negId := sent[0].sdp] else offers
  }

  function NoteAnswer(answers: map<NegId, Sdp>, sent: seq<Signal>): map<NegId, Sdp> {
    if |sent| == 1 && sent[0].Answer? then answers[sent[0].negId := sent[0].sdp] else answers
  }

  function NoteIce(got: seq<Tagged>, m: Signal): seq<Tagged> {
    if m.Ice? then got + [Tagged(m.negId, m.candidate)] else got
  }

  function Without(ms: seq<Signal>, i: nat): seq<Signal> {
    if i < |ms| then ms[..i] + ms[i + 1..] else ms
  }

  function Step(s: System, act: Act): System {
    match act
    case AtOfferer(e) =>
      var r := React(s.offerer, e, s.next);
      s.(offerer := r.peer, toAnswerer := s.toAnswerer + r.sent, offers := NoteOffer(s.offers, r.sent),
         gotOfferer := GotAfter(s.gotOfferer, e), next := s.next + 1)
    case AtAnswerer(e) =>
      var r := React(s.answerer, e, s.next);
      s.(answerer := r.peer, toOfferer := s.toOfferer + r.sent,
         gotAnswerer := GotAfter(s.gotAnswerer, e), next := s.next + 1)
    case DeliverToOfferer(nonce) =>
      if s.toOfferer == [] then s else
      var m := s.toOfferer[0];
      var r := HandleSignal(s.offerer, m, s.next, nonce);
      s.(offerer := r.peer, toOfferer := s.toOfferer[1..], toAnswerer := s.toAnswerer + r.sent,
         delivered := if m.Answer? then s.delivered + {m.negId} else s.delivered,
         consumed := if m.Answer? && Consumes(s.offerer, m.negId) then s.consumed + {m.negId} else s.consumed,
         gotOfferer := NoteIce(s.gotOfferer, m), next := s.next + 1)
    case DeliverToAnswerer(nonce) =>
      if s.toAnswerer == [] then s else
      var m := s.toAnswerer[0];
      var r := HandleSignal(s.answerer, m, s.next, nonce);
      s.(answerer := r.peer, toAnswerer := s.toAnswerer[1..], toOfferer := s.toOfferer + r.sent,
         answers := NoteAnswer(s.answers, r.sent),
         gotAnswerer := NoteIce(s.gotAnswerer, m), next := s.next + 1)
    case LoseToOfferer(i) => s.(toOfferer := Without(s.toOfferer, i))
    case LoseToAnswerer(i) => s.(toAnswerer := Without(s.toAnswerer, i))
  }

  function Exec(s: System, acts: seq<Act>): System
    decreases |acts|
  {
    if acts == [] then s else Step(Exec(s, acts[..|acts| - 1]), acts[|acts| - 1])
  }

  // ---- Agreement -------------------------------------------------------------------------------

  predicate Describes(m: Signal) { m.Offer? || m.Answer? }

  /** No two descriptions of one direction belong to the same negotiation. */
  ghost predicate Distinct(ms: seq<Signal>) {
    forall i, j :: 0 <= i < j < |ms| && Describes(ms[i]) && Describes(ms[j]) ==> ms[i].negId != ms[j].negId
  }

  ghost predicate ToAnswererOk(ms: seq<Signal>, offers: map<NegId, Sdp>, answers: map<NegId, Sdp>) {
    && Distinct(ms)
    && (forall i :: 0 <= i < |ms| ==> !ms[i].Answer?)
    && (forall i :: 0 <= i < |ms| && ms[i].Offer? ==>
          ms[i].negId in offers && offers[ms[i].negId] == ms[i].sdp && ms[i].negId !in answers)
  }

  ghost predicate ToOffererOk(ms: seq<Signal>, answers: map<NegId, Sdp>, consumed: set<NegId>) {
    && Distinct(ms)
    && (forall i :: 0 <= i < |ms| ==> !ms[i].Offer?)
    && (forall i :: 0 <= i < |ms| && ms[i].Answer? ==>
          ms[i].negId in answers && answers[ms[i].negId] == ms[i].sdp && ms[i].negId !in consumed)
  }

  ghost predicate HistoryOk(offers: map<NegId, Sdp>, answers: map<NegId, Sdp>, consumed: set<NegId>, next: NegId) {
    && consumed <= answers.Keys <= offers.Keys
    && (forall n :: n in offers ==> n < next && offers[n].OfferSdp? && offers[n].negId == n)
    && (forall n :: n in answers ==> answers[n].AnswerSdp? && answers[n].offer == offers[n])
  }

  ghost predicate AnswererOk(a: Peer, offers: map<NegId, Sdp>, answers: map<NegId, Sdp>) {
    && !a.isOfferer && a.runs == {}
    && (a.pc.Some? ==> a.pc.value.signaling == Stable)
    && (a.answered.Some? ==> a.answered.value in answers)
    && (a.negId.Some? ==>
          && a.negId.value in answers && a.negId.value in offers && a.pc.Some?
          && a.pc.value.remote == Some(offers[a.negId.value])
          && a.pc.value.local == Some(answers[a.negId.value]))
  }

  ghost predicate RunsOk(runs: set<Run>, offers: map<NegId, Sdp>, next: NegId) {
    && (forall r :: r in runs ==> r.negId < next && r.negId !in offers)
    && (forall r1, r2 :: r1 in runs && r2 in runs && r1.negId == r2.negId ==> r1 == r2)
  }

  ghost predicate OffererOk(o: Peer, offers: map<NegId, Sdp>, answers: map<NegId, Sdp>, consumed: set<NegId>, next: NegId) {
    && o.isOfferer
    && (o.pc.Some? ==> !o.pc.value.signaling.HaveRemoteOffer?)
    && (o.negId.Some? ==> o.negId.value < next && o.pc.Some?)
    && (o.negId.Some? && o.negId.value in offers && o.negId.value !in consumed ==>
          o.pc.value.signaling == HaveLocalOffer && o.pc.value.local == Some(offers[o.negId.value]))
    && (o.negId.Some? && o.negId.value in offers && o.negId.value in answers && o.negId.value in consumed
        && o.pc.value.signaling == Stable ==>
          && o.pc.value.local == Some(offers[o.negId.value])
          && o.pc.value.remote == Some(answers[o.negId.value]))
  }

  ghost predicate Safe(s: System) {
    && HistoryOk(s.offers, s.answers, s.consumed, s.next)
    && ToAnswererOk(s.toAnswerer, s.offers, s.answers)
    && ToOffererOk(s.toOfferer, s.answers, s.consumed)
    && AnswererOk(s.answerer, s.offers, s.answers)
    && RunsOk(s.offerer.runs, s.offers, s.next)
    && OffererOk(s.offerer, s.offers, s.answers, s.consumed, s.next)
  }

  // What each side appends to its channel.

  lemma OfferAppends(ms: seq<Signal>, offers: map<NegId, Sdp>, answers: map<NegId, Sdp>, n: NegId, sdp: Sdp)
    requires ToAnswererOk(ms, offers, answers) && n !in offers && n !in answers
    ensures ToAnswererOk(ms + [Offer(n, sdp)], offers[n := sdp], answers)
  {
  }

  lemma AnswerAppends(ms: seq<Signal>, answers: map<NegId, Sdp>, consumed: set<NegId>, n: NegId, answer: Sdp)
    requires ToOffererOk(ms, answers, consumed) && n !in answers && n !in consumed
    ensures ToOffererOk(ms + [Answer(n, answer)], answers[n := answer], consumed)
  {
  }

  lemma OtherToAnswerer(ms: seq<Signal>, sent: seq<Signal>, offers: map<NegId, Sdp>, answers: map<NegId, Sdp>)
    requires ToAnswererOk(ms, offers, answers) && |sent| <= 1 && (sent != [] ==> !Describes(sent[0]))
    ensures ToAnswererOk(ms + sent, offers, answers)
  {
  }

  lemma OtherToOfferer(ms: seq<Signal>, sent: seq<Signal>, answers: map<NegId, Sdp>, consumed: set<NegId>)
    requires ToOffererOk(ms, answers, consumed) && |sent| <= 1 && (sent != [] ==> !Describes(sent[0]))
    ensures ToOffererOk(ms + sent, answers, consumed)
  {
  }

  /** A suspended call sends its offer or nothing, and is suspended no more. */
  lemma ResumedOk(s: System, run: Run, nonce: int)
    requires Safe(s) && run in s.offerer.runs
    ensures var r := Resume(s.offerer, run, nonce);
            var offers := NoteOffer(s.offers, r.sent);
            && (r.sent == [] || r.sent == [Offer(run.negId, OfferSdp(run.negId, nonce))])
            && run.negId !in s.offers && run.negId < s.next
            && RunsOk(r.peer.runs, offers, s.next + 1) && OffererOk(r.peer, offers, s.answers, s.consumed, s.next + 1)
  {
    hide ToAnswererOk, ToOffererOk, AnswererOk;
  }

  lemma SafeOffer(s: System, e: Event)
    requires Safe(s) && e.Continue? && e.run in s.offerer.runs
    ensures Safe(Step(s, AtOfferer(e)))
  {
    ResumedOk(s, e.run, e.nonce);
    hide Resume, RunsOk, OffererOk, ToAnswererOk, ToOffererOk;
    var r := Resume(s.offerer, e.run, e.nonce);
    if r.sent != [] {
      OfferAppends(s.toAnswerer, s.offers, s.answers, e.run.negId, OfferSdp(e.run.negId, e.nonce));
    } else {
      OtherToAnswerer(s.toAnswerer, [], s.offers, s.answers);
    }
  }

  /** Other events send no offer. */
  lemma EventOk(s: System, e: Event)
    requires Safe(s) && !(e.Continue? && e.run in s.offerer.runs)
    ensures var r := React(s.offerer, e, s.next);
            && |r.sent| <= 1 && (r.sent != [] ==> !Describes(r.sent[0]))
            && RunsOk(r.peer.runs, s.offers, s.next + 1) && OffererOk(r.peer, s.offers, s.answers, s.consumed, s.next + 1)
  {
    hide ToAnswererOk, ToOffererOk, AnswererOk;
  }

  lemma SafeAtOfferer(s: System, e: Event)
    requires Safe(s)
    ensures Safe(Step(s, AtOfferer(e)))
  {
    if e.Continue? && e.run in s.offerer.runs {
      SafeOffer(s, e);
    } else {
      EventOk(s, e);
      hide React, RunsOk, OffererOk, ToAnswererOk, ToOffererOk, AnswererOk;
      OtherToAnswerer(s.toAnswerer, React(s.offerer, e, s.next).sent, s.offers, s.answers);
    }
  }

  /** The answerer sends no descriptions by itself, and a teardown leaves no negotiation. */
  lemma AnswererEventOk(a: Peer, e: Event, drawn: NegId, offers: map<NegId, Sdp>, answers: map<NegId, Sdp>)
    requires AnswererOk(a, offers, answers)
    ensures var r := React(a, e, drawn);
            |r.sent| <= 1 && (r.sent != [] ==> !Describes(r.sent[0])) && AnswererOk(r.peer, offers, answers)
  {
  }

  lemma SafeAtAnswerer(s: System, e: Event)
    requires Safe(s)
    ensures Safe(Step(s, AtAnswerer(e)))
  {
    hide React, RunsOk, ToAnswererOk, ToOffererOk, AnswererOk;
    AnswererEventOk(s.answerer, e, s.next, s.offers, s.answers);
    OtherToOfferer(s.toOfferer, React(s.answerer, e, s.next).sent, s.answers, s.consumed);
    RunsLater(s.offerer.runs, s.offers, s.next);
  }

  lemma RunsLater(runs: set<Run>, offers: map<NegId, Sdp>, next: NegId)
    requires RunsOk(runs, offers, next)
    ensures RunsOk(runs, offers, next + 1)
  {
  }

  lemma TailOk(ms: seq<Signal>, answers: map<NegId, Sdp>, consumed: set<NegId>)
    requires ToOffererOk(ms, answers, consumed) && ms != []
    ensures ToOffererOk(ms[1..], answers, consumed)
    ensures ms[0].Answer? ==> ToOffererOk(ms[1..], answers, consumed + {ms[0].negId})
  {
    forall i | 0 <= i < |ms[1..]| && Describes(ms[1..][i]) && Describes(ms[0])
      ensures ms[1..][i].negId != ms[0].negId
    {
      assert ms[1..][i] == ms[i + 1];
    }
  }

  /** What a signal other than an offer can do to the offerer's negotiation. */
  lemma OffererAfter(o: Peer, m: Signal, drawn: NegId, nonce: int)
    requires o.isOfferer && !m.Offer?
    ensures var q := HandleSignal(o, m, drawn, nonce);
            && q.sent == [] && q.peer.isOfferer && q.peer.pc.Some?
            && (q.peer.negId == o.negId || q.peer.negId == Some(drawn))
            && (q.peer.runs == o.runs || q.peer.runs == o.runs + {Run(drawn, q.peer.pc.value.id)})
            && (o.pc.None? ==> q.peer.pc.value.signaling == Stable)
            && (o.pc.Some? ==> q.peer.pc.value.local == o.pc.value.local && q.peer.pc.value.id == o.pc.value.id)
            && (o.pc.Some? && !(m.Answer? && Consumes(o, m.negId)) ==>
                  q.peer.pc.value.signaling == o.pc.value.signaling && q.peer.pc.value.remote == o.pc.value.remote)
            && (m.Answer? && Consumes(o, m.negId) ==>
                  && q.peer.pc.value.signaling == Stable && q.peer.pc.value.remote == Some(m.sdp)
                  && q.peer.negId == o.negId && q.peer.runs == o.runs)
            && (q.peer.negId == o.negId ==> q.peer.runs == o.runs || o.negId == Some(drawn))
  {
  }

  lemma OffererKeepsOk(s: System, nonce: int)
    requires Safe(s) && s.toOfferer != []
    ensures var t := Step(s, DeliverToOfferer(nonce));
            OffererOk(t.offerer, t.offers, t.answers, t.consumed, t.next) && RunsOk(t.offerer.runs, t.offers, t.next)
  {
    OffererAfter(s.offerer, s.toOfferer[0], s.next, nonce);
  }

  lemma SafeDeliverToOfferer(s: System, nonce: int)
    requires Safe(s)
    ensures Safe(Step(s, DeliverToOfferer(nonce)))
  {
    if s.toOfferer != [] {
      OffererAfter(s.offerer, s.toOfferer[0], s.next, nonce);
      TailOk(s.toOfferer, s.answers, s.consumed);
      OffererKeepsOk(s, nonce);
    }
  }

  lemma AnsweredOk(s: System, nonce: int)
    requires Safe(s) && s.toAnswerer != [] && s.toAnswerer[0].Offer?
    ensures var m := s.toAnswerer[0];
            var answer := AnswerSdp(m.sdp, nonce);
            var r := OnOffer(s.answerer, m.negId, m.sdp, nonce);
            && r.sent == [Answer(m.negId, answer)]
            && AnswererOk(r.peer, s.offers, s.answers[m.negId := answer])
  {
  }

  lemma OfferTaken(ms: seq<Signal>, offers: map<NegId, Sdp>, answers: map<NegId, Sdp>, answer: Sdp)
    requires ToAnswererOk(ms, offers, answers) && ms != [] && ms[0].Offer?
    ensures ToAnswererOk(ms[1..], offers, answers[ms[0].negId := answer])
    ensures ms[0].negId in offers && offers[ms[0].negId] == ms[0].sdp && ms[0].negId !in answers
  {
    assert forall i :: 0 <= i < |ms[1..]| ==> ms[1..][i] == ms[i + 1];
  }

  lemma SafeAnswer(s: System, nonce: int)
    requires Safe(s) && s.toAnswerer != [] && s.toAnswerer[0].Offer?
    ensures Safe(Step(s, DeliverToAnswerer(nonce)))
  {
    hide OnCall, OnOffer, OnAnswer, OnIce, AnswererOk, RunsOk, ToAnswererOk, ToOffererOk;
    var m := s.toAnswerer[0];
    var answer := AnswerSdp(m.sdp, nonce);
    AnsweredOk(s, nonce);
    OfferTaken(s.toAnswerer, s.offers, s.answers, answer);
    AnswerAppends(s.toOfferer, s.answers, s.consumed, m.negId, answer);
    RunsLater(s.offerer.runs, s.offers, s.next);
  }

  /** Signals other than descriptions leave the answerer's negotiation alone. */
  lemma AnswererAfter(a: Peer, m: Signal, drawn: NegId, nonce: int, offers: map<NegId, Sdp>, answers: map<NegId, Sdp>)
    requires AnswererOk(a, offers, answers) && !Describes(m)
    ensures var q := HandleSignal(a, m, drawn, nonce); q.sent == [] && AnswererOk(q.peer, offers, answers)
  {
    hide OnOffer, OnAnswer;
  }

  lemma RestOk(ms: seq<Signal>, offers: map<NegId, Sdp>, answers: map<NegId, Sdp>)
    requires ToAnswererOk(ms, offers, answers) && ms != []
    ensures ToAnswererOk(ms[1..], offers, answers) && !ms[0].Answer?
  {
    assert forall i :: 0 <= i < |ms[1..]| ==> ms[1..][i] == ms[i + 1];
  }

  lemma SafeDeliverToAnswerer(s: System, nonce: int)
    requires Safe(s)
    ensures Safe(Step(s, DeliverToAnswerer(nonce)))
  {
    if s.toAnswerer != [] {
      var m := s.toAnswerer[0];
      RestOk(s.toAnswerer, s.offers, s.answers);
      if m.Offer? {
        SafeAnswer(s, nonce);
      } else {
        AnswererAfter(s.answerer, m, s.next, nonce, s.offers, s.answers);
        hide HandleSignal, ToAnswererOk, AnswererOk;
        assert s.toOfferer + [] == s.toOfferer;
      }
    }
  }

  function AnswerTo(m: Signal, nonce: int): seq<Signal> {
    if m.Offer? then [Answer(m.negId, AnswerSdp(m.sdp, nonce))] else []
  }

  /** All that taking a message changes beside the answerer: an offer, and nothing else, is answered. */
  lemma TakingEffect(s: System, nonce: int)
    requires Safe(s) && s.toAnswerer != []
    ensures var t, m := Step(s, DeliverToAnswerer(nonce)), s.toAnswerer[0];
            && (m.Offer? ==> m.negId in s.offers && s.offers[m.negId] == m.sdp && m.negId !in s.answers)
            && t == s.(answerer := t.answerer, toAnswerer := s.toAnswerer[1..], next := s.next + 1,
                       toOfferer := s.toOfferer + AnswerTo(m, nonce), answers := NoteAnswer(s.answers, AnswerTo(m, nonce)),
                       gotAnswerer := NoteIce(s.gotAnswerer, m))
  {
    if s.toAnswerer[0].Offer? {
      AnsweredOk(s, nonce);
      OfferTaken(s.toAnswerer, s.offers, s.answers, AnswerSdp(s.toAnswerer[0].sdp, nonce));
    } else {
      RestOk(s.toAnswerer, s.offers, s.answers);
      AnswererAfter(s.answerer, s.toAnswerer[0], s.next, nonce, s.offers, s.answers);
    }
    hide Safe, OnCall, OnOffer, OnAnswer, OnIce, AnswererOk, ToAnswererOk;
    assert s.toOfferer + [] == s.toOfferer;
  }

  lemma SafeStep(s: System, act: Act)
    requires Safe(s)
    ensures Safe(Step(s, act))
  {
    match act
    case AtOfferer(e) => SafeAtOfferer(s, e);
    case AtAnswerer(e) => SafeAtAnswerer(s, e);
    case DeliverToOfferer(nonce) => SafeDeliverToOfferer(s, nonce);
    case DeliverToAnswerer(nonce) => SafeDeliverToAnswerer(s, nonce);
    case LoseToOfferer(_) =>
    case LoseToAnswerer(_) =>
  }

  lemma {:induction false} SafeAlways(acts: seq<Act>)
    ensures Safe(Exec(START, acts))
  {
    if acts != [] {
      SafeAlways(acts[..|acts| - 1]);
      SafeStep(Exec(START, acts[..|acts| - 1]), acts[|acts| - 1]);
    }
  }

  /** Whatever is lost or torn down, an answer is applied only to the offer it was produced for. */
  lemma {:induction false} AnswerFitsLocalOffer(acts: seq<Act>, nonce: int)
    requires var s := Exec(START, acts); s.toOfferer != [] && s.toOfferer[0].Answer?
                                          && Step(s, DeliverToOfferer(nonce)).offerer != EnsurePeer(s.offerer)
    ensures var s := Exec(START, acts);
            var sdp := s.toOfferer[0].sdp;
            && sdp.AnswerSdp? && s.offerer.pc.Some? && s.offerer.pc.value.local == Some(sdp.offer)
            && Step(s, DeliverToOfferer(nonce)).offerer.pc.value.remote == Some(sdp)
  {
    SafeAlways(acts);
    var s := Exec(START, acts);
    assert s.toOfferer[0] in s.toOfferer;
  }

  /** Ends that are stable on the same negotiation hold each other's descriptions. */
  lemma {:induction false} StableEndsAgree(acts: seq<Act>)
    requires var s := Exec(START, acts);
             && s.offerer.negId.Some? && s.offerer.negId == s.answerer.negId
             && s.offerer.pc.Some? && s.offerer.pc.value.signaling == Stable
    ensures var s := Exec(START, acts);
            && s.answerer.pc.Some? && s.answerer.pc.value.signaling == Stable
            && s.offerer.pc.value.local.Some? && s.offerer.pc.value.remote.Some?
            && s.offerer.pc.value.local == s.answerer.pc.value.remote
            && s.offerer.pc.value.remote == s.answerer.pc.value.local
  {
    SafeAlways(acts);
  }
}
