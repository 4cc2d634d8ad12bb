/**
 One client of the call: the refs and handlers of the `useWebRTC` hook.

 An `RTCPeerConnection` is abstracted to what section 3.2 of RFC 8829 says about it: its signalling
 state, its local and remote descriptions, and the candidates added to it. A negotiation id is a
 `crypto.randomUUID()`; ids are numbered in the order they are drawn. `maybeNegotiate` is split at its
 `createOffer` await: `Begin` runs up to the await and leaves a suspended run behind, `Resume` is the rest.
 */
module WebRtcPeer {
  import opened Wrappers

  type NegId = nat
  type Candidate = string

  /** Session descriptions; an answer records the offer it was produced for. The nonce is the content. */
  datatype Sdp = OfferSdp(negId: NegId, nonce: int) | AnswerSdp(offer: Sdp, nonce: int)

  datatype Signal =
    | Call
    | Bye
    | Offer(negId: NegId, sdp: Sdp)
    | Answer(negId: NegId, sdp: Sdp)
    | Ice(negId: NegId, candidate: Candidate)

  datatype Signaling = Stable | HaveLocalOffer | HaveRemoteOffer

  datatype Tagged = Tagged(negId: NegId, candidate: Candidate)

  /** One `addIceCandidate` call, with the remote description in force when it was made. */
  datatype Applied = Applied(item: Tagged, under: Sdp)

  datatype Connection = Connection(
    id: nat,
    signaling: Signaling,
    local: Option<Sdp>,
    remote: Option<Sdp>,
    applied: seq<Applied>)

  /** A `maybeNegotiate` call waiting for `createOffer` on connection `pcId`. */
  datatype Run = Run(negId: NegId, pcId: nat)

  datatype Peer = Peer(
    isOfferer: bool,
    pc: Option<Connection>,
    negId: Option<NegId>,
    answered: Option<NegId>,
    makingOffer: bool,
    callActive: bool,
    hasMedia: bool,
    pendingIce: seq<Tagged>,
    runs: set<Run>,
    pcCount: nat)

  /** What a handler leaves behind and what it hands to the WebSocket. */
  datatype Outcome = Outcome(peer: Peer, sent: seq<Signal>)

  function EnsurePeer(p: Peer): Peer {
    if p.pc.Some? then p
    else p.(pc := Some(Connection(p.pcCount, Stable, None, None, [])), pcCount := p.pcCount + 1)
  }

  function Teardown(p: Peer): Peer {
    p.(pc := None, negId := None, answered := None, makingOffer := false, hasMedia := false, pendingIce := [])
  }

  predicate MayNegotiate(p: Peer) {
    p.pc.Some? && p.isOfferer && p.callActive && p.hasMedia && !p.makingOffer && p.pc.value.signaling == Stable
  }

  function Begin(p: Peer, drawn: NegId): Peer {
    if !MayNegotiate(p) then p
    else p.(makingOffer := true, negId := Some(drawn), runs := p.runs + {Run(drawn, p.pc.value.id)})
  }

  function Resume(p: Peer, run: Run, nonce: int): Outcome {
    var q := p.(makingOffer := false, runs := p.runs - {run});
    if p.pc.None? || p.pc.value.id != run.pcId || p.pc.value.signaling != Stable then Outcome(q, [])
    else
      var sdp := OfferSdp(run.negId, nonce);
      Outcome(q.(pc := Some(p.pc.value.(local := Some(sdp), signaling := HaveLocalOffer))), [Offer(run.negId, sdp)])
  }

  /** The queued candidates tagged `n`, in order. */
  function Only(items: seq<Tagged>, n: NegId): seq<Tagged> {
    if items == [] then [] else
    var rest := Only(items[..|items| - 1], n);
    if items[|items| - 1].negId == n then rest + [items[|items| - 1]] else rest
  }

  function AppliedUnder(items: seq<Tagged>, under: Sdp): (r: seq<Applied>)
    ensures |r| == |items| && forall i :: 0 <= i < |r| ==> r[i] == Applied(items[i], under)
  {
    seq(|items|, i requires 0 <= i < |items| => Applied(items[i], under))
  }

  function Flush(p: Peer): Peer {
    if p.pc.None? || p.pc.value.remote.None? || p.negId.None? then p
    else
      var added := AppliedUnder(Only(p.pendingIce, p.negId.value), p.pc.value.remote.value);
      p.(pc := Some(p.pc.value.(applied := p.pc.value.applied + added)), pendingIce := [])
  }

  function OnCall(p: Peer, drawn: NegId): Peer {
    Begin(EnsurePeer(p).(callActive := true), drawn)
  }

  function OnOffer(p: Peer, n: NegId, sdp: Sdp, nonce: int): Outcome {
    var q := EnsurePeer(p);
    if q.isOfferer || q.answered == Some(n) then Outcome(q, [])
    else
      var offered := q.(callActive := true, negId := Some(n),
                        pc := Some(q.pc.value.(remote := Some(sdp), signaling := HaveRemoteOffer)));
      var flushed := Flush(offered);
      var answer := AnswerSdp(sdp, nonce);
      Outcome(flushed.(pc := Some(flushed.pc.value.(local := Some(answer), signaling := Stable)), answered := Some(n)),
              [Answer(n, answer)])
  }

  predicate Consumes(p: Peer, n: NegId) {
    p.isOfferer && p.negId == Some(n) && p.pc.Some? && p.pc.value.signaling == HaveLocalOffer
  }

  function OnAnswer(p: Peer, n: NegId, sdp: Sdp): Peer {
    var q := EnsurePeer(p);
    if !Consumes(q, n) then q
    else Flush(q.(pc := Some(q.pc.value.(remote := Some(sdp), signaling := Stable))))
  }

  function OnIce(p: Peer, n: NegId, c: Candidate): Peer {
    var q := EnsurePeer(p);
    if q.negId != Some(n) || q.pc.value.remote.None? then q.(pendingIce := q.pendingIce + [Tagged(n, c)])
    else q.(pc := Some(q.pc.value.(applied := q.pc.value.applied + [Applied(Tagged(n, c), q.pc.value.remote.value)])))
  }

  function HandleSignal(p: Peer, s: Signal, drawn: NegId, nonce: int): Outcome {
    match s
    case Call => Outcome(OnCall(p, drawn), [])
    case Bye => Outcome(EnsurePeer(p), [])
    case Offer(n, sdp) => OnOffer(p, n, sdp, nonce)
    case Answer(n, sdp) => Outcome(OnAnswer(p, n, sdp), [])
    case Ice(n, c) => Outcome(OnIce(p, n, c), [])
  }

  function MediaArrives(p: Peer, drawn: NegId): Peer {
    if p.pc.None? then p else Begin(p.(hasMedia := true), drawn)
  }

  function StartCall(p: Peer, drawn: NegId): Outcome {
    Outcome(Begin(EnsurePeer(p.(callActive := true)), drawn), [Call])
  }

  function RetryConnection(p: Peer): Outcome {
    Outcome(EnsurePeer(Teardown(p).(callActive := true)), [Call])
  }

  /** A browser gathers candidates only once there is a local description. */
  function GatherCandidate(p: Peer, c: Candidate): Outcome {
    Outcome(p, if p.pc.Some? && p.pc.value.local.Some? && p.negId.Some? then [Ice(p.negId.value, c)] else [])
  }

  /** The hook's mutable refs, updated in place by its handlers. */
  class CallPeer {
    const isOfferer: bool
    var pc: Option<Connection>
    var negId: Option<NegId>
    var answered: Option<NegId>
    var makingOffer: bool
    var callActive: bool
    var hasMedia: bool
    var pendingIce: seq<Tagged>
    var runs: set<Run>
    var pcCount: nat
    var sent: seq<Signal>

    function View(): Peer
      reads this
    {
      Peer(isOfferer, pc, negId, answered, makingOffer, callActive, hasMedia, pendingIce, runs, pcCount)
    }

    constructor (isOfferer: bool)
      ensures View() == Peer(isOfferer, None, None, None, false, false, false, [], {}, 0)
      ensures sent == []
    {
      this.isOfferer := isOfferer;
      pc, negId, answered := None, None, None;
      makingOffer, callActive, hasMedia := false, false, false;
      pendingIce, runs, pcCount, sent := [], {}, 0, [];
    }

    method EnsurePeerConnection()
      modifies this
      ensures View() == EnsurePeer(old(View())) && sent == old(sent)
    {
      if pc.Some? {
        return;
      }
      pc := Some(Connection(pcCount, Stable, None, None, []));
      pcCount := pcCount + 1;
    }

    method TearDown()
      modifies this
      ensures View() == Teardown(old(View())) && sent == old(sent)
    {
      pc := None;
      hasMedia := false;
      negId := None;
      answered := None;
      makingOffer := false;
      pendingIce := [];
    }

    method BeginNegotiation(drawn: NegId)
      modifies this
      ensures View() == Begin(old(View()), drawn) && sent == old(sent)
    {
      if pc.None? { return; }
      if !isOfferer { return; }
      if !callActive { return; }
      if !hasMedia { return; }
      if makingOffer { return; }
      if pc.value.signaling != Stable { return; }
      makingOffer := true;
      negId := Some(drawn);
      runs := runs + {Run(drawn, pc.value.id)};
    }

    method ResumeNegotiation(run: Run, nonce: int)
      modifies this
      ensures View() == Resume(old(View()), run, nonce).peer
      ensures sent == old(sent) + Resume(old(View()), run, nonce).sent
    {
      runs := runs - {run};
      if pc.Some? && pc.value.id == run.pcId && pc.value.signaling == Stable {
        pc := Some(pc.value.(local := Some(OfferSdp(run.negId, nonce)), signaling := HaveLocalOffer));
        sent := sent + [Offer(run.negId, pc.value.local.value)];
      }
      makingOffer := false;
    }

    method FlushPendingIce()
      modifies this
      ensures View() == Flush(old(View())) && sent == old(sent)
    {
      if pc.None? || pc.value.remote.None? || negId.None? {
        return;
      }
      var current, under := negId.value, pc.value.remote.value;
      ghost var before := pc.value;
      var i := 0;
      while i < |pendingIce|
        invariant 0 <= i <= |pendingIce|
        invariant pc.Some? && pc.value == before.(applied := before.applied + AppliedUnder(Only(pendingIce[..i], current), under))
        invariant View() == old(View()).(pc := pc) && sent == old(sent)
      {
        var item := pendingIce[i];
        assert pendingIce[..i + 1][..i] == pendingIce[..i];
        if item.negId == current {
          pc := Some(pc.value.(applied := pc.value.applied + [Applied(item, pc.value.remote.value)]));
        }
        i := i + 1;
      }
      assert pendingIce[..i] == pendingIce;
      pendingIce := [];
    }

    method TakeOffer(n: NegId, sdp: Sdp, nonce: int)
      requires pc.Some?
      modifies this
      ensures View() == OnOffer(old(View()), n, sdp, nonce).peer
      ensures sent == old(sent) + OnOffer(old(View()), n, sdp, nonce).sent
    {
      if isOfferer { return; }
      if answered == Some(n) { return; }
      callActive := true;
      negId := Some(n);
      pc := Some(pc.value.(remote := Some(sdp), signaling := HaveRemoteOffer));
      FlushPendingIce();
      var answer := AnswerSdp(sdp, nonce);
      pc := Some(pc.value.(local := Some(answer), signaling := Stable));
      answered := Some(n);
      sent := sent + [Answer(n, answer)];
    }

    method TakeAnswer(n: NegId, sdp: Sdp)
      requires pc.Some?
      modifies this
      ensures View() == OnAnswer(old(View()), n, sdp) && sent == old(sent)
    {
      if !isOfferer { return; }
      if negId != Some(n) { return; }
      if pc.value.signaling != HaveLocalOffer { return; }
      pc := Some(pc.value.(remote := Some(sdp), signaling := Stable));
      FlushPendingIce();
    }

    method Receive(s: Signal, drawn: NegId, nonce: int)
      modifies this
      ensures View() == HandleSignal(old(View()), s, drawn, nonce).peer
      ensures sent == old(sent) + HandleSignal(old(View()), s, drawn, nonce).sent
    {
      EnsurePeerConnection();
      match s {
        case Call =>
          callActive := true;
          BeginNegotiation(drawn);
        case Bye =>
        case Offer(n, sdp) => TakeOffer(n, sdp, nonce);
        case Answer(n, sdp) => TakeAnswer(n, sdp);
        case Ice(n, c) =>
          if negId != Some(n) || pc.value.remote.None? {
            pendingIce := pendingIce + [Tagged(n, c)];
            return;
          }
          pc := Some(pc.value.(applied := pc.value.applied + [Applied(Tagged(n, c), pc.value.remote.value)]));
      }
    }

    method RequestCall(drawn: NegId)
      modifies this
      ensures View() == StartCall(old(View()), drawn).peer && sent == old(sent) + [Call]
    {
      callActive := true;
      EnsurePeerConnection();
      sent := sent + [Call];
      BeginNegotiation(drawn);
    }

    method Retry()
      modifies this
      ensures View() == RetryConnection(old(View())).peer && sent == old(sent) + [Call]
    {
      TearDown();
      callActive := true;
      EnsurePeerConnection();
      sent := sent + [Call];
    }

    method AcquireMedia(drawn: NegId)
      modifies this
      ensures View() == MediaArrives(old(View()), drawn) && sent == old(sent)
    {
      if pc.None? {
        return;
      }
      hasMedia := true;
      BeginNegotiation(drawn);
    }
  }
}
