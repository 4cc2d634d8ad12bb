/** Who does what, and when: fixed roles, when a client takes part in the call, and when the offerer starts to negotiate. */
module WebRtcRoles {
  import opened Wrappers
  import opened WebRtcPeer
  import opened WebRtcProtocol
  import opened WebRtcStranding

  /** Only the offerer offers, only the other one answers. */
  lemma RolesAreFixed(p: Peer, n: NegId, sdp: Sdp, nonce: int, drawn: NegId)
    ensures p.isOfferer ==> OnOffer(p, n, sdp, nonce) == Outcome(EnsurePeer(p), [])
    ensures !p.isOfferer ==> OnAnswer(p, n, sdp) == EnsurePeer(p) && Begin(p, drawn) == p
  {
  }

  /** An offer is answered once: a repeated one, and a repeated answer, are ignored. */
  lemma RepeatsAreIgnored(p: Peer, n: NegId, sdp: Sdp, nonce: int, again: Sdp, later: int)
    ensures var q := OnOffer(p, n, sdp, nonce).peer; OnOffer(q, n, again, later) == Outcome(q, [])
    ensures var q := OnAnswer(p, n, sdp); OnAnswer(q, n, again) == q
  {
    hide AppliedUnder, Only;
  }

  /** A teardown leaves nothing but the role, the wish for a call and the calls that are still pending; a retry opens a new connection and asks. */
  lemma ResetStartsOver(p: Peer, drawn: NegId)
    ensures React(p, Unmount, drawn) == Outcome(Peer(p.isOfferer, None, None, None, false, p.callActive, false, [], p.runs, p.pcCount), [])
    ensures React(p, Retry, drawn)
         == Outcome(Peer(p.isOfferer, Some(Connection(p.pcCount, Stable, None, None, [])), None, None, false, true, false, [],
                         p.runs, p.pcCount + 1), [Call])
  {
  }

  /** A call of its own for negotiation `n`, just begun. */
  predicate Begun(o: Peer, n: NegId) {
    o.negId == Some(n) && o.makingOffer && o.pc.Some? && o.pc.value.signaling == Stable && Run(n, o.pc.value.id) in o.runs
  }

  /** On an idle, stable connection every occasion begins a negotiation at once, if nothing else is missing. */
  lemma OccasionsBegin(o: Peer, drawn: NegId, nonce: int)
    requires o.isOfferer && o.pc.Some? && o.pc.value.signaling == Stable && !o.makingOffer
    ensures o.callActive && o.hasMedia ==> Begun(React(o, Negotiate, drawn).peer, drawn)
    ensures o.callActive ==> Begun(React(o, Media, drawn).peer, drawn)
    ensures o.hasMedia ==> Begun(React(o, Start, drawn).peer, drawn) && React(o, Start, drawn).sent == [Call]
    ensures o.hasMedia ==> Begun(HandleSignal(o, Call, drawn, nonce).peer, drawn)
  {
  }

  // ---- Taking part ---------------------------------------------------------------------------------

  predicate Wants(e: Event) { e.Start? || e.Retry? }

  /** The client has started or retried the call itself, was asked for it, or has taken an offer. */
  predicate OffererInvolved(acts: seq<Act>)
    decreases |acts|
  {
    acts != [] &&
    var s, act := Exec(START, acts[..|acts| - 1]), acts[|acts| - 1];
    || OffererInvolved(acts[..|acts| - 1])
    || (act.AtOfferer? && Wants(act.event))
    || (act.DeliverToOfferer? && s.toOfferer != [] && s.toOfferer[0].Call?)
  }

  predicate AnswererInvolved(acts: seq<Act>)
    decreases |acts|
  {
    acts != [] &&
    var s, act := Exec(START, acts[..|acts| - 1]), acts[|acts| - 1];
    || AnswererInvolved(acts[..|acts| - 1])
    || (act.AtAnswerer? && Wants(act.event))
    || (act.DeliverToAnswerer? && s.toAnswerer != [] && (s.toAnswerer[0].Call? || s.toAnswerer[0].Offer?))
  }

  lemma EventInvolves(p: Peer, e: Event, drawn: NegId)
    ensures React(p, e, drawn).peer.callActive <==> p.callActive || Wants(e)
  {
    hide Begin;
    BeginKeepsCall();
  }

  lemma BeginKeepsCall()
    ensures forall p: Peer, drawn :: Begin(p, drawn).callActive == p.callActive
  {
  }

  lemma SignalInvolves(p: Peer, m: Signal, drawn: NegId, nonce: int)
    requires m.Offer? && !p.isOfferer ==> p.answered != Some(m.negId)
    ensures HandleSignal(p, m, drawn, nonce).peer.callActive <==> p.callActive || m.Call? || (m.Offer? && !p.isOfferer)
  {
    hide Begin, AppliedUnder, Only;
    BeginKeepsCall();
  }

  /** In every run a client takes part in the call exactly if it wanted to, was asked to or has taken an offer. */
  lemma {:induction false} ActiveIff(acts: seq<Act>)
    ensures var s := Exec(START, acts);
            (s.offerer.callActive <==> OffererInvolved(acts)) && (s.answerer.callActive <==> AnswererInvolved(acts))
  {
    if acts != [] {
      var s, act := Exec(START, acts[..|acts| - 1]), acts[|acts| - 1];
      ActiveIff(acts[..|acts| - 1]);
      SafeAlways(acts[..|acts| - 1]);
      assert s.offerer.isOfferer && !s.answerer.isOfferer;
      assert forall m :: m in s.toOfferer ==> !m.Offer?;
      assert forall m :: m in s.toAnswerer && m.Offer? ==> s.answerer.answered != Some(m.negId);
      hide Safe, React, HandleSignal;
      match act
      case AtOfferer(e) => EventInvolves(s.offerer, e, s.next);
      case AtAnswerer(e) => EventInvolves(s.answerer, e, s.next);
      case DeliverToOfferer(nonce) =>
        if s.toOfferer != [] {
          SignalInvolves(s.offerer, s.toOfferer[0], s.next, nonce);
        }
      case DeliverToAnswerer(nonce) =>
        if s.toAnswerer != [] {
          SignalInvolves(s.answerer, s.toAnswerer[0], s.next, nonce);
        }
      case _ =>
    }
  }

  // ---- Being connected -----------------------------------------------------------------------------

  predicate Connects(e: Event) { e.Mount? || e.Start? || e.Retry? }

  /** Since it last unmounted, the client has mounted, started or retried, or a signal has reached it. */
  predicate OffererUp(acts: seq<Act>)
    decreases |acts|
  {
    acts != [] &&
    var before, act := acts[..|acts| - 1], acts[|acts| - 1];
    match act
    case AtOfferer(e) => Connects(e) || (!e.Unmount? && OffererUp(before))
    case DeliverToOfferer(_) => OffererUp(before) || Exec(START, before).toOfferer != []
    case _ => OffererUp(before)
  }

  predicate AnswererUp(acts: seq<Act>)
    decreases |acts|
  {
    acts != [] &&
    var before, act := acts[..|acts| - 1], acts[|acts| - 1];
    match act
    case AtAnswerer(e) => Connects(e) || (!e.Unmount? && AnswererUp(before))
    case DeliverToAnswerer(_) => AnswererUp(before) || Exec(START, before).toAnswerer != []
    case _ => AnswererUp(before)
  }

  lemma EventConnects(p: Peer, e: Event, drawn: NegId)
    ensures React(p, e, drawn).peer.pc.Some? <==> Connects(e) || (!e.Unmount? && p.pc.Some?)
  {
  }

  lemma SignalConnects(p: Peer, m: Signal, drawn: NegId, nonce: int)
    ensures HandleSignal(p, m, drawn, nonce).peer.pc.Some?
  {
    hide AppliedUnder, Only;
  }

  /** In every run a client has a connection exactly from a mount, a start, a retry or a signal on, and until it unmounts. */
  lemma {:induction false} ConnectedIff(acts: seq<Act>)
    ensures var s := Exec(START, acts);
            (s.offerer.pc.Some? <==> OffererUp(acts)) && (s.answerer.pc.Some? <==> AnswererUp(acts))
  {
    if acts != [] {
      var s, act := Exec(START, acts[..|acts| - 1]), acts[|acts| - 1];
      ConnectedIff(acts[..|acts| - 1]);
      hide React, HandleSignal;
      match act
      case AtOfferer(e) => EventConnects(s.offerer, e, s.next);
      case AtAnswerer(e) => EventConnects(s.answerer, e, s.next);
      case DeliverToOfferer(nonce) =>
        if s.toOfferer != [] {
          SignalConnects(s.offerer, s.toOfferer[0], s.next, nonce);
        }
      case DeliverToAnswerer(nonce) =>
        if s.toAnswerer != [] {
          SignalConnects(s.answerer, s.toAnswerer[0], s.next, nonce);
        }
      case _ =>
    }
  }

  // ---- Media ---------------------------------------------------------------------------------------

  /** Media was acquired for the offerer's connection since the last reset. */
  predicate OffererHasMedia(acts: seq<Act>)
    decreases |acts|
  {
    acts != [] &&
    var before, act := acts[..|acts| - 1], acts[|acts| - 1];
    if act.AtOfferer? && Resets(act.event) then false
    else OffererHasMedia(before) || (act.AtOfferer? && act.event.Media? && Exec(START, before).offerer.pc.Some?)
  }

  lemma {:induction false} MediaIff(acts: seq<Act>)
    ensures Exec(START, acts).offerer.hasMedia <==> OffererHasMedia(acts)
  {
    if acts != [] {
      var s, act := Exec(START, acts[..|acts| - 1]), acts[|acts| - 1];
      MediaIff(acts[..|acts| - 1]);
      hide React, HandleSignal;
      match act
      case AtOfferer(e) => EventMedia(s.offerer, e, s.next);
      case DeliverToOfferer(nonce) =>
        if s.toOfferer != [] {
          SignalMedia(s.offerer, s.toOfferer[0], s.next, nonce);
        }
      case _ =>
    }
  }

  lemma EventMedia(p: Peer, e: Event, drawn: NegId)
    ensures React(p, e, drawn).peer.hasMedia <==> !Resets(e) && (p.hasMedia || (e.Media? && p.pc.Some?))
  {
  }

  lemma SignalMedia(p: Peer, m: Signal, drawn: NegId, nonce: int)
    ensures HandleSignal(p, m, drawn, nonce).peer.hasMedia == p.hasMedia
  {
    hide AppliedUnder, Only;
  }

  // ---- Starting to negotiate -------------------------------------------------------------------------

  /** Without a negotiation the connection is new, and either the call or the media is missing. */
  ghost predicate Prompt(o: Peer) {
    && (o.pc.None? ==> !o.hasMedia && o.negId.None?)
    && (o.negId.None? ==>
          && !o.makingOffer
          && (o.pc.Some? ==> o.pc.value.signaling == Stable && forall r :: r in o.runs ==> !Live(o, r))
          && !(o.callActive && o.hasMedia))
    && (o.negId.Some? ==> o.callActive && o.hasMedia)
  }

  lemma PromptEvent(o: Peer, e: Event, drawn: NegId)
    requires o.isOfferer && Prompt(o) && Numbered(o)
    ensures Prompt(React(o, e, drawn).peer)
  {
  }

  lemma PromptSignal(o: Peer, m: Signal, drawn: NegId, nonce: int)
    requires o.isOfferer && !m.Offer? && Prompt(o) && Numbered(o)
    ensures Prompt(HandleSignal(o, m, drawn, nonce).peer)
  {
    hide AppliedUnder, Only;
  }

  lemma {:induction false} PromptAlways(acts: seq<Act>)
    ensures Prompt(Exec(START, acts).offerer)
  {
    if acts != [] {
      var s, act := Exec(START, acts[..|acts| - 1]), acts[|acts| - 1];
      PromptAlways(acts[..|acts| - 1]);
      SafeAlways(acts[..|acts| - 1]);
      NumberedAlways(acts[..|acts| - 1]);
      assert s.offerer.isOfferer && forall m :: m in s.toOfferer ==> !m.Offer?;
      hide Safe, React, HandleSignal, Prompt, Numbered;
      match act
      case AtOfferer(e) => PromptEvent(s.offerer, e, s.next);
      case DeliverToOfferer(nonce) =>
        if s.toOfferer != [] {
          PromptSignal(s.offerer, s.toOfferer[0], s.next, nonce);
        }
      case _ =>
    }
  }

  /**
   In every run: the offerer has a negotiation exactly if it is in the call and has media. It neither
   negotiates unasked nor without media, and it does not wait for anything else.
   */
  lemma {:induction false} NegotiatesIff(acts: seq<Act>)
    ensures Exec(START, acts).offerer.negId.Some? <==> OffererInvolved(acts) && OffererHasMedia(acts)
  {
    ActiveIff(acts);
    MediaIff(acts);
    PromptAlways(acts);
    hide Exec, OffererInvolved, AnswererInvolved, OffererHasMedia;
  }
}
