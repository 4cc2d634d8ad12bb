/** What becomes of the candidates a client receives. Either side may rebuild its connection whenever it likes. */
module WebRtcIce {
  import opened Wrappers
  import opened WebRtcPeer
  import opened WebRtcProtocol
  import opened WebRtcStranding
  import opened WebRtcOrder

  function Log(p: Peer): seq<Applied> { if p.pc.Some? then p.pc.value.applied else [] }

  /** The candidates tagged `n` among those added to the connection, in order. */
  function Took(log: seq<Applied>, n: NegId): seq<Tagged> {
    if log == [] then [] else
    var rest := Took(log[..|log| - 1], n);
    if log[|log| - 1].item.negId == n then rest + [log[|log| - 1].item] else rest
  }

  // ---- Sequences -------------------------------------------------------------------------------

  lemma OnlySnoc(xs: seq<Tagged>, x: Tagged, n: NegId)
    ensures Only(xs + [x], n) == Only(xs, n) + (if x.negId == n then [x] else [])
  {
    assert (xs + [x])[..|xs|] == xs;
  }

  lemma TookSnoc(xs: seq<Applied>, x: Applied, n: NegId)
    ensures Took(xs + [x], n) == Took(xs, n) + (if x.item.negId == n then [x.item] else [])
  {
    assert (xs + [x])[..|xs|] == xs;
  }

  lemma {:induction false} TookAppend(xs: seq<Applied>, items: seq<Tagged>, under: Sdp, n: NegId)
    ensures Took(xs + AppliedUnder(items, under), n) == Took(xs, n) + Only(items, n)
  {
    if items == [] {
      assert xs + AppliedUnder(items, under) == xs;
    } else {
      var most, last := items[..|items| - 1], items[|items| - 1];
      TookAppend(xs, most, under, n);
      assert xs + AppliedUnder(items, under) == (xs + AppliedUnder(most, under)) + [Applied(last, under)];
      TookSnoc(xs + AppliedUnder(most, under), Applied(last, under), n);
    }
  }

  lemma {:induction false} OnlyOnly(xs: seq<Tagged>, m: NegId, n: NegId)
    ensures Only(Only(xs, m), n) == if m == n then Only(xs, n) else []
    ensures forall t :: t in Only(xs, m) ==> t in xs && t.negId == m
  {
    if xs != [] {
      OnlyOnly(xs[..|xs| - 1], m, n);
      OnlySnoc(Only(xs[..|xs| - 1], m), xs[|xs| - 1], n);
    }
  }

  lemma {:induction false} OnlyNone(xs: seq<Tagged>, n: NegId)
    requires forall t :: t in xs ==> t.negId != n
    ensures Only(xs, n) == []
  {
    if xs != [] {
      OnlyNone(xs[..|xs| - 1], n);
    }
  }

  // ---- The answerer's candidates ---------------------------------------------------------------

  predicate Seen(got: seq<Tagged>, n: NegId) { exists i | 0 <= i < |got| :: got[i].negId == n }

  /** The answerer takes another negotiation's offer although it has a candidate of `n` already. */
  predicate Overtakes(s: System, act: Act, n: NegId) {
    && act.DeliverToAnswerer? && s.toAnswerer != [] && s.toAnswerer[0].Offer? && s.toAnswerer[0].negId != n
    && Seen(s.gotAnswerer, n)
  }

  /** ... and has done so since its last reset. */
  predicate Overtaken(acts: seq<Act>, n: NegId)
    decreases |acts|
  {
    acts != [] &&
    var before, act := acts[..|acts| - 1], acts[|acts| - 1];
    !(act.AtAnswerer? && Resets(act.event)) && (Overtaken(before, n) || Overtakes(Exec(START, before), act, n))
  }

  /** All that was received is still there, or part of it is gone for good. */
  predicate Balanced(kept: seq<Tagged>, received: seq<Tagged>, over: bool) {
    if over then |kept| < |received| else kept == received
  }

  /** Until its offer comes the candidates of `n` wait; then they have been added under it. */
  ghost predicate Settles(a: Peer, got: seq<Tagged>, offers: map<NegId, Sdp>, answers: map<NegId, Sdp>, n: NegId, over: bool) {
    && (n !in answers ==> Took(Log(a), n) == [] && Balanced(Only(a.pendingIce, n), Only(got, n), over))
    && (a.negId == Some(n) && n in offers ==>
          && Balanced(Took(Log(a), n), Only(got, n), over)
          && Only(a.pendingIce, n) == []
          && (forall x :: x in Log(a) && x.item.negId == n ==> x.under == offers[n]))
  }

  lemma OnOfferEffect(p: Peer, n: NegId, sdp: Sdp, nonce: int)
    requires !p.isOfferer && p.answered != Some(n)
    ensures var a := EnsurePeer(p);
            var q := OnOffer(p, n, sdp, nonce).peer;
            && OnOffer(p, n, sdp, nonce).sent == [Answer(n, AnswerSdp(sdp, nonce))]
            && q.negId == Some(n) && q.pendingIce == [] && q.pc.Some?
            && Log(q) == Log(a) + AppliedUnder(Only(p.pendingIce, n), sdp)
            && Log(a) == Log(p)
  {
  }

  lemma {:induction false} OnlySome(xs: seq<Tagged>, n: NegId)
    ensures Only(xs, n) != [] <==> Seen(xs, n)
  {
    if xs != [] {
      OnlySome(xs[..|xs| - 1], n);
      if i :| 0 <= i < |xs| && xs[i].negId == n {
        assert i < |xs| - 1 ==> xs[..|xs| - 1][i].negId == n;
      }
      if Only(xs[..|xs| - 1], n) != [] {
        var i :| 0 <= i < |xs[..|xs| - 1]| && xs[..|xs| - 1][i].negId == n;
        assert xs[i].negId == n;
      }
    }
  }

  /** Taking offer `m`, with its queued candidates: its own ones are added, ... */
  lemma SettlesAfterOwnOffer(a: Peer, q: Peer, got: seq<Tagged>, offers: map<NegId, Sdp>, answers: map<NegId, Sdp>,
                             n: NegId, answer: Sdp, over: bool)
    requires Settles(a, got, offers, answers, n, over) && n in offers && n !in answers
    requires q.pendingIce == [] && Log(q) == Log(a) + AppliedUnder(Only(a.pendingIce, n), offers[n])
    ensures Settles(q, got, offers, answers[n := answer], n, over)
  {
    hide Log, Took, AppliedUnder, Balanced;
    TookAppend(Log(a), Only(a.pendingIce, n), offers[n], n);
    OnlyOnly(a.pendingIce, n, n);
    LoggedUnder(Log(a), Only(a.pendingIce, n), offers[n], n);
    assert [] + Only(a.pendingIce, n) == Only(a.pendingIce, n);
  }

  /** ... and those of another negotiation are dropped. */
  lemma SettlesAfterOtherOffer(a: Peer, q: Peer, got: seq<Tagged>, offers: map<NegId, Sdp>, answers: map<NegId, Sdp>,
                               m: NegId, answer: Sdp, n: NegId, over: bool)
    requires Settles(a, got, offers, answers, n, over) && m in offers && m != n
    requires q.negId == Some(m) && q.pendingIce == []
    requires Log(q) == Log(a) + AppliedUnder(Only(a.pendingIce, m), offers[m])
    ensures Settles(q, got, offers, answers[m := answer], n, over || Seen(got, n))
  {
    hide Log, Took, AppliedUnder, Seen;
    TookAppend(Log(a), Only(a.pendingIce, m), offers[m], n);
    OnlyOnly(a.pendingIce, m, n);
    OnlySome(got, n);
    assert Only([], n) == [];
    hide Only;
  }

  lemma LoggedUnder(log: seq<Applied>, items: seq<Tagged>, under: Sdp, n: NegId)
    requires Took(log, n) == []
    ensures forall x :: x in log + AppliedUnder(items, under) && x.item.negId == n ==> x.under == under
  {
    forall x | x in log + AppliedUnder(items, under) && x.item.negId == n ensures x.under == under {
      if x in log {
        TookHas(log, x);
      }
    }
  }

  lemma {:induction false} TookHas(log: seq<Applied>, x: Applied)
    requires x in log
    ensures x.item in Took(log, x.item.negId)
  {
    if log[|log| - 1] != x {
      TookHas(log[..|log| - 1], x);
    }
  }

  /** A candidate goes to the log, if its negotiation is the current one, or to the queue. */
  lemma OnIceEffect(p: Peer, item: Tagged, offers: map<NegId, Sdp>, answers: map<NegId, Sdp>)
    requires AnswererOk(p, offers, answers)
    ensures var q := OnIce(p, item.negId, item.candidate);
            && q.negId == p.negId
            && (p.negId == Some(item.negId) ==>
                  Log(q) == Log(p) + [Applied(item, offers[item.negId])] && q.pendingIce == p.pendingIce)
            && (p.negId != Some(item.negId) ==> Log(q) == Log(p) && q.pendingIce == p.pendingIce + [item])
  {
  }

  lemma SettlesAfterIce(p: Peer, got: seq<Tagged>, offers: map<NegId, Sdp>, answers: map<NegId, Sdp>, item: Tagged, n: NegId, over: bool)
    requires Settles(p, got, offers, answers, n, over) && AnswererOk(p, offers, answers)
    ensures Settles(OnIce(p, item.negId, item.candidate), got + [item], offers, answers, n, over)
  {
    assert p.negId.Some? ==> p.negId.value in answers && p.negId.value in offers;
    OnIceEffect(p, item, offers, answers);
    hide OnIce, Log, Only, Took, AnswererOk;
    OnlySnoc(got, item, n);
    OnlySnoc(p.pendingIce, item, n);
    if p.negId == Some(item.negId) {
      TookSnoc(Log(p), Applied(item, offers[item.negId]), n);
    }
  }

  lemma SettlesLocally(s: System, e: Event, n: NegId, over: bool)
    requires Safe(s) && Settles(s.answerer, s.gotAnswerer, s.offers, s.answers, n, over)
    ensures var t := Step(s, AtAnswerer(e));
            Settles(t.answerer, t.gotAnswerer, t.offers, t.answers, n, if Resets(e) then false else over)
  {
    assert s.answerer.runs == {};
    hide Safe;
  }

  lemma SettlesMoreOffers(s: System, e: Event, n: NegId, over: bool)
    requires Safe(s) && Settles(s.answerer, s.gotAnswerer, s.offers, s.answers, n, over)
    ensures Settles(s.answerer, s.gotAnswerer, Step(s, AtOfferer(e)).offers, s.answers, n, over)
  {
    assert s.answerer.negId.Some? ==> s.answerer.negId.value in s.offers;
    if e.Continue? && e.run in s.offerer.runs {
      assert e.run.negId !in s.offers;
    }
    hide Safe, Took, Only, Log;
  }

  lemma SettlesOffered(s: System, nonce: int, n: NegId, over: bool)
    requires Safe(s) && Settles(s.answerer, s.gotAnswerer, s.offers, s.answers, n, over) && s.toAnswerer != []
    requires s.toAnswerer[0].Offer?
    ensures var t := Step(s, DeliverToAnswerer(nonce));
            Settles(t.answerer, t.gotAnswerer, t.offers, t.answers, n, over || Overtakes(s, DeliverToAnswerer(nonce), n))
  {
    var m := s.toAnswerer[0];
    TakingEffect(s, nonce);
    AnsweredOk(s, nonce);
    assert s.answerer.answered != Some(m.negId) && !s.answerer.isOfferer;
    assert Step(s, DeliverToAnswerer(nonce)).answerer == OnOffer(s.answerer, m.negId, m.sdp, nonce).peer;
    hide Step, Safe, Settles, OnOffer, AnswererOk;
    OnOfferEffect(s.answerer, m.negId, m.sdp, nonce);
    if m.negId == n {
      SettlesAfterOwnOffer(s.answerer, OnOffer(s.answerer, n, m.sdp, nonce).peer, s.gotAnswerer, s.offers, s.answers, n,
                           AnswerSdp(m.sdp, nonce), over);
    } else {
      SettlesAfterOtherOffer(s.answerer, OnOffer(s.answerer, m.negId, m.sdp, nonce).peer, s.gotAnswerer, s.offers, s.answers,
                             m.negId, AnswerSdp(m.sdp, nonce), n, over);
    }
  }

  lemma SettlesDelivery(s: System, nonce: int, n: NegId, over: bool)
    requires Safe(s) && Settles(s.answerer, s.gotAnswerer, s.offers, s.answers, n, over) && s.toAnswerer != []
    ensures var t := Step(s, DeliverToAnswerer(nonce));
            Settles(t.answerer, t.gotAnswerer, t.offers, t.answers, n, over || Overtakes(s, DeliverToAnswerer(nonce), n))
  {
    var m := s.toAnswerer[0];
    if m.Offer? {
      SettlesOffered(s, nonce, n, over);
      hide *;
    } else {
      RestOk(s.toAnswerer, s.offers, s.answers);
      hide OnOffer, OnAnswer, OnIce, OnCall, Log, Took, Only, ToAnswererOk;
      if m.Ice? {
        SettlesAfterIce(s.answerer, s.gotAnswerer, s.offers, s.answers, Tagged(m.negId, m.candidate), n, over);
      } else {
        AnswererUntouched(s.answerer, m, s.next, nonce);
      }
      hide Safe;
    }
  }

  lemma AnswererUntouched(a: Peer, m: Signal, drawn: NegId, nonce: int)
    requires !a.isOfferer && (m.Call? || m.Bye?)
    ensures var q := HandleSignal(a, m, drawn, nonce);
            q.sent == [] && Log(q.peer) == Log(a) && q.peer.pendingIce == a.pendingIce && q.peer.negId == a.negId
  {
  }

  lemma {:induction false} SettlesAlways(acts: seq<Act>, n: NegId)
    ensures var s := Exec(START, acts);
            Safe(s) && Settles(s.answerer, s.gotAnswerer, s.offers, s.answers, n, Overtaken(acts, n))
  {
    SafeAlways(acts);
    if acts != [] {
      var before, act := acts[..|acts| - 1], acts[|acts| - 1];
      SettlesAlways(before, n);
      var s, over := Exec(START, before), Overtaken(before, n);
      hide Settles, Safe;
      match act
      case AtAnswerer(e) => SettlesLocally(s, e, n, over);
      case AtOfferer(e) => SettlesMoreOffers(s, e, n, over);
      case DeliverToAnswerer(nonce) =>
        if s.toAnswerer != [] {
          SettlesDelivery(s, nonce, n, over);
        }
      case _ =>
    }
  }

  // ---- The offerer's candidates ----------------------------------------------------------------

  /** A candidate of the offerer's current negotiation is taken before the answer, while an older answer is in force. */
  predicate TakesEarly(s: System, act: Act, n: NegId) {
    && act.DeliverToOfferer? && s.toOfferer != [] && s.toOfferer[0].Ice? && s.toOfferer[0].negId == n
    && s.offerer.negId == Some(n) && n !in s.consumed && RemoteOf(s.offerer).Some?
  }

  predicate TookEarly(acts: seq<Act>, n: NegId)
    decreases |acts|
  {
    acts != [] && (TookEarly(acts[..|acts| - 1], n) || TakesEarly(Exec(START, acts[..|acts| - 1]), acts[|acts| - 1], n))
  }

  function RemoteOf(p: Peer): Option<Sdp> { if p.pc.Some? then p.pc.value.remote else None }

  /** Neither drawing an id nor sending an offer touches candidates. */
  lemma NegotiatingEffect(o: Peer, drawn: NegId, run: Run, nonce: int)
    ensures var q := Begin(o, drawn);
            q.pendingIce == o.pendingIce && Log(q) == Log(o) && RemoteOf(q) == RemoteOf(o) && (q.negId == o.negId || q.negId == Some(drawn))
    ensures var q := Resume(o, run, nonce).peer;
            q.pendingIce == o.pendingIce && Log(q) == Log(o) && RemoteOf(q) == RemoteOf(o) && q.negId == o.negId
  {
  }

  lemma MountEffect(o: Peer)
    ensures var q := EnsurePeer(o);
            q.pendingIce == o.pendingIce && Log(q) == Log(o) && RemoteOf(q) == RemoteOf(o) && q.negId == o.negId
  {
  }

  /** Events only ever draw a new id, or reset. */
  lemma EventEffect(o: Peer, e: Event, drawn: NegId)
    ensures var q := React(o, e, drawn).peer;
            && (q.negId == o.negId || q.negId == None || q.negId == Some(drawn))
            && (Resets(e) ==> q.negId == None && q.pendingIce == [] && Log(q) == [] && RemoteOf(q) == None)
            && (!Resets(e) ==> q.pendingIce == o.pendingIce && Log(q) == Log(o) && RemoteOf(q) == RemoteOf(o))
  {
    hide Begin, Resume, EnsurePeer;
    match e
    case Start =>
      MountEffect(o.(callActive := true));
      NegotiatingEffect(EnsurePeer(o.(callActive := true)), drawn, Run(0, 0), 0);
    case Media => NegotiatingEffect(o.(hasMedia := true), drawn, Run(0, 0), 0);
    case Continue(run, nonce) => NegotiatingEffect(o, drawn, run, nonce);
    case Negotiate => NegotiatingEffect(o, drawn, Run(0, 0), 0);
    case Retry => MountEffect(Teardown(o).(callActive := true));
    case Mount => MountEffect(o);
    case _ =>
  }

  lemma {:induction false} TookNone(log: seq<Applied>, n: NegId)
    requires forall x :: x in log ==> x.item.negId != n
    ensures Took(log, n) == []
  {
    if log != [] {
      TookNone(log[..|log| - 1], n);
    }
  }

  /** What the offerer received belongs to answered negotiations, and the answer in force is one it applied. */
  ghost predicate Sourced(o: Peer, got: seq<Tagged>, answers: map<NegId, Sdp>, consumed: set<NegId>) {
    && (forall t :: t in got ==> t.negId in answers)
    && (forall t :: t in o.pendingIce ==> t.negId in answers)
    && (forall x :: x in Log(o) ==> x.item.negId in answers)
    && (RemoteOf(o).Some? ==> exists k :: k in consumed && k in answers && RemoteOf(o).value == answers[k])
  }

  /** Some candidate of `n` was added under another answer than that of `n`. */
  ghost predicate Misplaced(log: seq<Applied>, n: NegId, answers: map<NegId, Sdp>) {
    exists x :: x in log && x.item.negId == n && n in answers && x.under != answers[n]
  }

  /** No candidate of the current negotiation is lost: they wait for the first answer, and then are added. */
  ghost predicate KeepsIce(o: Peer, got: seq<Tagged>, answers: map<NegId, Sdp>, n: NegId, early: bool) {
    o.negId == Some(n) ==>
      && Only(got, n) == Took(Log(o), n) + Only(o.pendingIce, n)
      && (if RemoteOf(o).None? then Took(Log(o), n) == [] else Only(o.pendingIce, n) == [])
      && (early <==> Misplaced(Log(o), n, answers))
  }

  ghost predicate OffererKeeps(s: System, n: NegId, early: bool) {
    && (early ==> n < s.next)
    && Sourced(s.offerer, s.gotOfferer, s.answers, s.consumed)
    && (forall m :: m in s.toOfferer && m.Ice? ==> m.negId in s.answers)
    && KeepsIce(s.offerer, s.gotOfferer, s.answers, n, early)
  }

  lemma NothingToKeep(o: Peer, got: seq<Tagged>, answers: map<NegId, Sdp>, consumed: set<NegId>, n: NegId)
    requires Sourced(o, got, answers, consumed) && n !in answers
    ensures KeepsIce(o, got, answers, n, false)
  {
    OnlyNone(got, n);
    OnlyNone(o.pendingIce, n);
    TookNone(Log(o), n);
  }

  lemma KeepsIceAtOfferer(s: System, e: Event, n: NegId, early: bool)
    requires Safe(s) && OffererKeeps(s, n, early)
    ensures OffererKeeps(Step(s, AtOfferer(e)), n, early)
  {
    assert s.next !in s.answers;
    hide React, Safe, Log, RemoteOf, Misplaced;
    EventEffect(s.offerer, e, s.next);
    var t := Step(s, AtOfferer(e));
    assert Sourced(t.offerer, t.gotOfferer, s.answers, s.consumed);
    NothingToKeep(t.offerer, t.gotOfferer, s.answers, s.consumed, s.next);
    hide Only, Took;
  }

  lemma KeepsIceAtAnswerer(s: System, e: Event, n: NegId, early: bool)
    requires Safe(s) && OffererKeeps(s, n, early)
    ensures OffererKeeps(Step(s, AtAnswerer(e)), n, early)
  {
    AnswererGathers(s.answerer, e, s.next, s.offers, s.answers);
    hide Safe, React, Sourced, KeepsIce;
  }

  lemma AnswererGathers(a: Peer, e: Event, drawn: NegId, offers: map<NegId, Sdp>, answers: map<NegId, Sdp>)
    requires AnswererOk(a, offers, answers)
    ensures forall m :: m in React(a, e, drawn).sent && m.Ice? ==> m.negId in answers
  {
  }

  lemma MoreAnswers(o: Peer, got: seq<Tagged>, answers: map<NegId, Sdp>, consumed: set<NegId>, k: NegId, answer: Sdp, n: NegId,
                    early: bool)
    requires Sourced(o, got, answers, consumed) && KeepsIce(o, got, answers, n, early) && k !in answers
    ensures Sourced(o, got, answers[k := answer], consumed) && KeepsIce(o, got, answers[k := answer], n, early)
  {
    hide Only, Took, Log, RemoteOf;
  }

  lemma KeepsIceAnswering(s: System, nonce: int, n: NegId, early: bool)
    requires Safe(s) && OffererKeeps(s, n, early)
    ensures OffererKeeps(Step(s, DeliverToAnswerer(nonce)), n, early)
  {
    if s.toAnswerer != [] {
      TakingEffect(s, nonce);
      var m := s.toAnswerer[0];
      if m.Offer? {
        MoreAnswers(s.offerer, s.gotOfferer, s.answers, s.consumed, m.negId, AnswerSdp(m.sdp, nonce), n, early);
      }
      hide Step, Safe, NoteIce, Sourced, KeepsIce;
    }
  }

  lemma IceTaken(s: System, nonce: int)
    requires s.toOfferer != [] && s.toOfferer[0].Ice?
    ensures var m := s.toOfferer[0];
            Step(s, DeliverToOfferer(nonce))
            == s.(offerer := OnIce(s.offerer, m.negId, m.candidate), toOfferer := s.toOfferer[1..],
                  gotOfferer := s.gotOfferer + [Tagged(m.negId, m.candidate)], next := s.next + 1)
  {
    hide OnIce;
    assert s.toAnswerer + [] == s.toAnswerer;
  }

  lemma OffererIceEffect(o: Peer, item: Tagged)
    ensures var q := OnIce(o, item.negId, item.candidate);
            && q.negId == o.negId && RemoteOf(q) == RemoteOf(o)
            && (if o.negId == Some(item.negId) && RemoteOf(o).Some?
                then q.pendingIce == o.pendingIce && Log(q) == Log(o) + [Applied(item, RemoteOf(o).value)]
                else Log(q) == Log(o) && q.pendingIce == o.pendingIce + [item])
  {
  }

  /** The answer in force is the current negotiation's exactly once that was applied. */
  lemma RemoteInForce(s: System)
    requires Safe(s) && Settled(s) && Sourced(s.offerer, s.gotOfferer, s.answers, s.consumed)
    requires RemoteOf(s.offerer).Some? && s.offerer.negId.Some? && s.offerer.negId.value in s.answers
    ensures RemoteOf(s.offerer).value == s.answers[s.offerer.negId.value] <==> s.offerer.negId.value in s.consumed
  {
    hide ToAnswererOk, ToOffererOk, AnswererOk, RunsOk, Log;
    var n := s.offerer.negId.value;
    var k :| k in s.consumed && k in s.answers && RemoteOf(s.offerer).value == s.answers[k];
    assert s.answers[k].offer.negId == k && s.answers[n].offer.negId == n;
  }

  lemma KeepsIceTaken(s: System, nonce: int, n: NegId, early: bool)
    requires Safe(s) && Settled(s) && OffererKeeps(s, n, early) && s.toOfferer != [] && s.toOfferer[0].Ice?
    ensures OffererKeeps(Step(s, DeliverToOfferer(nonce)), n, early || TakesEarly(s, DeliverToOfferer(nonce), n))
  {
    hide Step, OnIce, Log, RemoteOf, Only, Took, Safe, Settled;
    var m := s.toOfferer[0];
    var item := Tagged(m.negId, m.candidate);
    var o := s.offerer;
    IceTaken(s, nonce);
    OffererIceEffect(o, item);
    OnlySnoc(s.gotOfferer, item, n);
    OnlySnoc(o.pendingIce, item, n);
    CurrentIsOld(s);
    if RemoteOf(o).Some? {
      TookSnoc(Log(o), Applied(item, RemoteOf(o).value), n);
      if o.negId == Some(item.negId) {
        RemoteInForce(s);
        MisplacedSnoc(Log(o), Applied(item, RemoteOf(o).value), n, s.answers);
      }
    }
    hide Misplaced;
  }

  lemma CurrentIsOld(s: System)
    requires Safe(s)
    ensures s.offerer.negId.Some? ==> s.offerer.negId.value < s.next
  {
  }

  lemma MisplacedSnoc(log: seq<Applied>, x: Applied, n: NegId, answers: map<NegId, Sdp>)
    ensures Misplaced(log + [x], n, answers)
            <==> Misplaced(log, n, answers) || (x.item.negId == n && n in answers && x.under != answers[n])
  {
    if Misplaced(log, n, answers) {
      var y :| y in log && y.item.negId == n && n in answers && y.under != answers[n];
      assert y in log + [x];
    }
    assert x in log + [x];
  }

  lemma OnAnswerEffect(o: Peer, n: NegId, sdp: Sdp)
    ensures var q := OnAnswer(o, n, sdp);
            && q.negId == o.negId
            && (if Consumes(o, n)
                then RemoteOf(q) == Some(sdp) && q.pendingIce == [] && Log(q) == Log(o) + AppliedUnder(Only(o.pendingIce, n), sdp)
                else RemoteOf(q) == RemoteOf(o) && q.pendingIce == o.pendingIce && Log(q) == Log(o))
  {
  }

  lemma AnswerTaken(s: System, nonce: int)
    requires s.toOfferer != [] && s.toOfferer[0].Answer?
    ensures var m := s.toOfferer[0];
            Step(s, DeliverToOfferer(nonce))
            == s.(offerer := OnAnswer(s.offerer, m.negId, m.sdp), toOfferer := s.toOfferer[1..],
                  delivered := s.delivered + {m.negId}, next := s.next + 1,
                  consumed := if Consumes(s.offerer, m.negId) then s.consumed + {m.negId} else s.consumed)
  {
    hide OnAnswer;
    assert s.toAnswerer + [] == s.toAnswerer;
  }

  lemma MisplacedUnder(log: seq<Applied>, items: seq<Tagged>, n: NegId, answers: map<NegId, Sdp>)
    requires n in answers
    ensures Misplaced(log + AppliedUnder(items, answers[n]), n, answers) <==> Misplaced(log, n, answers)
  {
    var added := AppliedUnder(items, answers[n]);
    assert forall x :: x in added ==> x.under == answers[n];
    assert forall x :: x in log + added <==> x in log || x in added;
  }

  /** An applied answer takes the queued candidates with it. */
  lemma KeepsIceFlush(o: Peer, q: Peer, got: seq<Tagged>, answers: map<NegId, Sdp>, n: NegId, early: bool)
    requires KeepsIce(o, got, answers, n, early) && o.negId == q.negId == Some(n) && n in answers
    requires RemoteOf(q).Some? && q.pendingIce == [] && Log(q) == Log(o) + AppliedUnder(Only(o.pendingIce, n), answers[n])
    ensures KeepsIce(q, got, answers, n, early)
  {
    hide Log, RemoteOf, Misplaced, Took, AppliedUnder;
    TookAppend(Log(o), Only(o.pendingIce, n), answers[n], n);
    OnlyOnly(o.pendingIce, n, n);
    MisplacedUnder(Log(o), Only(o.pendingIce, n), n, answers);
  }

  lemma KeepsIceAnswer(s: System, nonce: int, n: NegId, early: bool)
    requires Safe(s) && OffererKeeps(s, n, early) && s.toOfferer != [] && s.toOfferer[0].Answer?
    ensures OffererKeeps(Step(s, DeliverToOfferer(nonce)), n, early)
  {
    var m := s.toOfferer[0];
    assert m.negId in s.answers && s.answers[m.negId] == m.sdp;
    hide Step, OnAnswer, Log, RemoteOf, Only, Took, Safe, Misplaced;
    AnswerTaken(s, nonce);
    OnAnswerEffect(s.offerer, m.negId, m.sdp);
    OnlyOnly(s.offerer.pendingIce, m.negId, m.negId);
    var q := OnAnswer(s.offerer, m.negId, m.sdp);
    if Consumes(s.offerer, m.negId) {
      if n == m.negId {
        KeepsIceFlush(s.offerer, q, s.gotOfferer, s.answers, n, early);
      }
      SourcedFlush(s.offerer, q, s.gotOfferer, s.answers, s.consumed, m.negId);
    }
  }

  lemma SourcedFlush(o: Peer, q: Peer, got: seq<Tagged>, answers: map<NegId, Sdp>, consumed: set<NegId>, k: NegId)
    requires Sourced(o, got, answers, consumed) && k in answers
    requires RemoteOf(q) == Some(answers[k]) && q.pendingIce == [] && Log(q) == Log(o) + AppliedUnder(Only(o.pendingIce, k), answers[k])
    ensures Sourced(q, got, answers, consumed + {k})
  {
    hide Log, RemoteOf;
    OnlyOnly(o.pendingIce, k, k);
    assert k in consumed + {k};
  }

  lemma OtherTaken(s: System, nonce: int)
    requires s.toOfferer != [] && (s.toOfferer[0].Call? || s.toOfferer[0].Bye?) && s.offerer.isOfferer
    ensures var e := if s.toOfferer[0].Call? then Start else Mount;
            Step(s, DeliverToOfferer(nonce))
            == s.(offerer := React(s.offerer, e, s.next).peer, toOfferer := s.toOfferer[1..], next := s.next + 1)
  {
    hide Begin;
    assert s.toAnswerer + [] == s.toAnswerer;
  }

  lemma KeepsIceOther(s: System, nonce: int, n: NegId, early: bool)
    requires Safe(s) && OffererKeeps(s, n, early) && s.toOfferer != [] && !s.toOfferer[0].Ice? && !s.toOfferer[0].Answer?
    ensures OffererKeeps(Step(s, DeliverToOfferer(nonce)), n, early)
  {
    assert s.offerer.isOfferer && !s.toOfferer[0].Offer?;
    OtherTaken(s, nonce);
    KeepsIceAtOfferer(s, if s.toOfferer[0].Call? then Start else Mount, n, early);
    hide React, HandleSignal, Safe, Sourced, KeepsIce;
  }

  lemma KeepsIceStep(s: System, act: Act, n: NegId, early: bool)
    requires Safe(s) && Settled(s) && OffererKeeps(s, n, early)
    ensures OffererKeeps(Step(s, act), n, early || TakesEarly(s, act, n))
  {
    hide Safe, Settled, React, HandleSignal, Sourced, KeepsIce;
    match act
    case AtOfferer(e) => KeepsIceAtOfferer(s, e, n, early);
    case AtAnswerer(e) => KeepsIceAtAnswerer(s, e, n, early);
    case DeliverToAnswerer(nonce) => KeepsIceAnswering(s, nonce, n, early);
    case DeliverToOfferer(nonce) =>
      if s.toOfferer != [] {
        match s.toOfferer[0]
        case Ice(_, _) => KeepsIceTaken(s, nonce, n, early);
        case Answer(_, _) => KeepsIceAnswer(s, nonce, n, early);
        case _ => KeepsIceOther(s, nonce, n, early);
      }
    case _ =>
  }

  lemma {:induction false} KeepsIceAlways(acts: seq<Act>, n: NegId)
    ensures OffererKeeps(Exec(START, acts), n, TookEarly(acts, n))
  {
    if acts == [] {
      OnlyNone([], n);
    } else {
      KeepsIceAlways(acts[..|acts| - 1], n);
      SettledAlways(acts[..|acts| - 1]);
      KeepsIceStep(Exec(START, acts[..|acts| - 1]), acts[|acts| - 1], n, TookEarly(acts[..|acts| - 1], n));
    }
  }

  // Without loss nothing comes early.

  ghost predicate Sent(ms: seq<Signal>, n: NegId, before: nat)
    requires before <= |ms|
  {
    exists i :: 0 <= i < before && ms[i].Answer? && ms[i].negId == n
  }

  /** Without losses a candidate never overtakes the answer of its negotiation. */
  ghost predicate AnswersLead(ms: seq<Signal>, answers: set<NegId>, delivered: set<NegId>) {
    && delivered <= answers
    && (forall n :: n in answers ==> n in delivered || Sent(ms, n, |ms|))
    && (forall i :: 0 <= i < |ms| && ms[i].Ice? ==> ms[i].negId in delivered || Sent(ms, ms[i].negId, i))
  }

  lemma LeadAppend(ms: seq<Signal>, m: Signal, answers: set<NegId>, delivered: set<NegId>)
    requires AnswersLead(ms, answers, delivered)
    requires m.Ice? ==> m.negId in answers
    ensures m.Answer? ==> AnswersLead(ms + [m], answers + {m.negId}, delivered)
    ensures !m.Answer? ==> AnswersLead(ms + [m], answers, delivered)
  {
    forall n | Sent(ms, n, |ms|) ensures Sent(ms + [m], n, |ms|) && Sent(ms + [m], n, |ms| + 1) {
      var i :| 0 <= i < |ms| && ms[i].Answer? && ms[i].negId == n;
      assert (ms + [m])[i] == ms[i];
    }
    forall i | 0 <= i < |ms| && ms[i].Ice? && Sent(ms, ms[i].negId, i) ensures Sent(ms + [m], ms[i].negId, i) {
      var j :| 0 <= j < i && ms[j].Answer? && ms[j].negId == ms[i].negId;
      assert (ms + [m])[j] == ms[j];
    }
    if m.Answer? {
      assert (ms + [m])[|ms|] == m;
      assert Sent(ms + [m], m.negId, |ms| + 1);
    }
  }

  lemma LeadTail(ms: seq<Signal>, answers: set<NegId>, delivered: set<NegId>)
    requires AnswersLead(ms, answers, delivered) && ms != []
    requires ms[0].Answer? ==> ms[0].negId in answers
    ensures AnswersLead(ms[1..], answers, if ms[0].Answer? then delivered + {ms[0].negId} else delivered)
  {
    forall i, n | 1 <= i <= |ms| && Sent(ms, n, i) && !(ms[0].Answer? && ms[0].negId == n)
      ensures Sent(ms[1..], n, i - 1)
    {
      var j :| 0 <= j < i && ms[j].Answer? && ms[j].negId == n;
      assert ms[1..][j - 1] == ms[j];
    }
  }

  lemma LeadFirst(ms: seq<Signal>, answers: set<NegId>, delivered: set<NegId>)
    requires AnswersLead(ms, answers, delivered) && ms != [] && ms[0].Ice?
    ensures ms[0].negId in delivered
  {
  }

  ghost predicate AnswersFirst(s: System) { AnswersLead(s.toOfferer, s.answers.Keys, s.delivered) }

  lemma AnswersFirstStep(s: System, act: Act)
    requires Safe(s) && AnswersFirst(s) && Lossless(act)
    ensures AnswersFirst(Step(s, act))
  {
    match act
    case AtOfferer(e) => hide React;
    case AtAnswerer(e) =>
      AnswererEventOk(s.answerer, e, s.next, s.offers, s.answers);
      AnswererGathers(s.answerer, e, s.next, s.offers, s.answers);
      hide React, Safe, AnswersLead;
      var sent := React(s.answerer, e, s.next).sent;
      if sent != [] {
        assert sent[0] in sent && sent == [sent[0]];
        LeadAppend(s.toOfferer, sent[0], s.answers.Keys, s.delivered);
      } else {
        assert s.toOfferer + sent == s.toOfferer;
      }
    case DeliverToAnswerer(nonce) =>
      if s.toAnswerer != [] {
        TakingEffect(s, nonce);
        hide Step, Safe, AnswersLead, NoteIce;
        var m := s.toAnswerer[0];
        if m.Offer? {
          var answer := AnswerSdp(m.sdp, nonce);
          LeadAppend(s.toOfferer, Answer(m.negId, answer), s.answers.Keys, s.delivered);
          assert s.answers[m.negId := answer].Keys == s.answers.Keys + {m.negId};
        } else {
          assert s.toOfferer + [] == s.toOfferer;
        }
      }
    case DeliverToOfferer(nonce) =>
      if s.toOfferer != [] {
        assert s.toOfferer[0].Answer? ==> s.toOfferer[0].negId in s.answers;
        LeadTail(s.toOfferer, s.answers.Keys, s.delivered);
        hide HandleSignal, Safe, AnswersLead;
      }
  }

  lemma {:induction false} NothingEarly(acts: seq<Act>, n: NegId)
    requires forall act :: act in acts ==> Lossless(act)
    ensures !TookEarly(acts, n) && AnswersFirst(Exec(START, acts))
  {
    if acts != [] {
      var before, act := acts[..|acts| - 1], acts[|acts| - 1];
      NothingEarly(before, n);
      SettledAlways(before);
      assert act in acts;
      AnswersFirstStep(Exec(START, before), act);
      var s := Exec(START, before);
      if act.DeliverToOfferer? && s.toOfferer != [] && s.toOfferer[0].Ice? {
        LeadFirst(s.toOfferer, s.answers.Keys, s.delivered);
      }
      hide Safe, Step, AnswersLead;
    }
  }

  // ---- Conservation ----------------------------------------------------------------------------

  /** What a peer did with the candidates of its current negotiation `n`, in order. */
  ghost predicate Conserved(p: Peer, got: seq<Tagged>, n: NegId, remote: Sdp) {
    && Only(got, n) == Took(Log(p), n) + Only(p.pendingIce, n)
    && (forall x :: x in Log(p) && x.item.negId == n ==> x.under == remote)
  }

  /**
   In every run, with any losses, resets and overlapping calls: every candidate the answerer received for
   its current negotiation was added exactly once, in order, under that negotiation's offer, if and only
   if no other offer was taken since the last reset while such a candidate was already there.
   */
  lemma {:induction false} AnswererConservesIceIff(acts: seq<Act>)
    requires Exec(START, acts).answerer.negId.Some?
    ensures var s := Exec(START, acts);
            var n := s.answerer.negId.value;
            && n in s.offers && Only(s.answerer.pendingIce, n) == []
            && (Conserved(s.answerer, s.gotAnswerer, n, s.offers[n]) <==> !Overtaken(acts, n))
  {
    SettlesAlways(acts, Exec(START, acts).answerer.negId.value);
    hide Exec, Overtaken;
  }

  /** In step, an overtaken negotiation is behind one that was answered, so its offer does not come any more. */
  lemma {:induction false} OvertakenIsOver(acts: seq<Act>, n: NegId)
    requires InStepRun(acts)
    ensures var s := Exec(START, acts);
            Overtaken(acts, n) ==> s.answerer.negId != Some(n) && exists k :: k in s.answers && n < k
  {
    if acts != [] && Overtaken(acts, n) {
      var before, act := acts[..|acts| - 1], acts[|acts| - 1];
      OvertakenIsOver(before, n);
      SafeAlways(before);
      InOrderAlways(before);
      StillOver(Exec(START, before), act, n);
    }
  }

  lemma OverAfterOffer(s: System, nonce: int, n: NegId)
    requires Safe(s) && InOrder(s) && s.toAnswerer != [] && s.toAnswerer[0].Offer?
    requires Overtakes(s, DeliverToAnswerer(nonce), n) || (s.answerer.negId != Some(n) && exists k :: k in s.answers && n < k)
    ensures var t := Step(s, DeliverToAnswerer(nonce)); t.answerer.negId != Some(n) && exists k :: k in t.answers && n < k
  {
    var m := s.toAnswerer[0];
    NextOfferIsLater(s);
    TakingEffect(s, nonce);
    TakenOfferIsCurrent(s, nonce);
    hide Step, Safe, InOrder, NoteIce;
    var t := Step(s, DeliverToAnswerer(nonce));
    assert m.negId in t.answers;
    if !Overtakes(s, DeliverToAnswerer(nonce), n) {
      var k :| k in s.answers && n < k;
      assert k in t.answers;
    }
  }

  lemma StillOver(s: System, act: Act, n: NegId)
    requires Safe(s) && InOrder(s) && !(act.AtAnswerer? && Resets(act.event))
    requires Overtakes(s, act, n) || (s.answerer.negId != Some(n) && exists k :: k in s.answers && n < k)
    ensures var t := Step(s, act); t.answerer.negId != Some(n) && exists k :: k in t.answers && n < k
  {
    assert !s.answerer.isOfferer;
    match act
    case DeliverToAnswerer(nonce) =>
      if s.toAnswerer != [] {
        if s.toAnswerer[0].Offer? {
          OverAfterOffer(s, nonce, n);
        } else {
          hide Safe, InOrder, HandleSignal;
          SameNegotiation(s.answerer, s.toAnswerer[0], s.next, nonce);
        }
      }
    case AtAnswerer(e) =>
      hide Safe, InOrder, React;
      SameNegotiationEvent(s.answerer, e, s.next);
    case _ =>
  }

  /** So if every offer is sent in step, nothing the answerer received for its negotiation is lost. */
  lemma {:induction false} AnswererConservesIce(acts: seq<Act>)
    requires InStepRun(acts)
    requires Exec(START, acts).answerer.negId.Some?
    ensures var s := Exec(START, acts);
            var n := s.answerer.negId.value;
            n in s.offers && Conserved(s.answerer, s.gotAnswerer, n, s.offers[n]) && Only(s.answerer.pendingIce, n) == []
  {
    AnswererConservesIceIff(acts);
    OvertakenIsOver(acts, Exec(START, acts).answerer.negId.value);
    hide Exec, Overtaken;
  }

  /**
   In every run the offerer loses no candidate of its current negotiation. They are added under that
   negotiation's answer, if and only if none was taken before it while an older answer was in force.
   */
  lemma {:induction false} OffererConservesIceIff(acts: seq<Act>)
    requires Exec(START, acts).offerer.negId.Some?
    ensures var s := Exec(START, acts);
            var n := s.offerer.negId.value;
            && Only(s.gotOfferer, n) == Took(Log(s.offerer), n) + Only(s.offerer.pendingIce, n)
            && (RemoteOf(s.offerer).Some? ==> Only(s.offerer.pendingIce, n) == [])
            && (n in s.answers ==> (Conserved(s.offerer, s.gotOfferer, n, s.answers[n]) <==> !TookEarly(acts, n)))
            && (n !in s.answers ==> Only(s.gotOfferer, n) == [])
  {
    var s := Exec(START, acts);
    var n := s.offerer.negId.value;
    KeepsIceAlways(acts, n);
    if n !in s.answers {
      OnlyNone(s.gotOfferer, n);
    }
    hide Exec, TookEarly;
  }

  /** So without loss they are added under that answer, once there is one. */
  lemma {:induction false} OffererConservesIce(acts: seq<Act>)
    requires forall act :: act in acts ==> Lossless(act)
    requires Exec(START, acts).offerer.negId.Some?
    ensures var s := Exec(START, acts);
            var n := s.offerer.negId.value;
            && Only(s.gotOfferer, n) == Took(Log(s.offerer), n) + Only(s.offerer.pendingIce, n)
            && (n in s.answers ==> Conserved(s.offerer, s.gotOfferer, n, s.answers[n]))
            && (RemoteOf(s.offerer).Some? ==> Only(s.offerer.pendingIce, n) == [])
            && (n !in s.answers ==> Only(s.gotOfferer, n) == [])
  {
    OffererConservesIceIff(acts);
    NothingEarly(acts, Exec(START, acts).offerer.negId.value);
    hide Exec, TookEarly;
  }

  // ---- Under the right description -----------------------------------------------------------------

  ghost predicate RightlyAdded(a: Peer, offers: map<NegId, Sdp>) {
    forall x :: x in Log(a) ==> x.item.negId in offers && x.under == offers[x.item.negId]
  }

  lemma RightlyAddedStep(s: System, act: Act)
    requires Safe(s) && RightlyAdded(s.answerer, s.offers)
    ensures RightlyAdded(Step(s, act).answerer, Step(s, act).offers)
  {
    match act
    case AtAnswerer(e) =>
      EventEffect(s.answerer, e, s.next);
      hide React, Safe, Log;
    case AtOfferer(e) =>
      if e.Continue? && e.run in s.offerer.runs {
        ResumedOk(s, e.run, e.nonce);
        hide Resume, Safe, Log;
      } else {
        EventOk(s, e);
        hide React, Safe, Log;
      }
    case DeliverToAnswerer(nonce) =>
      if s.toAnswerer != [] {
        RightlyTaken(s, nonce);
      }
    case _ =>
  }

  lemma RightlyTaken(s: System, nonce: int)
    requires Safe(s) && RightlyAdded(s.answerer, s.offers) && s.toAnswerer != []
    ensures RightlyAdded(Step(s, DeliverToAnswerer(nonce)).answerer, s.offers)
  {
    var m := s.toAnswerer[0];
    TakingEffect(s, nonce);
    assert !s.answerer.isOfferer && !m.Answer? && (m.Offer? ==> s.answerer.answered != Some(m.negId));
    match m
    case Offer(n, sdp) =>
      OnOfferEffect(s.answerer, n, sdp, nonce);
      OnlyOnly(s.answerer.pendingIce, n, n);
      hide OnOffer, Safe, Log, Only;
    case Ice(n, c) =>
      OnIceEffect(s.answerer, Tagged(n, c), s.offers, s.answers);
      assert s.answerer.negId.Some? ==> s.answerer.negId.value in s.offers;
      hide OnIce, Safe, Log;
    case _ =>
      AnswererUntouched(s.answerer, m, s.next, nonce);
      hide OnCall, Safe, Log;
  }

  /** In every run at all: whatever the answerer adds, it adds under the offer of the candidate's own negotiation. */
  lemma {:induction false} AnswererAddsRightly(acts: seq<Act>)
    ensures RightlyAdded(Exec(START, acts).answerer, Exec(START, acts).offers)
  {
    if acts != [] {
      AnswererAddsRightly(acts[..|acts| - 1]);
      SafeAlways(acts[..|acts| - 1]);
      RightlyAddedStep(Exec(START, acts[..|acts| - 1]), acts[|acts| - 1]);
    }
  }

  /** In every run at all: so does the offerer, except for candidates taken early. */
  ghost predicate RightlyAddedBack(o: Peer, answers: map<NegId, Sdp>, acts: seq<Act>) {
    forall x :: x in Log(o) ==>
      x.item.negId in answers && (x.under == answers[x.item.negId] || TookEarly(acts, x.item.negId))
  }

  lemma EarlyStays(acts: seq<Act>, act: Act, n: NegId)
    ensures TookEarly(acts + [act], n) <==> TookEarly(acts, n) || TakesEarly(Exec(START, acts), act, n)
  {
    assert (acts + [act])[..|acts|] == acts;
    hide Exec;
  }

  lemma {:induction false} OffererAddsRightly(acts: seq<Act>)
    ensures RightlyAddedBack(Exec(START, acts).offerer, Exec(START, acts).answers, acts)
  {
    if acts != [] {
      var before, act := acts[..|acts| - 1], acts[|acts| - 1];
      var s, t := Exec(START, before), Exec(START, acts);
      OffererAddsRightly(before);
      OffererAddsStep(before, s, act);
      assert acts == before + [act];
      hide Exec, RightlyAddedBack, Step;
    }
  }

  lemma OffererAddsStep(acts: seq<Act>, s: System, act: Act)
    requires s == Exec(START, acts) && RightlyAddedBack(s.offerer, s.answers, acts)
    ensures RightlyAddedBack(Step(s, act).offerer, Step(s, act).answers, acts + [act])
  {
    SettledAlways(acts);
    KeepsIceAlways(acts, 0);
    assert s.offerer.isOfferer && forall m :: m in s.toOfferer ==> !m.Offer?;
    hide Exec, TookEarly, Settled;
    forall n ensures TookEarly(acts, n) ==> TookEarly(acts + [act], n) {
      EarlyStays(acts, act, n);
    }
    match act
    case AtOfferer(e) =>
      EventEffect(s.offerer, e, s.next);
      hide React, Safe, Log, OffererKeeps;
    case DeliverToAnswerer(nonce) =>
      if s.toAnswerer != [] {
        TakingEffect(s, nonce);
        hide Step, Safe, Log, OffererKeeps, NoteIce;
      }
    case DeliverToOfferer(nonce) =>
      if s.toOfferer != [] {
        OffererAddsTaken(acts, s, nonce);
      }
    case _ => hide Safe, Log, OffererKeeps;
  }

  lemma OffererAddsTaken(acts: seq<Act>, s: System, nonce: int)
    requires s == Exec(START, acts) && RightlyAddedBack(s.offerer, s.answers, acts) && s.toOfferer != []
    requires Safe(s) && Settled(s) && OffererKeeps(s, 0, TookEarly(acts, 0)) && !s.toOfferer[0].Offer?
    ensures var t := Step(s, DeliverToOfferer(nonce)); RightlyAddedBack(t.offerer, t.answers, acts + [DeliverToOfferer(nonce)])
  {
    var m := s.toOfferer[0];
    var act := DeliverToOfferer(nonce);
    assert s.offerer.isOfferer && (m.Answer? ==> m.negId in s.answers && s.answers[m.negId] == m.sdp);
    hide Exec, TookEarly, Log, RemoteOf, Only, Step;
    forall n ensures TookEarly(acts, n) || TakesEarly(s, act, n) ==> TookEarly(acts + [act], n) {
      EarlyStays(acts, act, n);
    }
    match m
    case Ice(n, c) =>
      IceTaken(s, nonce);
      OffererIceEffect(s.offerer, Tagged(n, c));
      if s.offerer.negId == Some(n) && RemoteOf(s.offerer).Some? {
        RemoteInForce(s);
      }
    case Answer(n, sdp) =>
      AnswerTaken(s, nonce);
      OnAnswerEffect(s.offerer, n, sdp);
      OnlyOnly(s.offerer.pendingIce, n, n);
    case _ =>
      OtherTaken(s, nonce);
      EventEffect(s.offerer, if m.Call? then Start else Mount, s.next);
  }

  // ---- What a flush throws away ------------------------------------------------------------------

  ghost predicate QueueReceived(a: Peer, got: seq<Tagged>) { forall t :: t in a.pendingIce ==> t in got }

  lemma QueueReceivedStep(s: System, act: Act)
    requires QueueReceived(s.answerer, s.gotAnswerer)
    ensures QueueReceived(Step(s, act).answerer, Step(s, act).gotAnswerer)
  {
    hide React, HandleSignal;
    match act
    case AtAnswerer(e) =>
      QueueAfterEvent(s.answerer, e, s.next);
      if Resets(e) {
        ResetEmpties(s.answerer, e, s.next);
      }
    case DeliverToAnswerer(nonce) =>
      if s.toAnswerer != [] {
        QueueAfterSignal(s.answerer, s.toAnswerer[0], s.next, nonce);
      }
    case _ =>
  }

  lemma {:induction false} QueuedWasReceived(acts: seq<Act>)
    ensures QueueReceived(Exec(START, acts).answerer, Exec(START, acts).gotAnswerer)
  {
    if acts != [] {
      QueuedWasReceived(acts[..|acts| - 1]);
      QueueReceivedStep(Exec(START, acts[..|acts| - 1]), acts[|acts| - 1]);
    }
  }

  lemma ResetEmpties(p: Peer, e: Event, drawn: NegId)
    requires Resets(e)
    ensures React(p, e, drawn).peer.pendingIce == []
  {
  }

  /** Queued candidates that the answerer throws away with an offer belong to negotiations already replaced. */
  lemma {:induction false} FlushDropsSuperseded(acts: seq<Act>, t: Tagged, nonce: int)
    requires InStepRun(acts)
    requires var s := Exec(START, acts);
             && s.toAnswerer != [] && s.toAnswerer[0].Offer?
             && t in s.answerer.pendingIce && t.negId != s.toAnswerer[0].negId
    ensures var s := Exec(START, acts);
            && t.negId < s.toAnswerer[0].negId
            && Step(s, DeliverToAnswerer(nonce)).answerer.pendingIce == []
            && Step(s, DeliverToAnswerer(nonce)).answerer.negId == Some(s.toAnswerer[0].negId)
  {
    SafeAlways(acts);
    InOrderAlways(acts);
    QueuedWasReceived(acts);
    var s := Exec(START, acts);
    NextOfferIsLater(s);
    OnOfferEffect(s.answerer, s.toAnswerer[0].negId, s.toAnswerer[0].sdp, nonce);
  }

  lemma QueueAfterEvent(p: Peer, e: Event, drawn: NegId)
    ensures var q := React(p, e, drawn).peer; q.pendingIce == p.pendingIce || q.pendingIce == []
  {
  }

  lemma QueueAfterSignal(p: Peer, m: Signal, drawn: NegId, nonce: int)
    ensures var q := HandleSignal(p, m, drawn, nonce).peer;
            || q.pendingIce == p.pendingIce || q.pendingIce == []
            || (m.Ice? && q.pendingIce == p.pendingIce + [Tagged(m.negId, m.candidate)])
  {
    hide Flush;
    if m.Offer? {
      var q := EnsurePeer(p);
      QueueAfterFlush(q.(callActive := true, negId := Some(m.negId),
                         pc := Some(q.pc.value.(remote := Some(m.sdp), signaling := HaveRemoteOffer))));
    } else if m.Answer? {
      var q := EnsurePeer(p);
      QueueAfterFlush(q.(pc := Some(q.pc.value.(remote := Some(m.sdp), signaling := Stable))));
    }
  }

  lemma QueueAfterFlush(p: Peer)
    ensures Flush(p).pendingIce == p.pendingIce || Flush(p).pendingIce == []
    ensures p.pc.Some? ==> Flush(p).pc.Some?
  {
  }

  /** The same for the offerer and the answer it accepts, in every run. */
  lemma {:induction false} AnswerFlushDropsSuperseded(acts: seq<Act>, t: Tagged, nonce: int)
    requires var s := Exec(START, acts);
             && s.toOfferer != [] && s.toOfferer[0].Answer? && Consumes(s.offerer, s.toOfferer[0].negId)
             && t in s.offerer.pendingIce && t.negId != s.toOfferer[0].negId
    ensures var s := Exec(START, acts);
            && t.negId < s.toOfferer[0].negId
            && Step(s, DeliverToOfferer(nonce)).offerer.pendingIce == []
            && Step(s, DeliverToOfferer(nonce)).offerer.negId == Some(s.toOfferer[0].negId)
  {
    SafeAlways(acts);
    NewestAlways(acts);
    KeepsIceAlways(acts, t.negId);
  }
}
