/** The order of negotiations: ids only grow, and without offers out of step messages travel in that order. */
module WebRtcOrder {
  import opened Wrappers
  import opened WebRtcPeer
  import opened WebRtcProtocol
  import opened WebRtcStranding

  // ---- Ids only grow -----------------------------------------------------------------------------

  /** The current negotiation is the newest one there is. */
  ghost predicate Newest(o: Peer, offers: map<NegId, Sdp>) {
    o.negId.Some? ==>
      && (forall k :: k in offers ==> k <= o.negId.value)
      && (forall r :: r in o.runs ==> r.negId <= o.negId.value)
  }

  lemma NewestEvent(o: Peer, e: Event, offers: map<NegId, Sdp>, drawn: NegId)
    requires Newest(o, offers)
    requires forall k :: k in offers ==> k < drawn
    requires forall r :: r in o.runs ==> r.negId < drawn
    ensures Newest(React(o, e, drawn).peer, NoteOffer(offers, React(o, e, drawn).sent))
  {
  }

  lemma NewestStep(s: System, act: Act)
    requires Safe(s) && Newest(s.offerer, s.offers)
    ensures Newest(Step(s, act).offerer, Step(s, act).offers)
  {
    match act
    case AtOfferer(e) =>
      NewestEvent(s.offerer, e, s.offers, s.next);
      hide React, NoteOffer;
    case DeliverToOfferer(nonce) =>
      if s.toOfferer != [] {
        OffererAfter(s.offerer, s.toOfferer[0], s.next, nonce);
        hide HandleSignal;
      }
    case _ =>
  }

  lemma {:induction false} NewestAlways(acts: seq<Act>)
    ensures Newest(Exec(START, acts).offerer, Exec(START, acts).offers)
  {
    if acts != [] {
      NewestAlways(acts[..|acts| - 1]);
      SafeAlways(acts[..|acts| - 1]);
      NewestStep(Exec(START, acts[..|acts| - 1]), acts[|acts| - 1]);
    }
  }

  // ---- Tags in order -----------------------------------------------------------------------------

  predicate HasTag(m: Signal) { m.Offer? || m.Answer? || m.Ice? }

  /** No later message belongs to an earlier negotiation. */
  ghost predicate TagsAscend(ms: seq<Signal>) {
    forall i, j :: 0 <= i < j < |ms| && HasTag(ms[i]) && HasTag(ms[j]) ==> ms[i].negId <= ms[j].negId
  }

  /** Negotiation `n` is not ahead of the current one, nor behind anything answered or received. */
  ghost predicate UpToDate(n: NegId, got: seq<Tagged>, answers: map<NegId, Sdp>, current: Option<NegId>, next: NegId) {
    && n < next && (current.Some? ==> n <= current.value)
    && (forall k :: k in answers ==> k <= n)
    && (forall t :: t in got ==> t.negId <= n)
  }

  ghost predicate TagsInOrder(ms: seq<Signal>, got: seq<Tagged>, answers: map<NegId, Sdp>, current: Option<NegId>, next: NegId) {
    && TagsAscend(ms)
    && (forall m :: m in ms && HasTag(m) ==> UpToDate(m.negId, got, answers, current, next))
    && (forall t :: t in got ==> t.negId < next && (current.Some? ==> t.negId <= current.value))
  }

  ghost predicate InOrder(s: System) {
    TagsInOrder(s.toAnswerer, s.gotAnswerer, s.answers, s.offerer.negId, s.next)
  }

  lemma AscendAfterSend(ms: seq<Signal>, sent: seq<Signal>)
    requires TagsAscend(ms) && |sent| <= 1
    requires forall m, x :: m in ms && HasTag(m) && x in sent && HasTag(x) ==> m.negId <= x.negId
    ensures TagsAscend(ms + sent)
  {
  }

  lemma TagsAfterSend(s: System, sent: seq<Signal>, current: Option<NegId>)
    requires InOrder(s)
    requires current == s.offerer.negId || current == None || current == Some(s.next)
    requires |sent| <= 1 && forall m :: m in sent && HasTag(m) ==> current == s.offerer.negId == Some(m.negId)
    requires forall m :: m in sent && HasTag(m) ==> m.negId < s.next && forall n :: n in s.answers ==> n <= m.negId
    ensures TagsInOrder(s.toAnswerer + sent, s.gotAnswerer, s.answers, current, s.next + 1)
  {
    hide TagsAscend;
    AscendAfterSend(s.toAnswerer, sent);
  }

  /** What an event in step does to the offerer's id, and how it tags what it sends. */
  lemma OffererTags(o: Peer, e: Event, drawn: NegId)
    requires !OutOfStep(o, e)
    ensures var r := React(o, e, drawn);
            && (r.peer.negId == o.negId || r.peer.negId == None || r.peer.negId == Some(drawn))
            && |r.sent| <= 1
            && (r.sent != [] && HasTag(r.sent[0]) ==> r.peer.negId == o.negId == Some(r.sent[0].negId))
  {
    match e
    case Continue(_, _) =>
    case _ =>
  }

  lemma NewestBounds(s: System)
    requires Safe(s) && Newest(s.offerer, s.offers) && s.offerer.negId.Some?
    ensures s.offerer.negId.value < s.next && forall n :: n in s.answers ==> n <= s.offerer.negId.value
  {
    hide ToAnswererOk, ToOffererOk, AnswererOk, RunsOk;
  }

  lemma InOrderAtOfferer(s: System, e: Event)
    requires Safe(s) && Newest(s.offerer, s.offers) && InOrder(s) && !OutOfStep(s.offerer, e)
    ensures InOrder(Step(s, AtOfferer(e)))
  {
    hide React, Safe, Newest, TagsInOrder, OutOfStep;
    OffererTags(s.offerer, e, s.next);
    if s.offerer.negId.Some? {
      NewestBounds(s);
    }
    var r := React(s.offerer, e, s.next);
    TagsAfterSend(s, r.sent, r.peer.negId);
  }

  lemma InOrderDeliverToOfferer(s: System, nonce: int)
    requires Safe(s) && InOrder(s)
    ensures InOrder(Step(s, DeliverToOfferer(nonce)))
  {
    if s.toOfferer != [] {
      assert s.offerer.isOfferer && !s.toOfferer[0].Offer?;
      hide HandleSignal, Safe, TagsInOrder;
      OffererAfter(s.offerer, s.toOfferer[0], s.next, nonce);
      TagsAfterSend(s, [], HandleSignal(s.offerer, s.toOfferer[0], s.next, nonce).peer.negId);
    }
  }

  lemma AscendWithout(ms: seq<Signal>, i: nat)
    requires TagsAscend(ms)
    ensures TagsAscend(Without(ms, i))
  {
  }

  lemma AscendInRest(ms: seq<Signal>, m: Signal)
    requires TagsAscend(ms) && ms != [] && m in ms[1..] && HasTag(m) && HasTag(ms[0])
    ensures ms[0].negId <= m.negId
  {
  }

  lemma UpToDateAfterTaking(first: Signal, n: NegId, got: seq<Tagged>, answers: map<NegId, Sdp>, current: Option<NegId>, next: NegId,
                          later: map<NegId, Sdp>)
    requires UpToDate(n, got, answers, current, next) && (HasTag(first) ==> first.negId <= n)
    requires forall k :: k in later ==> k in answers || (first.Offer? && k == first.negId)
    ensures UpToDate(n, NoteIce(got, first), later, current, next + 1)
  {
  }

  /** The first message is taken: a candidate is received, an offer answered, or neither. */
  lemma TagsAfterTaking(ms: seq<Signal>, got: seq<Tagged>, answers: map<NegId, Sdp>, current: Option<NegId>, next: NegId,
                        later: map<NegId, Sdp>)
    requires TagsInOrder(ms, got, answers, current, next) && ms != []
    requires forall n :: n in later ==> n in answers || (ms[0].Offer? && n == ms[0].negId)
    ensures TagsInOrder(ms[1..], NoteIce(got, ms[0]), later, current, next + 1)
  {
    AscendWithout(ms, 0);
    assert Without(ms, 0) == ms[1..];
    assert HasTag(ms[0]) ==> ms[0].negId < next && (current.Some? ==> ms[0].negId <= current.value);
    assert forall t :: t in NoteIce(got, ms[0]) ==> t in got || (ms[0].Ice? && t.negId == ms[0].negId);
    hide NoteIce, TagsAscend, Without, UpToDate;
    forall m | m in ms[1..] && HasTag(m) ensures UpToDate(m.negId, NoteIce(got, ms[0]), later, current, next + 1) {
      if HasTag(ms[0]) {
        AscendInRest(ms, m);
      }
      UpToDateAfterTaking(ms[0], m.negId, got, answers, current, next, later);
    }
  }

  lemma InOrderDeliverToAnswerer(s: System, nonce: int)
    requires Safe(s) && InOrder(s)
    ensures InOrder(Step(s, DeliverToAnswerer(nonce)))
  {
    if s.toAnswerer != [] {
      hide Step, Safe, TagsInOrder, NoteIce;
      TakingEffect(s, nonce);
      TagsAfterTaking(s.toAnswerer, s.gotAnswerer, s.answers, s.offerer.negId, s.next, Step(s, DeliverToAnswerer(nonce)).answers);
    } else {
      hide HandleSignal, TagsInOrder;
    }
  }

  lemma TagsWithout(ms: seq<Signal>, i: nat, got: seq<Tagged>, answers: map<NegId, Sdp>, current: Option<NegId>, next: NegId)
    requires TagsInOrder(ms, got, answers, current, next)
    ensures TagsInOrder(Without(ms, i), got, answers, current, next)
  {
    hide TagsAscend, UpToDate;
    AscendWithout(ms, i);
  }

  lemma InOrderAtAnswerer(s: System, e: Event)
    requires InOrder(s)
    ensures InOrder(Step(s, AtAnswerer(e)))
  {
    hide React;
  }

  lemma InOrderStep(s: System, act: Act)
    requires Safe(s) && Newest(s.offerer, s.offers) && InOrder(s) && InStep(s, act)
    ensures InOrder(Step(s, act))
  {
    hide Safe, React, HandleSignal, Newest, TagsInOrder;
    match act
    case AtOfferer(e) => InOrderAtOfferer(s, e);
    case AtAnswerer(e) => InOrderAtAnswerer(s, e);
    case DeliverToOfferer(nonce) => InOrderDeliverToOfferer(s, nonce);
    case DeliverToAnswerer(nonce) => InOrderDeliverToAnswerer(s, nonce);
    case LoseToAnswerer(i) => TagsWithout(s.toAnswerer, i, s.gotAnswerer, s.answers, s.offerer.negId, s.next);
    case LoseToOfferer(i) =>
  }

  lemma {:induction false} InOrderAlways(acts: seq<Act>)
    requires InStepRun(acts)
    ensures InOrder(Exec(START, acts))
  {
    if acts != [] {
      InOrderAlways(acts[..|acts| - 1]);
      SafeAlways(acts[..|acts| - 1]);
      NewestAlways(acts[..|acts| - 1]);
      InOrderStep(Exec(START, acts[..|acts| - 1]), acts[|acts| - 1]);
    }
  }

  /** An offer on its way is later than everything answered before it, and nothing received before it is later. */
  lemma NextOfferIsLater(s: System)
    requires Safe(s) && InOrder(s) && s.toAnswerer != [] && s.toAnswerer[0].Offer?
    ensures (forall k :: k in s.answers ==> k < s.toAnswerer[0].negId)
    ensures (forall t :: t in s.gotAnswerer ==> t.negId <= s.toAnswerer[0].negId)
  {
  }

  // ---- The answerer's negotiation ------------------------------------------------------------------

  /** It changes with an offer or a reset only. */
  lemma SameNegotiation(a: Peer, m: Signal, drawn: NegId, nonce: int)
    requires !a.isOfferer && !m.Offer?
    ensures HandleSignal(a, m, drawn, nonce).peer.negId == a.negId && HandleSignal(a, m, drawn, nonce).sent == []
  {
  }

  lemma SameNegotiationEvent(a: Peer, e: Event, drawn: NegId)
    requires !a.isOfferer && !Resets(e)
    ensures React(a, e, drawn).peer.negId == a.negId
  {
  }

  lemma TakenOfferIsCurrent(s: System, nonce: int)
    requires Safe(s) && s.toAnswerer != [] && s.toAnswerer[0].Offer?
    ensures Step(s, DeliverToAnswerer(nonce)).answerer.negId == Some(s.toAnswerer[0].negId)
  {
    AnsweredOk(s, nonce);
    hide Safe, AnswererOk, Only, AppliedUnder;
  }
}
