/** Two runs in which candidates of the current negotiation are lost on a client, or added under the wrong answer. */
module WebRtcLostIce {
  import opened Wrappers
  import opened WebRtcPeer
  import opened WebRtcProtocol
  import opened WebRtcStranding
  import opened WebRtcOrder
  import opened WebRtcIce

  ghost predicate Reached(acts: seq<Act>, s: System) {
    Exec(START, acts) == s && forall act :: act in acts ==> Lossless(act)
  }

  lemma Reach(acts: seq<Act>, s: System, act: Act) returns (more: seq<Act>)
    requires Reached(acts, s) && Lossless(act)
    ensures Reached(more, Step(s, act)) && more == acts + [act]
  {
    more := Then(acts, act);
    hide Step;
  }

  lemma ReachEvent(acts: seq<Act>, s: System, e: Event, o: Peer, sent: seq<Signal>, offers: map<NegId, Sdp>)
    returns (more: seq<Act>, t: System)
    requires Reached(acts, s) && React(s.offerer, e, s.next) == Outcome(o, sent) && NoteOffer(s.offers, sent) == offers
    requires s.gotOfferer == []
    ensures Reached(more, t) && more == acts + [AtOfferer(e)]
    ensures t == s.(offerer := o, toAnswerer := s.toAnswerer + sent, offers := offers, next := s.next + 1)
  {
    hide Reached, React, NoteOffer;
    more := Reach(acts, s, AtOfferer(e));
    t := Step(s, AtOfferer(e));
  }

  /** The answerer takes a message. */
  lemma ReachTaken(acts: seq<Act>, s: System) returns (more: seq<Act>, t: System)
    requires Reached(acts, s) && s.toAnswerer != []
    ensures Reached(more, t) && more == acts + [DeliverToAnswerer(0)]
    ensures var m := s.toAnswerer[0];
            && t == s.(answerer := t.answerer, toAnswerer := s.toAnswerer[1..], next := s.next + 1,
                       toOfferer := s.toOfferer + AnswerTo(m, 0), answers := NoteAnswer(s.answers, AnswerTo(m, 0)),
                       gotAnswerer := NoteIce(s.gotAnswerer, m))
            && (m.Offer? ==> t.answerer.negId == Some(m.negId) && t.answerer.pc.Some? && t.answerer.pc.value.local.Some?)
  {
    SafeAlways(acts);
    TakingEffect(s, 0);
    if s.toAnswerer[0].Offer? {
      TakenOfferIsCurrent(s, 0);
    }
    more := Reach(acts, s, DeliverToAnswerer(0));
    t := Step(s, DeliverToAnswerer(0));
    SafeAlways(more);
    hide Step, NoteAnswer, NoteIce;
  }

  /** The offerer applies the answer it waits for. */
  lemma ReachApplied(acts: seq<Act>, s: System, n: NegId, sdp: Sdp) returns (more: seq<Act>, t: System)
    requires Reached(acts, s) && s.toOfferer == [Answer(n, sdp)] && Consumes(s.offerer, n) && s.offerer.pendingIce == []
    ensures Reached(more, t) && more == acts + [DeliverToOfferer(0)]
    ensures t == s.(offerer := s.offerer.(pc := Some(s.offerer.pc.value.(remote := Some(sdp), signaling := Stable))),
                    toOfferer := [], delivered := s.delivered + {n}, consumed := s.consumed + {n}, next := s.next + 1)
  {
    hide Reached;
    AnswerTaken(s, 0);
    OnlyNone([], n);
    more := Reach(acts, s, DeliverToOfferer(0));
    t := Step(s, DeliverToOfferer(0));
    assert s.offerer.pc.value.applied + AppliedUnder([], sdp) == s.offerer.pc.value.applied;
    hide Step, Only, AppliedUnder;
  }

  function Opened(id: nat): Option<Connection> { Some(Connection(id, Stable, None, None, [])) }

  function Offering(id: nat, sdp: Sdp): Option<Connection> { Some(Connection(id, HaveLocalOffer, Some(sdp), None, [])) }

  function Agreed(id: nat, offer: Sdp): Connection {
    Connection(id, Stable, Some(offer), Some(AnswerSdp(offer, 0)), [])
  }

  function Renegotiating(id: nat, previous: Sdp, offer: Sdp): Connection {
    Agreed(id, previous).(local := Some(offer), signaling := HaveLocalOffer)
  }

  const LATE: Candidate := "candidate"

  // ---- An offer out of step can lose candidates ----------------------------------------------------

  const FOURTH: Sdp := OfferSdp(4, 0)
  const TENTH: Sdp := OfferSdp(10, 0)
  const THIRTEENTH: Sdp := OfferSdp(13, 0)

  /** A retry while `createOffer` is outstanding: two calls, one of them on the closed connection. */
  lemma RetryOverlaps() returns (acts: seq<Act>, s: System)
    ensures Reached(acts, s)
    ensures s == START.(offerer := Peer(true, Opened(1), Some(4), None, true, true, true, [], {Run(2, 0), Run(4, 1)}, 2),
                        toAnswerer := [Call, Call], next := 5)
  {
    acts := [];
    assert Reached(acts, START);
    hide Reached;
    acts, s := ReachEvent(acts, START, Mount, Peer(true, Opened(0), None, None, false, false, false, [], {}, 1), [], map[]);
    acts, s := ReachEvent(acts, s, Media, s.offerer.(hasMedia := true), [], map[]);
    acts, s := ReachEvent(acts, s, Start, Peer(true, Opened(0), Some(2), None, true, true, true, [], {Run(2, 0)}, 1), [Call], map[]);
    acts, s := ReachEvent(acts, s, Retry, Peer(true, Opened(1), None, None, false, true, false, [], {Run(2, 0)}, 2), [Call], map[]);
    acts, s := ReachEvent(acts, s, Media,
                          Peer(true, Opened(1), Some(4), None, true, true, true, [], {Run(2, 0), Run(4, 1)}, 2), [], map[]);
    assert s.toAnswerer == [Call, Call];
  }

  /** The new call's negotiation is completed while the abandoned one is still pending. */
  lemma RetryCompletes() returns (acts: seq<Act>, s: System)
    ensures Reached(acts, s) && s.next == 10 && s.toAnswerer == [] && s.toOfferer == [] && s.gotAnswerer == [] && s.gotOfferer == []
    ensures s.offerer == Peer(true, Some(Agreed(1, FOURTH)), Some(4), None, false, true, true, [], {Run(2, 0)}, 2)
    ensures s.offers == map[4 := FOURTH]
  {
    acts, s := RetryOverlaps();
    hide Reached, NoteAnswer;
    assert {Run(2, 0), Run(4, 1)} - {Run(4, 1)} == {Run(2, 0)};
    acts, s := ReachEvent(acts, s, Continue(Run(4, 1), 0),
                          Peer(true, Offering(1, FOURTH), Some(4), None, false, true, true, [], {Run(2, 0)}, 2),
                          [Offer(4, FOURTH)], map[4 := FOURTH]);
    assert s.toAnswerer == [Call, Call, Offer(4, FOURTH)];
    acts, s := ReachTaken(acts, s);
    assert s.toAnswerer == [Call, Offer(4, FOURTH)];
    acts, s := ReachTaken(acts, s);
    assert s.toAnswerer == [Offer(4, FOURTH)] && s.toOfferer == [];
    acts, s := ReachTaken(acts, s);
    acts, s := ReachApplied(acts, s, 4, AnswerSdp(FOURTH, 0));
  }

  /** A candidate is gathered under the next id, the abandoned call clears the flag, and a further call sends its offer first. */
  lemma LaterCallFirst() returns (acts: seq<Act>, s: System)
    ensures Reached(acts, s) && s.toOfferer == [] && s.gotAnswerer == [] && s.gotOfferer == []
    ensures s.offerer == Peer(true, Some(Renegotiating(1, FOURTH, THIRTEENTH)), Some(13), None, false, true, true, [], {Run(10, 1)}, 2)
    ensures s.toAnswerer == [Ice(10, LATE), Offer(13, THIRTEENTH)] && s.offers == map[4 := FOURTH, 13 := THIRTEENTH]
  {
    acts, s := RetryCompletes();
    hide Reached;
    acts, s := ReachEvent(acts, s, Negotiate,
                          s.offerer.(makingOffer := true, negId := Some(10), runs := {Run(2, 0), Run(10, 1)}), [], s.offers);
    acts, s := ReachEvent(acts, s, Gather(LATE), s.offerer, [Ice(10, LATE)], s.offers);
    assert {Run(2, 0), Run(10, 1)} - {Run(2, 0)} == {Run(10, 1)};
    acts, s := ReachEvent(acts, s, Continue(Run(2, 0), 0), s.offerer.(makingOffer := false, runs := {Run(10, 1)}), [], s.offers);
    assert {Run(10, 1)} + {Run(13, 1)} == {Run(10, 1), Run(13, 1)};
    acts, s := ReachEvent(acts, s, Negotiate,
                          s.offerer.(makingOffer := true, negId := Some(13), runs := {Run(10, 1), Run(13, 1)}), [], s.offers);
    assert {Run(10, 1), Run(13, 1)} - {Run(13, 1)} == {Run(10, 1)};
    acts, s := ReachEvent(acts, s, Continue(Run(13, 1), 0),
                          s.offerer.(pc := Some(Renegotiating(1, FOURTH, THIRTEENTH)), makingOffer := false, runs := {Run(10, 1)}),
                          [Offer(13, THIRTEENTH)], map[4 := FOURTH, 13 := THIRTEENTH]);
    assert s.toAnswerer == [Ice(10, LATE), Offer(13, THIRTEENTH)];
  }

  lemma OvertakenNow(acts: seq<Act>, act: Act, n: NegId)
    requires Overtakes(Exec(START, acts), act, n)
    ensures Overtaken(acts + [act], n)
  {
    assert (acts + [act])[..|acts|] == acts;
    hide Exec;
  }

  lemma OvertakenStays(acts: seq<Act>, act: Act, n: NegId)
    requires Overtaken(acts, n) && !(act.AtAnswerer? && Resets(act.event))
    ensures Overtaken(acts + [act], n)
  {
    assert (acts + [act])[..|acts|] == acts;
    hide Exec;
  }

  /** The answerer queues the candidate and drops it with the later call's offer, which is answered. */
  lemma CandidateDropped() returns (acts: seq<Act>, s: System)
    ensures Reached(acts, s) && Overtaken(acts, 10) && s.toAnswerer == [] && s.toOfferer == [] && s.gotOfferer == []
    ensures s.offerer == Peer(true, Some(Agreed(1, THIRTEENTH)), Some(13), None, false, true, true, [], {Run(10, 1)}, 2)
    ensures s.offers == map[4 := FOURTH, 13 := THIRTEENTH]
  {
    acts, s := LaterCallFirst();
    hide NoteAnswer, Overtaken;
    acts, s := ReachTaken(acts, s);
    assert s.toAnswerer == [Offer(13, THIRTEENTH)] && s.gotAnswerer == [Tagged(10, LATE)] && s.toOfferer == [];
    assert s.gotAnswerer[0].negId == 10;
    OvertakenNow(acts, DeliverToAnswerer(0), 10);
    hide Reached;
    acts, s := ReachTaken(acts, s);
    OvertakenStays(acts, DeliverToOfferer(0), 10);
    acts, s := ReachApplied(acts, s, 13, AnswerSdp(THIRTEENTH, 0));
  }

  /**
   Without staying in step the answerer can lose candidates of its current negotiation, although no
   message is lost: one that overtook its own offer was dropped with the offer of another call.
   */
  lemma OutOfStepLosesIce()
    ensures exists acts ::
              && (forall act :: act in acts ==> Lossless(act))
              && var s := Exec(START, acts);
                 s.answerer.negId.Some? && s.answerer.negId.value in s.offers
                 && !Conserved(s.answerer, s.gotAnswerer, s.answerer.negId.value, s.offers[s.answerer.negId.value])
  {
    var acts, s := CandidateDropped();
    hide Reached, Overtaken, NoteAnswer, NoteIce;
    assert {Run(10, 1)} - {Run(10, 1)} == {};
    OvertakenStays(acts, AtOfferer(Continue(Run(10, 1), 0)), 10);
    acts, s := ReachEvent(acts, s, Continue(Run(10, 1), 0),
                          s.offerer.(pc := Some(Renegotiating(1, THIRTEENTH, TENTH)), runs := {}),
                          [Offer(10, TENTH)], s.offers[10 := TENTH]);
    OvertakenStays(acts, DeliverToAnswerer(0), 10);
    acts, s := ReachTaken(acts, s);
    ReachedIs(acts, s);
    AnswererConservesIceIff(acts);
    hide Exec, Conserved;
  }

  lemma ReachedIs(acts: seq<Act>, s: System)
    requires Reached(acts, s)
    ensures Exec(START, acts) == s && forall act :: act in acts ==> Lossless(act)
  {
  }

  // ---- A lost answer can misplace candidates -------------------------------------------------------

  const SECOND: Sdp := OfferSdp(2, 0)
  const SEVENTH: Sdp := OfferSdp(7, 0)

  /** The first offer is made and answered. */
  lemma ReachAnswered() returns (acts: seq<Act>, s: System)
    ensures Reached(acts, s) && s.offerer == Peer(true, Offering(0, SECOND), Some(2), None, false, true, true, [], {}, 1)
    ensures s.toAnswerer == [] && s.toOfferer == [Answer(2, AnswerSdp(SECOND, 0))] && s.gotOfferer == [] && s.next == 6
    ensures s.offers == map[2 := SECOND] && s.consumed == {}
  {
    acts := [];
    assert Reached(acts, START);
    hide Reached, NoteIce, NoteAnswer;
    acts, s := ReachEvent(acts, START, Mount, Peer(true, Opened(0), None, None, false, false, false, [], {}, 1), [], map[]);
    acts, s := ReachEvent(acts, s, Media, s.offerer.(hasMedia := true), [], map[]);
    acts, s := ReachEvent(acts, s, Start, Peer(true, Opened(0), Some(2), None, true, true, true, [], {Run(2, 0)}, 1), [Call], map[]);
    assert {Run(2, 0)} - {Run(2, 0)} == {};
    acts, s := ReachEvent(acts, s, Continue(Run(2, 0), 0), Peer(true, Offering(0, SECOND), Some(2), None, false, true, true, [], {}, 1),
                          [Offer(2, SECOND)], map[2 := SECOND]);
    assert s.toAnswerer == [Call, Offer(2, SECOND)];
    acts, s := ReachTaken(acts, s);
    assert s.toAnswerer == [Offer(2, SECOND)] && s.toOfferer == [];
    acts, s := ReachTaken(acts, s);
  }

  /** It is applied, a second one is made, and its answer is on its way. */
  lemma ReachSecondAnswer() returns (acts: seq<Act>, s: System)
    ensures Reached(acts, s) && s.offerer.negId == Some(7) && RemoteOf(s.offerer).Some? && 7 !in s.consumed && 7 in s.answers
    ensures |s.toOfferer| == 1 && s.answerer.negId == Some(7) && s.answerer.pc.Some? && s.answerer.pc.value.local.Some?
  {
    acts, s := ReachAnswered();
    hide Reached, NoteIce;
    acts, s := ReachApplied(acts, s, 2, AnswerSdp(SECOND, 0));
    acts, s := ReachEvent(acts, s, Negotiate, s.offerer.(makingOffer := true, negId := Some(7), runs := {Run(7, 0)}), [], s.offers);
    assert {Run(7, 0)} - {Run(7, 0)} == {};
    acts, s := ReachEvent(acts, s, Continue(Run(7, 0), 0),
                          s.offerer.(makingOffer := false, runs := {}, pc := Some(Renegotiating(0, SECOND, SEVENTH))),
                          [Offer(7, SEVENTH)], s.offers[7 := SEVENTH]);
    assert s.toAnswerer == [Offer(7, SEVENTH)] && s.toOfferer == [];
    acts, s := ReachTaken(acts, s);
  }

  /**
   If an answer is lost, candidates of its negotiation are added under an older one: the offerer has a
   remote description already, so it does not queue them.
   */
  lemma LostAnswerMisplacesIce()
    ensures exists acts ::
              var s := Exec(START, acts);
              s.offerer.negId.Some? && s.offerer.negId.value in s.answers
              && !Conserved(s.offerer, s.gotOfferer, s.offerer.negId.value, s.answers[s.offerer.negId.value])
  {
    var acts, s := ReachSecondAnswer();
    var s1, s2 := Step(s, LoseToOfferer(0)), Step(Step(s, LoseToOfferer(0)), AtAnswerer(Gather(LATE)));
    assert s1.toOfferer == [] && s2.toOfferer == [Ice(7, LATE)];
    var lost := Then(acts, LoseToOfferer(0));
    var gathered := Then(lost, AtAnswerer(Gather(LATE)));
    assert TakesEarly(s2, DeliverToOfferer(0), 7);
    hide Step, Conserved;
    var all := Then(gathered, DeliverToOfferer(0));
    assert all[..|all| - 1] == gathered;
    assert TookEarly(all, 7);
    TakenIceKeepsId(s2);
    OffererConservesIceIff(all);
    assert Exec(START, all).offerer.negId == Some(7);
  }

  lemma TakenIceKeepsId(s: System)
    requires s.toOfferer != [] && s.toOfferer[0].Ice?
    ensures var t := Step(s, DeliverToOfferer(0)); t.offerer.negId == s.offerer.negId && t.answers == s.answers
  {
    IceTaken(s, 0);
    OffererIceEffect(s.offerer, Tagged(s.toOfferer[0].negId, s.toOfferer[0].candidate));
    hide OnIce;
  }
}
