/**
 The races of the drainers of DrainMachine: when packets are completed out of the
 order of the ring, exactly, and one run each for that, for a restart flag that goes
 to a packet of the previous stream, and for a position that lacks a packet's frames.
 */
module DrainRaces {
  import opened Common
  import BoundedQueue
  import opened Packets
  import IoctlModel
  import IoctlProof
  import opened DrainMachine
  import opened DrainAlone

  // ----- overtaking -----

  // The completed packets are the first pieces that left the ring, in their order.
  predicate InRingOrder(s: Machine) {
    forall k :: 0 <= k < |s.order| ==> s.order[k] == k
  }

  // A packet is completed while a drainer has an earlier piece in hand.
  predicate Overtakes(s: Machine, m: Move) {
    && m.Finish? && Enabled(s, m)
    && exists u :: 0 <= u < |s.drainers| && InHand(s.drainers[u]).Some?
                   && InHand(s.drainers[u]).value < s.drainers[m.t].n
  }

  lemma FinishInOrder(s: Machine, t: nat, qpc: nat)
    requires HandsOk(s) && InRingOrder(s) && Enabled(s, Finish(t, qpc))
    ensures InRingOrder(FinishStep(s, t, qpc)) <==> !Overtakes(s, Finish(t, qpc))
  {
    hide DrainerOk, Distinct;
    var n := s.drainers[t].n;
    assert InHand(s.drainers[t]) == Some(n);
    assert FinishStep(s, t, qpc).order[|s.order|] == n;
    DoneBefore(s, n);
    LaterWaits(s, n);
  }

  lemma DoneBefore(s: Machine, n: nat)
    requires InRingOrder(s)
    ensures n < |s.order| ==> n in s.order
  {
    if n < |s.order| { assert s.order[n] == n; }
  }

  // A piece that is neither next nor completed leaves the next one in some hand.
  lemma LaterWaits(s: Machine, n: nat)
    requires HandsOk(s) && InRingOrder(s) && |s.order| <= n < |s.pieces|
    ensures n != |s.order| <==>
      exists u :: 0 <= u < |s.drainers| && InHand(s.drainers[u]).Some? && InHand(s.drainers[u]).value < n
  {
    hide DrainerOk, Distinct;
    if n != |s.order| {
      assert Held(s, |s.order|);
    } else {
      forall u | 0 <= u < |s.drainers| && InHand(s.drainers[u]).Some? ensures InHand(s.drainers[u]).value >= n {
        var k := InHand(s.drainers[u]).value;
        DoneBefore(s, k);
      }
    }
  }

  lemma MoveInOrder(s: Machine, m: Move)
    requires Inv(s) && InRingOrder(s) && Enabled(s, m)
    ensures InRingOrder(Apply(s, m)) <==> !Overtakes(s, m)
  {
    hide RingParts, HandsOk, GotOk, MarksOk, IoctlModel.PcmCap;
    match m
    case Finish(t, qpc) => FinishInOrder(s, t, qpc);
    case _ =>
  }

  ghost predicate AlwaysInOrder(s: Machine, moves: seq<Move>)
    decreases |moves|
  {
    InRingOrder(s) && (moves == [] || (Enabled(s, moves[0]) && AlwaysInOrder(Apply(s, moves[0]), moves[1..])))
  }

  ghost predicate NeverOvertakes(s: Machine, moves: seq<Move>)
    decreases |moves|
  {
    moves == [] || (Enabled(s, moves[0]) && !Overtakes(s, moves[0]) && NeverOvertakes(Apply(s, moves[0]), moves[1..]))
  }

  lemma {:induction false} RunInOrder(s: Machine, moves: seq<Move>)
    requires Inv(s) && InRingOrder(s)
    ensures AlwaysInOrder(s, moves) <==> NeverOvertakes(s, moves)
    decreases |moves|
  {
    hide Inv, InRingOrder, Overtakes, Enabled, Apply;
    if moves != [] && Enabled(s, moves[0]) {
      MoveKeeps(s, moves[0]);
      MoveInOrder(s, moves[0]);
      if InRingOrder(Apply(s, moves[0])) { RunInOrder(Apply(s, moves[0]), moves[1..]); }
    }
  }

  // Whatever the requests and drainers: a run delivers the ring's pieces in order, in
  // every one of its states, if and only if no packet of it overtakes another.
  lemma OrderedExactly(n: nat, moves: seq<Move>)
    ensures AlwaysInOrder(Start0(n), moves) <==> NeverOvertakes(Start0(n), moves)
  {
    hide Inv;
    StartInv(n);
    RunInOrder(Start0(n), moves);
  }

  // What being in order means to the service.
  lemma InOrderHeard(s: Machine)
    requires Reachable(s) && InRingOrder(s)
    ensures |s.order| <= |s.pieces| && SamplesOf(GotAll(s.done)) == Samples(Joined(s.pieces[..|s.order|]))
  {
    hide Samples, Joined, MarksOk, DrainerOk, Distinct, BoundedQueue.Thinned, GotAll;
    ReachableInv(s);
    if s.order != [] { assert s.order[|s.order| - 1] < |s.pieces|; }
    SamplesJoined(s.pieces, s.order, s.stamps);
  }

  // ----- runs -----

  lemma {:induction false} RunSnoc(s: Machine, moves: seq<Move>, s': Machine, m: Move)
    requires Run(s, moves, s') && Enabled(s', m)
    ensures Run(s, moves + [m], Apply(s', m))
    decreases |moves|
  {
    hide Enabled, Apply;
    if moves == [] {
      assert ([m])[1..] == [];
      assert moves + [m] == [m];
      assert Run(Apply(s, m), [], Apply(s', m));
    } else {
      RunSnoc(Apply(s, moves[0]), moves[1..], s', m);
      assert (moves + [m])[1..] == moves[1..] + [m];
    }
  }

  lemma Next(s: Machine, m: Move) returns (s': Machine)
    requires Reachable(s) && Enabled(s, m)
    ensures s' == Apply(s, m) && Reachable(s')
  {
    hide Enabled, Apply;
    var n: nat, moves :| Run(Start0(n), moves, s);
    RunSnoc(Start0(n), moves, s, m);
    s' := Apply(s, m);
    assert Run(Start0(n), moves + [m], s');
  }

  lemma {:induction false} AloneSnoc(s: Machine, moves: seq<Move>, s': Machine, m: Move)
    requires AloneRun(s, moves, s') && Enabled(s', m) && Lone(Apply(s', m))
    ensures AloneRun(s, moves + [m], Apply(s', m))
    decreases |moves|
  {
    hide Enabled, Apply, Lone;
    if moves == [] {
      assert ([m])[1..] == [];
      assert moves + [m] == [m];
      assert AloneRun(Apply(s, m), [], Apply(s', m));
    } else {
      AloneSnoc(Apply(s, moves[0]), moves[1..], s', m);
      assert (moves + [m])[1..] == moves[1..] + [m];
    }
  }

  lemma AloneNext(s: Machine, m: Move) returns (s': Machine)
    requires AloneReachable(s) && Enabled(s, m) && Lone(Apply(s, m))
    ensures s' == Apply(s, m) && AloneReachable(s')
  {
    hide Enabled, Apply, Lone;
    var n: nat, moves :| AloneRun(Start0(n), moves, s);
    AloneSnoc(Start0(n), moves, s, m);
    s' := Apply(s, m);
    assert AloneRun(Start0(n), moves + [m], s');
  }

  const FIRST: seq<Byte> := [1, 0, 1, 0]
  const SECOND: seq<Byte> := [2, 0, 2, 0]

  // A request with room for one frame.
  function Small(id: nat): (r: IoctlModel.AudioRequest)
    ensures |r.before| == HEADER_BYTES + FRAME_BYTES && r.stillMapped && r.id == id
  {
    IoctlModel.AudioRequest(id, 0, seq(HEADER_BYTES + FRAME_BYTES, _ => 0), true, true, true)
  }

  // It takes one frame out of the ring.
  lemma ReadsOne(s: Machine, t: nat, id: nat)
    requires t < |s.drainers| && s.drainers[t] == Claimed(Small(id)) && |s.ring.items| >= FRAME_BYTES
    ensures Enabled(s, ReadRing(t))
    ensures var pcm := s.ring.items[..FRAME_BYTES];
      Apply(s, ReadRing(t)) == s.(
        ring := s.ring.(items := s.ring.items[FRAME_BYTES..], out := s.ring.out + pcm),
        pieces := s.pieces + [Piece(pcm, None, Place(s.taken + 1, s.position, s.coming))],
        taken := s.taken + 1,
        drainers := s.drainers[t := DrainMachine.Filled(Small(id), |s.pieces|)])
  {
    hide Small;
    assert IoctlModel.PcmCap(HEADER_BYTES + FRAME_BYTES) == FRAME_BYTES;
  }

  lemma FramesApart()
    ensures (FIRST + SECOND)[..FRAME_BYTES] == FIRST && (FIRST + SECOND)[FRAME_BYTES..] == SECOND
    ensures FIRST[..FRAME_BYTES] == FIRST && FIRST[FRAME_BYTES..] == []
    ensures SECOND[..FRAME_BYTES] == SECOND && SECOND[FRAME_BYTES..] == []
    ensures Samples(FIRST + SECOND) == [1, 1, 2, 2] && Samples(FIRST) == [1, 1] && Samples(SECOND) == [2, 2]
  {
    assert Samples(FIRST[2..]) == [1];
    assert Samples(SECOND[2..]) == [2];
    SamplesConcat(FIRST, SECOND);
  }

  // It is all that the ring then holds.
  lemma Produces(s: Machine, pcm: seq<Byte>)
    requires s.ring.items == [] && |pcm| == FRAME_BYTES && !s.starting && s.coming == 0
    ensures Enabled(s, Produce(pcm))
    ensures Apply(s, Produce(pcm)) ==
      s.(ring := s.ring.(items := pcm), fed := s.fed + pcm, coming := 1, written := s.written + 1)
  {
    assert [] + pcm == pcm;
  }

  // Two drainers have claimed a request each.
  lemma TwoClaimed() returns (s: Machine)
    ensures Reachable(s) && s.drainers == [Claimed(Small(0)), Claimed(Small(1))]
    ensures s.ring.items == FIRST + SECOND && s.ring.out == [] && s.pieces == [] && s.order == []
  {
    hide Reachable, Small;
    s := Started(2);
    s := Next(s, Issue(Small(0)));
    s := Next(s, Issue(Small(1)));
    s := Next(s, Produce(FIRST + SECOND));
    assert s.pending == [Small(0), Small(1)];
    s := TakesUp(s, 0);
    s := TakesUp(s, 1);
  }

  // A drainer sees the ring and claims the first request.
  lemma TakesUp(s: Machine, t: nat) returns (s': Machine)
    requires Reachable(s) && t < |s.drainers| && s.drainers[t] == Away
    requires |s.ring.items| >= FRAME_BYTES && s.pending != []
    ensures Reachable(s')
    ensures s' == s.(pending := s.pending[1..], drainers := s.drainers[t := Claimed(s.pending[0])])
  {
    hide Reachable;
    s' := Next(s, Look(t));
    s' := Next(s', Claim(t));
  }

  // A drainer with a piece completes its request.
  lemma Sends(s: Machine, t: nat) returns (s': Machine)
    requires Reachable(s) && t < |s.drainers| && s.drainers[t].Filled? && s.drainers[t].n < |s.pieces|
    requires HEADER_BYTES + |s.pieces[s.drainers[t].n].pcm| <= |s.drainers[t].r.before|
    ensures Reachable(s') && s'.ring == s.ring && s'.drainers == s.drainers[t := Away]
    ensures s'.order == s.order + [s.drainers[t].n] && |s'.pieces| == |s.pieces|
    ensures forall n :: 0 <= n < |s.pieces| ==> s'.pieces[n].pcm == s.pieces[n].pcm
  {
    hide Reachable, IoctlProof.Packed;
    s' := Next(s, Exchange(t));
    s' := Next(s', Finish(t, 0));
  }

  // The second reads the ring before the first and completes its request after it:
  // nothing is left under way, and the service hears the two frames swapped.
  lemma OrderRace() returns (s: Machine)
    ensures Reachable(s) && s.drainers == [Away, Away] && s.order == [1, 0]
    ensures Samples(s.ring.out) == [1, 1, 2, 2]
    ensures SamplesOf(GotAll(s.done)) == [2, 2, 1, 1]
  {
    hide Reachable, Small, GotAll, SamplesOf, Samples;
    FramesApart();
    s := BothRead();
    s := Sends(s, 0);
    s := Sends(s, 1);
    Swapped(s);
  }

  lemma BothRead() returns (s: Machine)
    ensures Reachable(s) && s.ring.out == FIRST + SECOND && s.order == []
    ensures s.drainers == [DrainMachine.Filled(Small(0), 1), DrainMachine.Filled(Small(1), 0)]
    ensures |s.pieces| == 2 && s.pieces[0].pcm == FIRST && s.pieces[1].pcm == SECOND
  {
    hide Reachable, Small, BoundedQueue.Step;
    FramesApart();
    s := TwoClaimed();
    ReadsOne(s, 1, 1);
    s := Next(s, ReadRing(1));
    ReadsOne(s, 0, 0);
    s := Next(s, ReadRing(0));
    assert [] + FIRST + SECOND == FIRST + SECOND;
  }

  lemma Swapped(s: Machine)
    requires Reachable(s) && s.order == [1, 0] && |s.pieces| == 2
    requires s.pieces[0].pcm == FIRST && s.pieces[1].pcm == SECOND
    ensures SamplesOf(GotAll(s.done)) == [2, 2, 1, 1]
  {
    hide Reachable, Samples, Joined, BoundedQueue.Thinned, GotAll, SamplesOf;
    EveryPieceOnce(s);
    FramesApart();
    var a, b := Meant(s.pieces[0], s.stamps[1]), Meant(s.pieces[1], s.stamps[0]);
    assert MeantAll(s.pieces, s.order, s.stamps) == [] + [b] + [a];
    SamplesMore([] + [b], a);
    SamplesMore([], b);
    NothingHeard();
  }

  lemma NothingHeard()
    ensures SamplesOf([]) == []
  {
  }

  // One request at a time. The flag is raised between the read and the exchange of a
  // drainer: its packet of the previous stream takes the flag, and the first packet of
  // the new stream is unmarked.
  lemma MarkRace() returns (s: Machine)
    ensures AloneReachable(s) && s.drainers == [Away] && s.order == [0, 1]
    ensures s.started && s.stale && s.first == 1
    ensures s.pieces == [Piece(FIRST, Some(true), Place(1, 0, 1)), Piece(SECOND, Some(false), Place(1, 0, 1))]
  {
    hide AloneReachable, Small, IoctlProof.Packed, Samples, BoundedQueue.Newest;
    FramesApart();
    s := OneRead();
    s := AloneNext(s, Count);
    s := AloneNext(s, ResetRing);
    s := AloneNext(s, ZeroPosition);
    s := AloneNext(s, RaiseRestart);
    s := AloneNext(s, Exchange(0));
    s := AloneNext(s, Finish(0, 0));
    s := AloneNext(s, Issue(Small(1)));
    Produces(s, SECOND);
    s := AloneNext(s, Produce(SECOND));
    s := AloneNext(s, Look(0));
    s := AloneNext(s, Claim(0));
    ReadsOne(s, 0, 1);
    s := AloneNext(s, ReadRing(0));
    s := AloneNext(s, Exchange(0));
    s := AloneNext(s, Finish(0, 0));
  }

  // A drainer is done with a frame that the producer has not counted yet: the packet
  // says position 0, though it ends behind the first frame.
  lemma PositionRace() returns (s: Machine)
    ensures AloneReachable(s) && s.order == [0] && s.stamps == [0] && s.written == 1 && s.first == 0
    ensures |s.pieces| == 1 && s.pieces[0].place.end == 1
  {
    hide AloneReachable, Small, IoctlProof.Packed, BoundedQueue.Newest;
    s := OneRead();
    s := AloneNext(s, Exchange(0));
    s := AloneNext(s, Finish(0, 0));
  }

  // A drainer has read the only frame, which is not counted yet.
  lemma OneRead() returns (s: Machine)
    ensures AloneReachable(s)
    ensures s.(ring := s.ring.(out := [])) ==
      Start0(1).(drainers := [DrainMachine.Filled(Small(0), 0)], pieces := [Piece(FIRST, None, Place(1, 0, 1))],
                 fed := FIRST, coming := 1, written := 1, taken := 1)
  {
    hide Small, Samples, AloneReachable, IoctlProof.Packed, BoundedQueue.Newest;
    FramesApart();
    s := AloneStarted();
    s := AloneNext(s, Issue(Small(0)));
    Produces(s, FIRST);
    s := AloneNext(s, Produce(FIRST));
    s := AloneNext(s, Look(0));
    s := AloneNext(s, Claim(0));
    ReadsOne(s, 0, 0);
    s := AloneNext(s, ReadRing(0));
  }

  lemma AloneStarted() returns (s: Machine)
    ensures s == Start0(1) && AloneReachable(s)
  {
    s := Start0(1);
    assert AloneRun(Start0(1), [], s);
  }

  lemma Started(n: nat) returns (s: Machine)
    ensures s == Start0(n) && Reachable(s)
  {
    s := Start0(n);
    assert Run(Start0(n), [], s);
  }
}
