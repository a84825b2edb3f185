/**
 Runs of DrainMachine with at most one uncompleted audio request at a time, as the
 service makes them: then the packets arrive in the order of the ring, and the first
 of a stream carries the restart flag unless a drainer kept an older one back.
 */
module DrainAlone {
  import opened Common
  import opened BoundedQueue
  import opened Packets
  import IoctlModel
  import opened DrainMachine

  predicate Busy(d: Drainer) {
    d.Claimed? || d.Filled? || d.Flagged?
  }

  // At most one request is pending or in the hand of a drainer.
  predicate Lone(s: Machine) {
    && |s.pending| <= 1
    && (forall t :: 0 <= t < |s.drainers| && Busy(s.drainers[t]) ==> s.pending == [])
    && (forall t, u :: 0 <= t < u < |s.drainers| ==> !(Busy(s.drainers[t]) && Busy(s.drainers[u])))
  }

  // The pieces are completed in their order, and at most one is under way.
  predicate OrderOk(s: Machine) {
    && (forall k :: 0 <= k < |s.order| ==> s.order[k] == k)
    && |s.order| <= |s.pieces| <= |s.order| + 1
    && (forall t :: 0 <= t < |s.drainers| && InHand(s.drainers[t]).Some? ==>
          InHand(s.drainers[t]) == Some(|s.order|) && |s.pieces| == |s.order| + 1)
  }

  predicate KeepsBack(s: Machine, t: nat)
    requires t < |s.drainers|
  {
    s.drainers[t].Filled? && s.drainers[t].n < s.first
  }

  // The first exchange after the raising is that of the piece kept back, if there was
  // one, and of the first new one otherwise.
  predicate TrailOk(s: Machine) {
    s.started && !s.starting ==>
      && (!s.stale ==> forall t :: 0 <= t < |s.drainers| ==> !KeepsBack(s, t))
      && (s.stale && s.trail == [] ==> exists t :: 0 <= t < |s.drainers| && KeepsBack(s, t))
      && (s.trail != [] ==> s.trail[0] == if s.stale then s.first - 1 else s.first)
  }

  ghost predicate AloneInv(s: Machine) {
    Inv(s) && Lone(s) && OrderOk(s) && TrailOk(s)
  }

  // ----- one move -----

  lemma MoveKeepsOrder(s: Machine, m: Move)
    requires AloneInv(s) && Enabled(s, m)
    ensures OrderOk(Apply(s, m))
  {
    hide Inv, TrailOk, OrderOk, Lone;
    match m
    case ReadRing(t) => ReadKeepsOrder(s, t);
    case Finish(t, qpc) => FinishKeepsOrder(s, t, qpc);
    case Exchange(t) => DrainerKeepsOrder(s, Apply(s, m), t);
    case Look(t) => DrainerKeepsOrder(s, Apply(s, m), t);
    case Claim(t) => DrainerKeepsOrder(s, Apply(s, m), t);
    case _ => SameOrder(s, Apply(s, m));
  }

  lemma SameOrder(s: Machine, s': Machine)
    requires OrderOk(s) && s'.order == s.order && s'.pieces == s.pieces && s'.drainers == s.drainers
    ensures OrderOk(s')
  {
  }

  lemma DrainerKeepsOrder(s: Machine, s': Machine, t: nat)
    requires OrderOk(s) && s'.order == s.order && |s'.pieces| == |s.pieces| && |s'.drainers| == |s.drainers|
    requires t < |s.drainers| && InHand(s'.drainers[t]) == InHand(s.drainers[t])
    requires forall u :: 0 <= u < |s.drainers| && u != t ==> s'.drainers[u] == s.drainers[u]
    ensures OrderOk(s')
  {
  }

  lemma FinishKeepsOrder(s: Machine, t: nat, qpc: nat)
    requires AloneInv(s) && Enabled(s, Finish(t, qpc))
    ensures OrderOk(FinishStep(s, t, qpc))
  {
    hide Inv, TrailOk;
    OthersInHand(s, t);
    assert InHand(s.drainers[t]) == Some(|s.order|);
  }

  // The request being alone, every earlier piece is completed.
  lemma ReadKeepsOrder(s: Machine, t: nat)
    requires AloneInv(s) && Enabled(s, ReadRing(t))
    ensures OrderOk(ReadStep(s, t))
  {
    hide Inv, TrailOk, IoctlModel.PcmCap;
    OthersInHand(s, t);
    assert HandsOk(s) by { InvHands(s); }
    NoneInHand(s);
  }

  lemma InvHands(s: Machine)
    requires Inv(s)
    ensures HandsOk(s)
  {
    hide HandsOk, RingParts, GotOk, MarksOk;
  }

  lemma OthersInHand(s: Machine, t: nat)
    requires Lone(s) && t < |s.drainers| && Busy(s.drainers[t])
    ensures forall u :: 0 <= u < |s.drainers| && u != t ==> InHand(s.drainers[u]) == None
  {
    forall u | 0 <= u < |s.drainers| && u != t ensures InHand(s.drainers[u]) == None {
      assert !(Busy(s.drainers[t]) && Busy(s.drainers[u]));
    }
  }

  lemma NoneInHand(s: Machine)
    requires HandsOk(s) && OrderOk(s)
    requires forall t :: 0 <= t < |s.drainers| ==> InHand(s.drainers[t]) == None
    ensures |s.pieces| == |s.order|
  {
    hide HandsOk;
    HandOrDone(s, |s.order|);
  }

  lemma HandOrDone(s: Machine, n: nat)
    requires HandsOk(s)
    ensures n < |s.pieces| ==> n in s.order || Held(s, n)
  {
    hide DrainerOk, Distinct, Held;
  }

  lemma DoneIsMarked(s: Machine, n: nat)
    requires HandsOk(s) && OrderOk(s)
    ensures n < |s.order| ==> s.pieces[n].mark.Some?
  {
    hide DrainerOk, Held, Distinct;
    assert n < |s.order| ==> s.order[n] == n;
  }

  lemma RaiseKeepsTrail(s: Machine)
    requires AloneInv(s) && Enabled(s, RaiseRestart)
    ensures TrailOk(Apply(s, RaiseRestart))
  {
    hide RingParts, GotOk, Lone, TrailOk, DrainerOk;
    var s' := Apply(s, RaiseRestart);
    forall t | 0 <= t < |s.drainers| && s.drainers[t].Filled? ensures KeepsBack(s', t) {
      assert InHand(s.drainers[t]) == Some(|s.order|);
    }
    TrailIs(s');
  }

  lemma TrailIs(s: Machine)
    requires s.trail == []
    requires s.stale <==> exists t :: 0 <= t < |s.drainers| && s.drainers[t].Filled?
    requires forall t :: 0 <= t < |s.drainers| && s.drainers[t].Filled? ==> KeepsBack(s, t)
    ensures TrailOk(s)
  {
  }

  lemma ExchangeKeepsTrail(s: Machine, t: nat)
    requires AloneInv(s) && Enabled(s, Exchange(t))
    ensures TrailOk(Apply(s, Exchange(t)))
  {
    hide RingParts, GotOk, DrainerOk, Held, Distinct, Lone;
    var s' := Apply(s, Exchange(t));
    var n := s.drainers[t].n;
    assert InHand(s.drainers[t]) == Some(n);
    OthersInHand(s, t);
    forall u | 0 <= u < |s'.drainers| ensures !s'.drainers[u].Filled? {
      assert u != t ==> InHand(s.drainers[u]) == None;
    }
    if s.started && !s.starting && s.trail == [] {
      assert s'.trail == [n];
      if s.stale {
        var u :| 0 <= u < |s.drainers| && KeepsBack(s, u);
        assert u == t;
      } else {
        assert !KeepsBack(s, t);
        DoneIsMarked(s, s.first);
      }
    }
  }

  lemma MoveKeepsTrail(s: Machine, m: Move)
    requires AloneInv(s) && Enabled(s, m)
    ensures TrailOk(Apply(s, m))
  {
    hide RingParts, GotOk, MarksOk, IoctlModel.PcmCap, HandsOk, OrderOk, Newest, Lone;
    match m
    case RaiseRestart => RaiseKeepsTrail(s);
    case Exchange(t) => ExchangeKeepsTrail(s, t);
    case Look(t) => OthersKeepTrail(s, t, Looked);
    case Claim(t) => OthersKeepTrail(s, t, Apply(s, m).drainers[t]);
    case ReadRing(t) => ReadKeepsTrail(s, t);
    case Finish(t, _) => OthersKeepTrail(s, t, Away);
    case ResetRing =>
    case _ => assert forall t :: 0 <= t < |s.drainers| ==> (KeepsBack(Apply(s, m), t) <==> KeepsBack(s, t));
  }

  lemma ReadKeepsTrail(s: Machine, t: nat)
    requires TrailOk(s) && MarksOk(s) && Enabled(s, ReadRing(t))
    ensures TrailOk(ReadStep(s, t))
  {
    hide IoctlModel.PcmCap;
    OthersKeepTrail(s, t, ReadStep(s, t).drainers[t]);
  }

  predicate OnlyDrainer(s: Machine, t: nat, d: Drainer, s': Machine)
    requires t < |s.drainers|
  {
    && s'.drainers == s.drainers[t := d] && s'.first == s.first && s'.trail == s.trail
    && s'.stale == s.stale && s'.started == s.started && s'.starting == s.starting
  }

  // A drainer that keeps nothing back, before and after.
  lemma OthersKeepTrail(s: Machine, t: nat, d: Drainer)
    requires TrailOk(s) && t < |s.drainers| && !KeepsBack(s, t) && !(d.Filled? && d.n < s.first)
    ensures forall s': Machine :: OnlyDrainer(s, t, d, s') ==> TrailOk(s')
  {
    forall s': Machine | OnlyDrainer(s, t, d, s') ensures TrailOk(s') {
      forall u | 0 <= u < |s.drainers| && KeepsBack(s, u) ensures KeepsBack(s', u) {}
      forall u | 0 <= u < |s.drainers| && KeepsBack(s', u) ensures KeepsBack(s, u) {}
    }
  }

  // ----- runs -----

  ghost predicate AloneRun(s: Machine, moves: seq<Move>, s': Machine)
    decreases |moves|
  {
    Lone(s) && if moves == [] then s' == s else Enabled(s, moves[0]) && AloneRun(Apply(s, moves[0]), moves[1..], s')
  }

  lemma {:induction false} AloneRunKeeps(s: Machine, moves: seq<Move>, s': Machine)
    requires AloneInv(s) && AloneRun(s, moves, s')
    ensures AloneInv(s')
    decreases |moves|
  {
    hide Inv, OrderOk, TrailOk, Lone, Apply, Enabled;
    if moves != [] {
      MoveKeeps(s, moves[0]);
      MoveKeepsOrder(s, moves[0]);
      MoveKeepsTrail(s, moves[0]);
      AloneRunKeeps(Apply(s, moves[0]), moves[1..], s');
    }
  }

  ghost predicate AloneReachable(s: Machine) {
    exists n: nat, moves :: AloneRun(Start0(n), moves, s)
  }

  lemma AloneReachableInv(s: Machine)
    requires AloneReachable(s)
    ensures AloneInv(s)
  {
    hide Inv;
    var n: nat, moves :| AloneRun(Start0(n), moves, s);
    StartInv(n);
    AloneRunKeeps(Start0(n), moves, s);
  }

  // ----- the theorems -----

  // The samples of packets, end to end.
  function SamplesOf(got: seq<Got>): seq<int> {
    if got == [] then [] else SamplesOf(got[..|got| - 1]) + got[|got| - 1].samples
  }

  lemma {:induction false} SamplesJoined(pieces: seq<Piece>, order: seq<nat>, stamps: seq<nat>)
    requires |stamps| == |order| <= |pieces| && forall k :: 0 <= k < |order| ==> order[k] == k
    requires forall n :: 0 <= n < |pieces| ==> |pieces[n].pcm| % FRAME_BYTES == 0
    ensures |Joined(pieces[..|order|])| % FRAME_BYTES == 0
    ensures SamplesOf(MeantAll(pieces, order, stamps)) == Samples(Joined(pieces[..|order|]))
    decreases |order|
  {
    hide Samples, Joined;
    if order == [] {
      assert pieces[..0] == [];
      NoSamples();
    } else {
      var k := |order| - 1;
      SamplesJoined(pieces, order[..k], stamps[..k]);
      OneMoreJoined(pieces, order[..k], stamps[..k], stamps[k]);
      assert order[..k] + [k] == order && stamps[..k] + [stamps[k]] == stamps;
    }
  }

  lemma OneMoreJoined(pieces: seq<Piece>, order: seq<nat>, stamps: seq<nat>, q: nat)
    requires Within(order, |pieces|) && |stamps| == |order| < |pieces|
    requires |pieces[|order|].pcm| % FRAME_BYTES == 0
    requires |Joined(pieces[..|order|])| % FRAME_BYTES == 0
    requires SamplesOf(MeantAll(pieces, order, stamps)) == Samples(Joined(pieces[..|order|]))
    ensures |Joined(pieces[..|order| + 1])| % FRAME_BYTES == 0
    ensures SamplesOf(MeantAll(pieces, order + [|order|], stamps + [q])) == Samples(Joined(pieces[..|order| + 1]))
  {
    hide Samples, Joined, SamplesOf, MeantAll, Meant;
    var k := |order|;
    MeantMore(pieces, order, stamps, q);
    MeantSamples(pieces[k], q);
    SamplesMore(MeantAll(pieces, order, stamps), Meant(pieces[k], q));
    assert pieces[..k + 1] == pieces[..k] + [pieces[k]];
    JoinedMore(pieces[..k], pieces[k]);
    FramesEven(|Joined(pieces[..k])|, |pieces[k].pcm|);
    SamplesConcat(Joined(pieces[..k]), pieces[k].pcm);
  }

  lemma FramesEven(a: nat, b: nat)
    requires a % FRAME_BYTES == 0 && b % FRAME_BYTES == 0
    ensures a % 2 == 0 && (a + b) % FRAME_BYTES == 0
  {
    var i, j := a / 4, b / 4;
    assert a == 4 * i == 2 * (2 * i) && b == 4 * j;
    assert a + b == 4 * (i + j);
  }

  lemma MeantMore(pieces: seq<Piece>, order: seq<nat>, stamps: seq<nat>, q: nat)
    requires Within(order, |pieces|) && |stamps| == |order| < |pieces|
    ensures MeantAll(pieces, order + [|order|], stamps + [q])
         == MeantAll(pieces, order, stamps) + [Meant(pieces[|order|], q)]
  {
    hide Meant;
  }

  lemma MeantSamples(p: Piece, q: nat)
    ensures Meant(p, q).samples == Samples(p.pcm)
  {
    hide Samples;
  }

  lemma SamplesMore(got: seq<Got>, g: Got)
    ensures SamplesOf(got + [g]) == SamplesOf(got) + g.samples
  {
    assert (got + [g])[..|got|] == got;
  }

  lemma NoSamples()
    ensures Joined([]) == [] && Samples([]) == []
  {
  }

  // In every interleaving the service gets the pieces in the order in which they left
  // the ring: its samples are those of the ring's output, but for the one piece that may
  // still be in hand.
  lemma HeardInOrder(s: Machine)
    requires AloneReachable(s)
    ensures |s.order| <= |s.pieces| <= |s.order| + 1
    ensures SamplesOf(GotAll(s.done)) == Samples(Joined(s.pieces[..|s.order|]))
    ensures (forall t :: 0 <= t < |s.drainers| ==> InHand(s.drainers[t]) == None) ==>
      SamplesOf(GotAll(s.done)) == Samples(s.ring.out)
  {
    hide Samples, Joined, MarksOk, TrailOk, DrainerOk, Distinct, Thinned, Lone;
    AloneReachableInv(s);
    SamplesJoined(s.pieces, s.order, s.stamps);
    if forall t :: 0 <= t < |s.drainers| ==> InHand(s.drainers[t]) == None {
      NoneInHand(s);
      assert s.pieces[..|s.order|] == s.pieces;
    }
  }

  // The first packet since a stream start is marked if and only if, when the flag was
  // raised, no drainer was between its read and its exchange; no later one ever is.
  lemma RestartMarksFirst(s: Machine, n: nat)
    requires AloneReachable(s) && s.started && !s.starting && s.first <= n < |s.pieces| && s.pieces[n].mark.Some?
    ensures s.pieces[n].mark.value <==> n == s.first && !s.stale
  {
    hide RingParts, GotOk, HandsOk, Lone, OrderOk;
    AloneReachableInv(s);
    var k :| 0 <= k < |s.trail| && s.trail[k] == n;
  }
}
