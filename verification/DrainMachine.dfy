/**
 The audio requests of one device context with their contents, one step of a
 drainer at a time: what reaches the service, in which order, and which packet
 carries the restart flag, in every interleaving.

 A drainer is a thread inside IoctlTryCompleteAudio. The reading of the ring and
 the exchange of PendingStreamRestart are separate steps. So are the write to the
 ring and the counting of its frames in IoctlAudioProduce, and the reset of the ring,
 the zeroing of the position and the raising of that flag in IoctlOnStreamStart.
 Nothing is produced during the latter: the timer of the stream is started behind it.

 Fields marked "auxiliary" are history.
 */
module DrainMachine {
  import opened Common
  import opened BoundedQueue
  import opened Packets
  import opened IoctlModel
  import opened IoctlProof

  datatype Drainer =
    | Away
    | Looked                                        // saw a frame in the ring
    | Claimed(r: AudioRequest)
    | Filled(r: AudioRequest, n: nat)               // with the n-th piece of the ring
    | Flagged(r: AudioRequest, n: nat, restart: bool)

  // Of a piece (auxiliary): the frames read since the last reset up to its end and,
  // when it was read, the position and the frames written but not counted yet.
  datatype Place = Place(end: nat, counted: nat, coming: nat)

  // A piece read from the ring, and the flag it got, once it did (auxiliary).
  datatype Piece = Piece(pcm: seq<Byte>, mark: Option<bool>, place: Place)

  datatype Machine = Machine(
    ring: Queue<Byte>,
    restart: bool,           // PendingStreamRestart
    position: nat,           // StreamPositionFrames, before it wraps
    coming: nat,             // frames written by IoctlAudioProduce that it has not counted yet
    starting: bool,          // inside IoctlOnStreamStart
    pending: seq<AudioRequest>,
    drainers: seq<Drainer>,
    done: seq<AudioDone>,
    fed: seq<Byte>,          // auxiliary: everything produced
    pieces: seq<Piece>,      // auxiliary: in the order in which they left the ring
    order: seq<nat>,         // auxiliary: the pieces in the order of completion
    stamps: seq<nat>,        // auxiliary: the positions they were completed with
    written: nat,            // auxiliary: frames written since the last reset
    taken: nat,              // auxiliary: frames read since then
    started: bool,           // auxiliary: there was a stream start
    first: nat,              // auxiliary: |pieces| at the last reset of the ring
    stale: bool,             // auxiliary: at the last raising, a drainer was between its read and its exchange
    trail: seq<nat>)         // auxiliary: the pieces that got their flag since then

  datatype Move =
    | Issue(r: AudioRequest)
    | Withdraw(k: nat, status: Status) // a stop, a cleanup, a close or a cancellation
    | Produce(pcm: seq<Byte>)
    | Count
    | ResetRing
    | ZeroPosition
    | RaiseRestart
    | Look(t: nat)
    | Claim(t: nat)
    | ReadRing(t: nat)
    | Exchange(t: nat)
    | Finish(t: nat, qpc: nat)

  function Start0(drainers: nat): Machine {
    Machine(Empty(), false, 0, 0, false, [], seq(drainers, _ => Away), [], [], [], [], [], 0, 0, false, 0, false, [])
  }

  predicate Enabled(s: Machine, m: Move) {
    match m
    case Issue(r) => |r.before| >= HEADER_BYTES + FRAME_BYTES
    case Withdraw(k, status) => k < |s.pending|
    case Produce(pcm) => |pcm| % FRAME_BYTES == 0 && !s.starting && s.coming == 0
    case Count => s.coming > 0
    case ResetRing => !s.starting && s.coming == 0
    case ZeroPosition => s.starting
    case RaiseRestart => s.starting && s.position == 0
    case Look(t) => t < |s.drainers| && s.drainers[t] == Away && |s.ring.items| >= FRAME_BYTES
    case Claim(t) => t < |s.drainers| && s.drainers[t] == Looked
    case ReadRing(t) =>
      t < |s.drainers| && s.drainers[t].Claimed? && |s.drainers[t].r.before| >= HEADER_BYTES + FRAME_BYTES
    case Exchange(t) => t < |s.drainers| && s.drainers[t].Filled? && s.drainers[t].n < |s.pieces|
    case Finish(t, _) =>
      && t < |s.drainers| && s.drainers[t].Flagged? && s.drainers[t].n < |s.pieces|
      && HEADER_BYTES + |s.pieces[s.drainers[t].n].pcm| <= |s.drainers[t].r.before|
  }

  function Set(s: Machine, t: nat, d: Drainer): Machine
    requires t < |s.drainers|
  {
    s.(drainers := s.drainers[t := d])
  }

  // A mapping may fail; a ring emptied meanwhile sends the request back to the head.
  function ReadStep(s: Machine, t: nat): Machine
    requires Enabled(s, ReadRing(t))
  {
    var r := s.drainers[t].r;
    if !r.stillMapped then
      Set(s.(done := s.done + [AudioDone(r.id, InsufficientResources, 0, r.before)]), t, Away)
    else
      var pcm := s.ring.items[..Taken(s.ring.items, PcmCap(|r.before|))];
      if pcm == [] then Set(s.(pending := [r] + s.pending), t, Away)
      else
        var end := s.taken + |pcm| / FRAME_BYTES;
        Set(s.(ring := Step(RING_BYTES, s.ring, Read(PcmCap(|r.before|))), taken := end,
               pieces := s.pieces + [Piece(pcm, None, Place(end, s.position, s.coming))]), t,
            Filled(r, |s.pieces|))
  }

  function FinishStep(s: Machine, t: nat, qpc: nat): Machine
    requires Enabled(s, Finish(t, qpc))
  {
    var Flagged(r, n, restart) := s.drainers[t];
    Set(s.(done := s.done + [Packed(r, s.pieces[n].pcm, restart, qpc, s.position)],
           order := s.order + [n], stamps := s.stamps + [s.position]), t, Away)
  }

  // A drainer is between its read and its exchange.
  predicate Between(s: Machine) {
    exists t :: 0 <= t < |s.drainers| && s.drainers[t].Filled?
  }

  function Apply(s: Machine, m: Move): Machine
    requires Enabled(s, m)
  {
    match m
    case Issue(r) => s.(pending := s.pending + [r])
    case Withdraw(k, status) =>
      var r := s.pending[k];
      s.(pending := s.pending[..k] + s.pending[k + 1..],
         done := s.done + [AudioDone(r.id, status, 0, r.before)])
    case Produce(pcm) =>
      s.(ring := Step(RING_BYTES, s.ring, Write(pcm)), fed := s.fed + pcm,
         coming := |pcm| / FRAME_BYTES, written := s.written + |pcm| / FRAME_BYTES)
    case Count => s.(position := s.position + s.coming, coming := 0)
    case ResetRing =>
      s.(ring := Step(RING_BYTES, s.ring, Reset), starting := true, first := |s.pieces|, written := 0, taken := 0)
    case ZeroPosition => s.(position := 0)
    case RaiseRestart => s.(restart := true, starting := false, started := true, stale := Between(s), trail := [])
    case Look(t) => Set(s, t, Looked)
    case Claim(t) =>
      if s.pending == [] then Set(s, t, Away)
      else Set(s.(pending := s.pending[1..]), t, Claimed(s.pending[0]))
    case ReadRing(t) => ReadStep(s, t)
    case Exchange(t) =>
      var Filled(r, n) := s.drainers[t];
      var marked := s.pieces[n].(mark := Some(s.restart));
      Set(s.(restart := false, pieces := s.pieces[n := marked], trail := s.trail + [n]), t, Flagged(r, n, s.restart))
    case Finish(t, qpc) => FinishStep(s, t, qpc)
  }

  ghost predicate Run(s: Machine, moves: seq<Move>, s': Machine)
    decreases |moves|
  {
    if moves == [] then s' == s
    else Enabled(s, moves[0]) && Run(Apply(s, moves[0]), moves[1..], s')
  }

  // ----- what the service gets -----

  datatype Got = Got(samples: seq<int>, restart: bool, position: nat)

  // The packet that the service decodes, if the completion carries one.
  function GotOne(c: AudioDone): seq<Got> {
    if c.status != Success || c.information == 0 || c.information > |c.buffer| then []
    else
      match Receive(c.buffer, c.information)
      case Ok(p) => [Got(p.samples, p.flags == FLAG_STREAM_RESTART, p.streamPosition)]
      case Err(_) => []
  }

  function GotAll(done: seq<AudioDone>): seq<Got> {
    if done == [] then [] else GotAll(done[..|done| - 1]) + GotOne(done[|done| - 1])
  }

  // What a piece, completed at that position, is for the service.
  function Meant(p: Piece, position: nat): Got {
    Got(Samples(p.pcm), p.mark == Some(true), position % U64)
  }

  predicate Within(order: seq<nat>, n: nat) {
    forall k :: 0 <= k < |order| ==> order[k] < n
  }

  function MeantAll(pieces: seq<Piece>, order: seq<nat>, stamps: seq<nat>): (g: seq<Got>)
    requires Within(order, |pieces|) && |stamps| == |order|
    ensures |g| == |order|
  {
    seq(|order|, k requires 0 <= k < |order| => Meant(pieces[order[k]], stamps[k]))
  }

  // The pieces end to end.
  function Joined(pieces: seq<Piece>): seq<Byte> {
    if pieces == [] then [] else Joined(pieces[..|pieces| - 1]) + pieces[|pieces| - 1].pcm
  }

  // ----- the invariant -----

  // The piece a drainer has in hand.
  function InHand(d: Drainer): Option<nat> {
    match d
    case Filled(_, n) => Some(n)
    case Flagged(_, n, _) => Some(n)
    case _ => None
  }

  predicate DrainerOk(pieces: seq<Piece>, d: Drainer) {
    && (d.Claimed? || d.Filled? || d.Flagged? ==> |d.r.before| >= HEADER_BYTES + FRAME_BYTES)
    && (d.Filled? || d.Flagged? ==> d.n < |pieces| && HEADER_BYTES + |pieces[d.n].pcm| <= |d.r.before|)
    && (d.Filled? ==> pieces[d.n].mark == None)
    && (d.Flagged? ==> pieces[d.n].mark == Some(d.restart))
  }

  predicate PieceOk(p: Piece) {
    p.pcm != [] && |p.pcm| % FRAME_BYTES == 0 && |p.pcm| <= MAX_PACKET_BYTES
  }

  ghost predicate RingParts(s: Machine) {
    && |s.ring.items| % FRAME_BYTES == 0
    && s.ring.out == Joined(s.pieces)
    && Thinned(s.ring.out + s.ring.items, s.fed)
    && (forall n :: 0 <= n < |s.pieces| ==> PieceOk(s.pieces[n]))
    && Admitted(s.pending)
  }

  predicate Distinct(l: seq<nat>) {
    forall i, j :: 0 <= i < j < |l| ==> l[i] != l[j]
  }

  // Every piece is in the hand of one drainer or was completed, and once.
  predicate HandsOk(s: Machine) {
    && (forall t :: 0 <= t < |s.drainers| ==> DrainerOk(s.pieces, s.drainers[t]))
    && (forall t, u :: 0 <= t < u < |s.drainers| && InHand(s.drainers[t]).Some? ==>
          InHand(s.drainers[t]) != InHand(s.drainers[u]))
    && (forall t :: 0 <= t < |s.drainers| && InHand(s.drainers[t]).Some? ==> InHand(s.drainers[t]).value !in s.order)
    && Within(s.order, |s.pieces|) && Distinct(s.order)
    && (forall k :: 0 <= k < |s.order| ==> s.pieces[s.order[k]].mark.Some?)
    && (forall n :: 0 <= n < |s.pieces| ==> n in s.order || Held(s, n))
  }

  predicate Held(s: Machine, n: nat) {
    exists t :: 0 <= t < |s.drainers| && InHand(s.drainers[t]) == Some(n)
  }

  predicate GotOk(s: Machine) {
    && Within(s.order, |s.pieces|) && |s.stamps| == |s.order|
    && GotAll(s.done) == MeantAll(s.pieces, s.order, s.stamps)
  }

  // Since the last start, the first piece to get its flag got the raised one.
  predicate MarksOk(s: Machine) {
    && s.first <= |s.pieces|
    && (s.starting ==> s.first == |s.pieces| && s.ring.items == [])
    && (s.started && !s.starting ==>
      && (s.restart <==> s.trail == [])
      && Within(s.trail, |s.pieces|)
      && (forall k :: 0 <= k < |s.trail| ==> s.pieces[s.trail[k]].mark == Some(k == 0))
      && (forall n :: s.first <= n < |s.pieces| && s.pieces[n].mark.Some? ==> n in s.trail))
  }

  // A piece of the current stream ends within what was written when it was read, and
  // its packet says a position between that at its read and the present one.
  predicate PlacesOk(s: Machine) {
    && (if s.starting then s.coming == s.written == s.taken == 0 else s.position + s.coming == s.written)
    && s.taken * FRAME_BYTES + |s.ring.items| <= s.written * FRAME_BYTES
    && (forall n :: s.first <= n < |s.pieces| ==> PlaceOk(s.pieces[n].place, s.position))
    && |s.stamps| == |s.order| && Within(s.order, |s.pieces|)
    && (forall k :: 0 <= k < |s.order| && s.first <= s.order[k] ==>
          s.pieces[s.order[k]].place.counted <= s.stamps[k] <= s.position)
  }

  predicate PlaceOk(p: Place, position: nat) {
    p.counted <= position && p.end <= p.counted + p.coming
  }

  ghost predicate Inv(s: Machine) {
    RingParts(s) && HandsOk(s) && GotOk(s) && MarksOk(s) && PlacesOk(s)
  }

  // ----- the ring -----

  lemma JoinedMore(pieces: seq<Piece>, p: Piece)
    ensures Joined(pieces + [p]) == Joined(pieces) + p.pcm
  {
    assert (pieces + [p])[..|pieces|] == pieces;
  }

  lemma {:induction false} JoinedMarked(pieces: seq<Piece>, n: nat, p: Piece)
    requires n < |pieces| && p.pcm == pieces[n].pcm
    ensures Joined(pieces[n := p]) == Joined(pieces)
  {
    var front := pieces[..|pieces| - 1];
    if n < |front| {
      JoinedMarked(front, n, p);
      assert pieces[n := p][..|front|] == front[n := p];
    } else {
      assert pieces[n := p][..|front|] == front;
    }
  }

  lemma ReadKeepsRing(s: Machine, t: nat)
    requires RingParts(s) && Enabled(s, ReadRing(t))
    ensures RingParts(ReadStep(s, t))
  {
    hide Thinned, Joined;
    var cap := PcmCap(|s.drainers[t].r.before|);
    var pcm := s.ring.items[..Taken(s.ring.items, cap)];
    TakenKeepsRing(s, cap, Piece(pcm, None, Place(s.taken + |pcm| / FRAME_BYTES, s.position, s.coming)));
  }

  lemma TakenKeepsRing(s: Machine, cap: nat, p: Piece)
    requires RingParts(s) && cap % FRAME_BYTES == 0 && 0 < cap <= MAX_PACKET_BYTES
    requires p.pcm == s.ring.items[..Taken(s.ring.items, cap)]
    ensures var ring, pieces := Step(RING_BYTES, s.ring, Read(cap)), s.pieces + [p];
      && |ring.items| % FRAME_BYTES == 0 && Thinned(ring.out + ring.items, s.fed)
      && ring.out == Joined(pieces)
      && (p.pcm != [] ==> PieceOk(p))
  {
    hide Thinned, Joined;
    var n := Taken(s.ring.items, cap);
    StepThinned(RING_BYTES, s.ring, Read(cap), s.fed);
    assert s.fed + [] == s.fed;
    JoinedMore(s.pieces, p);
    assert n % FRAME_BYTES == 0;
  }

  lemma MoveKeepsRing(s: Machine, m: Move)
    requires RingParts(s) && Enabled(s, m) && HandsOk(s)
    ensures RingParts(Apply(s, m))
  {
    hide Thinned, Joined, Newest, Held, Distinct;
    match m
    case Produce(pcm) =>
      StepThinned(RING_BYTES, s.ring, Write(pcm), s.fed);
      NewestFrames(s.ring.items + pcm);
    case ResetRing =>
      StepThinned(RING_BYTES, s.ring, Reset, s.fed);
      assert s.fed + [] == s.fed;
    case ReadRing(t) => ReadKeepsRing(s, t);
    case Exchange(t) =>
      var n := s.drainers[t].n;
      JoinedMarked(s.pieces, n, s.pieces[n].(mark := Some(s.restart)));
    case _ =>
  }

  // ----- hands -----

  // A drainer that takes up nothing and lays down nothing.
  lemma IdleKeepsHands(s: Machine, s': Machine, t: nat, d: Drainer)
    requires HandsOk(s) && t < |s.drainers| && InHand(s.drainers[t]) == None == InHand(d)
    requires s'.drainers == s.drainers[t := d] && s'.pieces == s.pieces && s'.order == s.order
    requires DrainerOk(s.pieces, d)
    ensures HandsOk(s')
  {
    hide DrainerOk;
    forall n | 0 <= n < |s'.pieces| && n !in s'.order ensures Held(s', n) {
      var u :| 0 <= u < |s.drainers| && InHand(s.drainers[u]) == Some(n);
      assert InHand(s'.drainers[u]) == Some(n);
    }
  }

  lemma ReadKeepsHands(s: Machine, t: nat)
    requires HandsOk(s) && RingParts(s) && Enabled(s, ReadRing(t))
    ensures HandsOk(ReadStep(s, t))
  {
    hide HandsOk, RingParts;
    var s' := ReadStep(s, t);
    if s'.pieces == s.pieces {
      IdleKeepsHands(s, s', t, Away);
    } else {
      TakingKeepsHands(s, s', t, s.drainers[t].r, s'.pieces[|s.pieces|]);
    }
  }

  // A drainer takes up a new piece.
  lemma TakingKeepsHands(s: Machine, s': Machine, t: nat, r: AudioRequest, p: Piece)
    requires HandsOk(s) && t < |s.drainers| && InHand(s.drainers[t]) == None
    requires p.mark == None && HEADER_BYTES + |p.pcm| <= |r.before| && |r.before| >= HEADER_BYTES + FRAME_BYTES
    requires s'.drainers == s.drainers[t := Filled(r, |s.pieces|)] && s'.pieces == s.pieces + [p] && s'.order == s.order
    ensures HandsOk(s')
  {
    forall u | 0 <= u < |s'.drainers| ensures DrainerOk(s'.pieces, s'.drainers[u]) {
      assert DrainerOk(s.pieces, s.drainers[u]);
    }
    forall n | 0 <= n < |s'.pieces| && n !in s'.order ensures Held(s', n) {
      if n == |s.pieces| {
        assert InHand(s'.drainers[t]) == Some(n);
      } else {
        var u :| 0 <= u < |s.drainers| && InHand(s.drainers[u]) == Some(n);
        assert InHand(s'.drainers[u]) == Some(n);
      }
    }
  }

  lemma ExchangeKeepsHands(s: Machine, t: nat)
    requires HandsOk(s) && Enabled(s, Exchange(t))
    ensures HandsOk(Apply(s, Exchange(t)))
  {
    var s' := Apply(s, Exchange(t));
    forall u | 0 <= u < |s'.drainers| ensures DrainerOk(s'.pieces, s'.drainers[u]) {
      assert DrainerOk(s.pieces, s.drainers[u]);
      assert u != t ==> InHand(s.drainers[u]) != Some(s.drainers[t].n);
    }
    forall n | 0 <= n < |s'.pieces| && n !in s'.order ensures Held(s', n) {
      var u :| 0 <= u < |s.drainers| && InHand(s.drainers[u]) == Some(n);
      assert InHand(s'.drainers[u]) == Some(n);
    }
  }

  lemma FinishKeepsHands(s: Machine, t: nat, qpc: nat)
    requires HandsOk(s) && Enabled(s, Finish(t, qpc))
    ensures HandsOk(FinishStep(s, t, qpc))
  {
    var s' := FinishStep(s, t, qpc);
    var n := s.drainers[t].n;
    assert DrainerOk(s.pieces, s.drainers[t]);
    assert s'.order[|s.order|] == n;
    forall m | 0 <= m < |s'.pieces| && m !in s'.order ensures Held(s', m) {
      assert m !in s.order;
      var u :| 0 <= u < |s.drainers| && InHand(s.drainers[u]) == Some(m);
      assert InHand(s'.drainers[u]) == Some(m);
    }
  }

  lemma MoveKeepsHands(s: Machine, m: Move)
    requires HandsOk(s) && RingParts(s) && Enabled(s, m)
    ensures HandsOk(Apply(s, m))
  {
    hide RingParts;
    match m
    case Look(t) => IdleKeepsHands(s, Apply(s, m), t, Looked);
    case Claim(t) => ClaimKeepsHands(s, t);
    case ReadRing(t) => ReadKeepsHands(s, t);
    case Exchange(t) => ExchangeKeepsHands(s, t);
    case Finish(t, qpc) => FinishKeepsHands(s, t, qpc);
    case _ => SameHands(s, Apply(s, m));
  }

  lemma ClaimKeepsHands(s: Machine, t: nat)
    requires HandsOk(s) && RingParts(s) && Enabled(s, Claim(t))
    ensures HandsOk(Apply(s, Claim(t)))
  {
    IdleKeepsHands(s, Apply(s, Claim(t)), t, if s.pending == [] then Away else Claimed(s.pending[0]));
  }

  lemma SameHands(s: Machine, s': Machine)
    requires HandsOk(s) && s'.drainers == s.drainers && s'.pieces == s.pieces && s'.order == s.order
    ensures HandsOk(s')
  {
    hide DrainerOk, InHand;
    forall n | 0 <= n < |s'.pieces| && n !in s'.order ensures Held(s', n) { assert Held(s, n); }
  }

  // ----- completions -----

  lemma GotMore(done: seq<AudioDone>, c: AudioDone)
    ensures GotAll(done + [c]) == GotAll(done) + GotOne(c)
  {
    assert (done + [c])[..|done|] == done;
  }

  lemma NothingGot(done: seq<AudioDone>, c: AudioDone)
    requires c.information == 0
    ensures GotAll(done + [c]) == GotAll(done)
  {
    hide GotAll;
    GotMore(done, c);
    assert GotOne(c) == [];
    assert GotAll(done) + [] == GotAll(done);
  }

  lemma PackedGot(r: AudioRequest, p: Piece, restart: bool, qpc: nat, position: nat)
    requires HEADER_BYTES + |p.pcm| <= |r.before| && PieceOk(p) && p.mark == Some(restart)
    ensures GotOne(Packed(r, p.pcm, restart, qpc, position)) == [Meant(p, position)]
  {
    hide Packets.Filled, Receive, Samples;
    PacketRoundTrip(r.before, p.pcm, restart, qpc, position);
  }

  lemma FinishKeepsGot(s: Machine, t: nat, qpc: nat)
    requires GotOk(s) && HandsOk(s) && RingParts(s) && Enabled(s, Finish(t, qpc))
    ensures GotOk(FinishStep(s, t, qpc))
  {
    hide Joined, Thinned, Packed, GotAll, GotOne, Distinct, Held, Meant;
    var Flagged(r, n, restart) := s.drainers[t];
    assert DrainerOk(s.pieces, s.drainers[t]);
    var c := Packed(r, s.pieces[n].pcm, restart, qpc, s.position);
    GotMore(s.done, c);
    PackedGot(r, s.pieces[n], restart, qpc, s.position);
    assert MeantAll(s.pieces, s.order + [n], s.stamps + [s.position])
        == MeantAll(s.pieces, s.order, s.stamps) + [Meant(s.pieces[n], s.position)];
  }

  lemma ReadKeepsGot(s: Machine, t: nat)
    requires GotOk(s) && Enabled(s, ReadRing(t))
    ensures GotOk(ReadStep(s, t))
  {
    hide GotAll, GotOne, Meant, PcmCap;
    NothingGot(s.done, AudioDone(s.drainers[t].r.id, InsufficientResources, 0, s.drainers[t].r.before));
    assert MeantAll(ReadStep(s, t).pieces, s.order, s.stamps) == MeantAll(s.pieces, s.order, s.stamps);
  }

  lemma ExchangeKeepsGot(s: Machine, t: nat)
    requires GotOk(s) && HandsOk(s) && Enabled(s, Exchange(t))
    ensures GotOk(Apply(s, Exchange(t)))
  {
    hide GotAll, GotOne, Distinct, Held, Meant;
    assert InHand(s.drainers[t]) == Some(s.drainers[t].n);
    assert MeantAll(Apply(s, Exchange(t)).pieces, s.order, s.stamps) == MeantAll(s.pieces, s.order, s.stamps);
  }

  lemma MoveKeepsGot(s: Machine, m: Move)
    requires GotOk(s) && HandsOk(s) && RingParts(s) && Enabled(s, m)
    ensures GotOk(Apply(s, m))
  {
    hide RingParts, HandsOk, GotAll, GotOne, Meant;
    match m
    case Withdraw(k, status) => NothingGot(s.done, AudioDone(s.pending[k].id, status, 0, s.pending[k].before));
    case ReadRing(t) => ReadKeepsGot(s, t);
    case Exchange(t) => ExchangeKeepsGot(s, t);
    case Finish(t, qpc) => FinishKeepsGot(s, t, qpc);
    case _ =>
  }

  // ----- marks -----

  lemma ExchangeKeepsMarks(s: Machine, t: nat)
    requires MarksOk(s) && HandsOk(s) && Enabled(s, Exchange(t))
    ensures MarksOk(Apply(s, Exchange(t)))
  {
    hide Held, Distinct;
    var s' := Apply(s, Exchange(t));
    var n := s.drainers[t].n;
    assert DrainerOk(s.pieces, s.drainers[t]);
    if s.started && !s.starting {
      assert s'.trail[|s.trail|] == n;
      forall k | 0 <= k < |s'.trail| ensures s'.pieces[s'.trail[k]].mark == Some(k == 0) {
        if k < |s.trail| { assert s'.trail[k] == s.trail[k] != n; }
      }
      forall i | s'.first <= i < |s'.pieces| && s'.pieces[i].mark.Some? ensures i in s'.trail {
        if i != n { assert i in s.trail; }
      }
    }
  }

  lemma MoveKeepsMarks(s: Machine, m: Move)
    requires MarksOk(s) && HandsOk(s) && RingParts(s) && Enabled(s, m)
    ensures MarksOk(Apply(s, m))
  {
    hide HandsOk, RingParts, MarksOk;
    match m
    case Exchange(t) => ExchangeKeepsMarks(s, t);
    case ReadRing(t) => ReadKeepsMarks(s, t);
    case Produce(_) => RingKeepsMarks(s, m);
    case ResetRing => RingKeepsMarks(s, m);
    case RaiseRestart => RingKeepsMarks(s, m);
    case _ => SameMarks(s, Apply(s, m));
  }

  lemma ReadKeepsMarks(s: Machine, t: nat)
    requires MarksOk(s) && Enabled(s, ReadRing(t))
    ensures MarksOk(ReadStep(s, t))
  {
    hide PcmCap;
    var s' := ReadStep(s, t);
    assert s'.pieces == s.pieces
        || (s'.pieces == s.pieces + [s'.pieces[|s.pieces|]] && s'.pieces[|s.pieces|].mark == None);
  }

  // The producer and the start of the stream.
  lemma RingKeepsMarks(s: Machine, m: Move)
    requires MarksOk(s) && RingParts(s) && HandsOk(s) && Enabled(s, m)
    requires m.Produce? || m.ResetRing? || m.RaiseRestart?
    ensures MarksOk(Apply(s, m))
  {
    hide HandsOk, RingParts, Newest;
    if m.RaiseRestart? {
      var s' := Apply(s, m);
      assert s'.trail == [] && s'.restart && s'.first == |s'.pieces|;
    }
  }

  lemma SameMarks(s: Machine, s': Machine)
    requires MarksOk(s) && s'.ring == s.ring && s'.pieces == s.pieces && s'.trail == s.trail && s'.first == s.first
    requires s'.restart == s.restart && s'.started == s.started && s'.starting == s.starting
    ensures MarksOk(s')
  {
  }

  // ----- places -----

  lemma ReadKeepsPlaces(s: Machine, t: nat)
    requires PlacesOk(s) && RingParts(s) && (s.starting ==> s.ring.items == []) && Enabled(s, ReadRing(t))
    ensures PlacesOk(ReadStep(s, t))
  {
    hide PcmCap, RingParts, PlacesOk;
    var s' := ReadStep(s, t);
    if s'.pieces == s.pieces {
      SamePlaces(s, s');
    } else {
      assert |s.ring.items| % FRAME_BYTES == 0 by { RingWhole(s); }
      TakingKeepsPlaces(s, s', PcmCap(|s.drainers[t].r.before|), s'.pieces[|s.pieces|]);
    }
  }

  lemma RingWhole(s: Machine)
    requires RingParts(s)
    ensures |s.ring.items| % FRAME_BYTES == 0
  {
    hide Joined, Thinned;
  }

  lemma TakingKeepsPlaces(s: Machine, s': Machine, cap: nat, p: Piece)
    requires PlacesOk(s) && !s.starting && |s.ring.items| % FRAME_BYTES == 0 && cap % FRAME_BYTES == 0
    requires s'.pieces == s.pieces + [p] && s'.position == s.position && s'.coming == s.coming && s'.first == s.first
    requires s'.starting == s.starting && s'.written == s.written && s'.order == s.order && s'.stamps == s.stamps
    requires var n := Taken(s.ring.items, cap);
      && s'.ring.items == s.ring.items[n..] && s'.taken == s.taken + n / FRAME_BYTES
      && p.place == Place(s'.taken, s.position, s.coming)
    ensures PlacesOk(s')
  {
  }

  // The producer and the start of the stream.
  lemma RingKeepsPlaces(s: Machine, m: Move)
    requires PlacesOk(s) && MarksOk(s) && Enabled(s, m)
    requires m.Produce? || m.Count? || m.ResetRing? || m.ZeroPosition? || m.RaiseRestart?
    ensures PlacesOk(Apply(s, m))
  {
    hide Newest;
  }

  lemma FinishKeepsPlaces(s: Machine, t: nat, qpc: nat)
    requires PlacesOk(s) && HandsOk(s) && Enabled(s, Finish(t, qpc))
    ensures PlacesOk(FinishStep(s, t, qpc))
  {
    hide Held, Distinct, DrainerOk;
    var s' := FinishStep(s, t, qpc);
    forall k | 0 <= k < |s'.order| && s'.first <= s'.order[k]
      ensures s'.pieces[s'.order[k]].place.counted <= s'.stamps[k] <= s'.position
    {
      assert k < |s.order| ==> s'.order[k] == s.order[k] && s'.stamps[k] == s.stamps[k];
      assert k == |s.order| ==> PlaceOk(s.pieces[s'.order[k]].place, s.position);
    }
  }

  // Neither ring, counters nor places change; a flag may.
  lemma SamePlaces(s: Machine, s': Machine)
    requires PlacesOk(s) && s'.ring == s.ring && s'.position == s.position && s'.coming == s.coming
    requires s'.starting == s.starting && s'.written == s.written && s'.taken == s.taken && s'.first == s.first
    requires s'.order == s.order && s'.stamps == s.stamps && |s'.pieces| == |s.pieces|
    requires forall n :: 0 <= n < |s.pieces| ==> s'.pieces[n].place == s.pieces[n].place
    ensures PlacesOk(s')
  {
  }

  lemma MoveKeepsPlaces(s: Machine, m: Move)
    requires PlacesOk(s) && MarksOk(s) && HandsOk(s) && RingParts(s) && Enabled(s, m)
    ensures PlacesOk(Apply(s, m))
  {
    hide PlacesOk, HandsOk, RingParts, MarksOk;
    match m
    case ReadRing(t) => StartingIsEmpty(s); ReadKeepsPlaces(s, t);
    case Finish(t, qpc) => FinishKeepsPlaces(s, t, qpc);
    case Produce(_) => RingKeepsPlaces(s, m);
    case Count => RingKeepsPlaces(s, m);
    case ResetRing => RingKeepsPlaces(s, m);
    case ZeroPosition => RingKeepsPlaces(s, m);
    case RaiseRestart => RingKeepsPlaces(s, m);
    case _ => SamePlaces(s, Apply(s, m));
  }

  lemma StartingIsEmpty(s: Machine)
    requires MarksOk(s)
    ensures s.starting ==> s.ring.items == []
  {
  }

  lemma MoveKeeps(s: Machine, m: Move)
    requires Inv(s) && Enabled(s, m)
    ensures Inv(Apply(s, m))
  {
    hide RingParts, HandsOk, GotOk, MarksOk, PlacesOk, Apply;
    MoveKeepsRing(s, m);
    MoveKeepsHands(s, m);
    MoveKeepsGot(s, m);
    MoveKeepsMarks(s, m);
    MoveKeepsPlaces(s, m);
  }

  lemma {:induction false} RunKeeps(s: Machine, moves: seq<Move>, s': Machine)
    requires Inv(s) && Run(s, moves, s')
    ensures Inv(s')
    decreases |moves|
  {
    hide Inv, Apply, Enabled;
    if moves != [] {
      MoveKeeps(s, moves[0]);
      RunKeeps(Apply(s, moves[0]), moves[1..], s');
    }
  }

  ghost predicate Reachable(s: Machine) {
    exists n: nat, moves :: Run(Start0(n), moves, s)
  }

  lemma StartInv(n: nat)
    ensures Inv(Start0(n))
  {
    hide RingParts, HandsOk;
    StartRing(n);
    StartHands(n);
  }

  lemma StartRing(n: nat)
    ensures RingParts(Start0(n))
  {
    hide Thinned;
    var s := Start0(n);
    ThinnedSelf(s.fed);
    assert s.ring.out + s.ring.items == s.fed;
  }

  lemma StartHands(n: nat)
    ensures HandsOk(Start0(n))
  {
  }

  lemma ReachableInv(s: Machine)
    requires Reachable(s)
    ensures Inv(s)
  {
    hide Inv;
    var n: nat, moves :| Run(Start0(n), moves, s);
    StartInv(n);
    RunKeeps(Start0(n), moves, s);
  }

  // ----- the theorems, for any number of requests and drainers -----

  // What left the ring is cut into pieces of whole frames. Each is in the hand of one
  // drainer or was completed once, and the service gets exactly those completed, each
  // with its samples, its flag and the position of its completion, in the order of
  // completion.
  lemma EveryPieceOnce(s: Machine)
    requires Reachable(s)
    ensures s.ring.out == Joined(s.pieces) && Thinned(s.ring.out + s.ring.items, s.fed)
    ensures Within(s.order, |s.pieces|) && Distinct(s.order)
    ensures forall n :: 0 <= n < |s.pieces| ==> (n in s.order) != Held(s, n)
    ensures |s.stamps| == |s.order| && GotAll(s.done) == MeantAll(s.pieces, s.order, s.stamps)
  {
    ReachableInv(s);
  }

  // The position of a packet of the current stream is that of some moment between the
  // read of its piece and now. So it is at least the number of frames up to the end of
  // the packet, unless a write was not counted yet when the piece was read: then it may
  // fall short by this write.
  lemma PositionBetween(s: Machine, k: nat)
    requires Reachable(s) && !s.starting && k < |s.order| && s.first <= s.order[k] < |s.pieces|
    ensures k < |s.stamps| && k < |GotAll(s.done)|
    ensures var p, q := s.pieces[s.order[k]].place, s.stamps[k];
      && p.counted <= q <= s.position <= s.written
      && p.end - p.coming <= q
      && GotAll(s.done)[k].position == q % U64
  {
    hide RingParts, HandsOk, MarksOk, GotAll;
    ReachableInv(s);
    assert PlaceOk(s.pieces[s.order[k]].place, s.position);
  }

  // Since a stream start the restart flag goes to the piece whose drainer exchanges
  // first, and to no other.
  lemma FirstExchangeMarked(s: Machine, n: nat)
    requires Reachable(s) && s.started && !s.starting && s.first <= n < |s.pieces| && s.pieces[n].mark.Some?
    ensures s.trail != [] && (s.pieces[n].mark.value <==> n == s.trail[0])
  {
    hide RingParts, GotOk, HandsOk, PlacesOk;
    ReachableInv(s);
    var k :| 0 <= k < |s.trail| && s.trail[k] == n;
  }
}
