/**
 The synthetic sample clock of the WaveRT stream and the cyclic buffer it
 plays from.
 */
module WaveClock {
  import opened Common
  import opened Arith
  import opened Packets

  // ----- frames due -----

  // The driver's 64-bit computation, wrap-around included.
  function FramesDue(start: nat, elapsed: nat, freq: nat): nat
    requires freq > 0
  {
    (start + elapsed * SAMPLE_RATE % U64 / freq) % U64
  }

  function Exact(start: nat, elapsed: nat, freq: nat): nat
    requires freq > 0
  {
    start + elapsed * SAMPLE_RATE / freq
  }

  // As long as the products fit in 64 bits, the count is less than one frame
  // short of the elapsed time, however often it was computed on the way.
  lemma DriftBelowOneFrame(start: nat, elapsed: nat, freq: nat)
    requires freq > 0 && elapsed * SAMPLE_RATE < U64 && Exact(start, elapsed, freq) < U64
    ensures FramesDue(start, elapsed, freq) == Exact(start, elapsed, freq)
    ensures var played := FramesDue(start, elapsed, freq) - start;
      played * freq <= elapsed * SAMPLE_RATE < (played + 1) * freq
  {
    var x := elapsed * SAMPLE_RATE;
    assert x % U64 == x;
    var q := x / freq;
    assert x == q * freq + x % freq;
    assert (q + 1) * freq == q * freq + freq;
  }

  lemma QuotientMono(a: nat, b: nat, f: nat)
    requires f > 0 && a <= b
    ensures a / f <= b / f
  {
    MulLess(b / f, a / f, f);
    assert a == a / f * f + a % f && b == b / f * f + b % f;
  }

  // The count is right if and only if both the product and the sum fit in 64 bits.
  // A counter of 10 MHz takes about 484 days to the first product that does not.
  lemma OverflowExactly(start: nat, elapsed: nat, freq: nat)
    requires 0 < freq <= U64
    ensures FramesDue(start, elapsed, freq) == Exact(start, elapsed, freq) <==>
              elapsed * SAMPLE_RATE < U64 && Exact(start, elapsed, freq) < U64
  {
    var x := elapsed * SAMPLE_RATE;
    if x < U64 {
      assert x % U64 == x;
    } else {
      WrappedIsLess(x, freq);
      assert FramesDue(start, elapsed, freq) <= start + x % U64 / freq;
    }
  }

  lemma WrappedIsLess(x: nat, freq: nat)
    requires 0 < freq <= U64 <= x
    ensures x % U64 / freq < x / freq
  {
    var r := x % U64;
    assert r + freq <= x;
    QuotientMono(r + freq, x, freq);
    assert r == r / freq * freq + r % freq;
    DivModUnique(r + freq, freq, r / freq + 1, r % freq);
  }

  lemma ExactMono(start: nat, e1: nat, e2: nat, freq: nat)
    requires freq > 0 && e1 <= e2
    ensures Exact(start, e1, freq) <= Exact(start, e2, freq)
  {
    QuotientMono(e1 * SAMPLE_RATE, e2 * SAMPLE_RATE, freq);
  }

  // ----- against the sum of per-tick counts -----

  function Total(ticks: seq<nat>): nat {
    if ticks == [] then 0 else Total(ticks[..|ticks| - 1]) + ticks[|ticks| - 1]
  }

  function PerTick(ticks: seq<nat>, freq: nat): nat
    requires freq > 0
  {
    if ticks == [] then 0 else PerTick(ticks[..|ticks| - 1], freq) + ticks[|ticks| - 1] * SAMPLE_RATE / freq
  }

  lemma QuotientSum(a: nat, b: nat, f: nat)
    requires f > 0
    ensures a / f + b / f <= (a + b) / f <= a / f + b / f + 1
  {
    var q, r, p, s := a / f, a % f, b / f, b % f;
    assert a == q * f + r && b == p * f + s;
    assert (q + p) * f == q * f + p * f;
    assert (q + p + 1) * f == (q + p) * f + f;
    if r + s < f { DivModUnique(a + b, f, q + p, r + s); } else { DivModUnique(a + b, f, q + p + 1, r + s - f); }
  }

  // Summing the counts of single ticks never counts too much and may lose a
  // frame with each tick after the first ...
  lemma {:induction false} PerTickLoses(ticks: seq<nat>, freq: nat)
    requires freq > 0 && ticks != []
    ensures PerTick(ticks, freq) <= Total(ticks) * SAMPLE_RATE / freq <= PerTick(ticks, freq) + |ticks| - 1
  {
    var n := |ticks| - 1;
    if n == 0 {
      assert ticks[..0] == [];
      assert Total(ticks[..0]) == 0 && PerTick(ticks[..0], freq) == 0;
    } else {
      PerTickLoses(ticks[..n], freq);
      var a, b := Total(ticks[..n]), ticks[n];
      QuotientSum(a * SAMPLE_RATE, b * SAMPLE_RATE, freq);
      assert (a + b) * SAMPLE_RATE == a * SAMPLE_RATE + b * SAMPLE_RATE;
    }
  }

  // ... and does so for some clock.
  lemma {:induction false} PerTickLosesAll(n: nat)
    requires 1 <= n <= 44101
    ensures var ticks := seq(n, _ => 1);
      Total(ticks) * SAMPLE_RATE / 44101 == PerTick(ticks, 44101) + n - 1
  {
    OnesTotal(n);
    DivModUnique(n * SAMPLE_RATE, 44101, n - 1, 44101 - n);
  }

  lemma {:induction false} OnesTotal(n: nat)
    ensures Total(seq(n, _ => 1)) == n && PerTick(seq(n, _ => 1), 44101) == 0
  {
    if n > 0 {
      OnesTotal(n - 1);
      assert seq(n, _ => 1)[..n - 1] == seq(n - 1, _ => 1);
    }
  }

  // ----- position -----

  datatype Position = Position(
    produced: nat,      // m_StreamFramesProduced
    atRunStart: nat,    // m_FramesAtRunStart
    runStartQpc: int,   // m_RunStartQpc
    freq: int,          // m_PerfFrequency
    consumed: nat)      // m_StreamFramesConsumed

  // One DPC tick over a cyclic buffer of `frames` frames.
  function Tick(p: Position, now: int, frames: nat): Position {
    if now - p.runStartQpc <= 0 || p.freq <= 0 then p
    else
      var due := FramesDue(p.atRunStart, now - p.runStartQpc, p.freq);
      if due <= p.produced then p
      else
        var cap := if frames > 1 then frames - 1 else frames;
        var owed := due - p.consumed;
        p.(produced := due, consumed := if owed < 0 then p.consumed
          else p.consumed + (if owed > cap then cap else owed))
  }

  predicate Sane(p: Position) {
    p.consumed <= p.produced
  }

  function Ticks(p: Position, nows: seq<int>, frames: nat): Position
    decreases |nows|
  {
    if nows == [] then p else Ticks(Tick(p, nows[0], frames), nows[1..], frames)
  }

  // The state right after SetState(RUN) and the ticks of the segment so far.
  predicate InSegment(p: Position, last: int) {
    && p.freq > 0 && p.runStartQpc <= last && Sane(p)
    && p.produced == Exact(p.atRunStart, last - p.runStartQpc, p.freq)
  }

  // The 64-bit products fit up to the time `end`.
  predicate FitsUntil(p: Position, end: int) {
    && p.freq > 0 && p.runStartQpc <= end
    && (end - p.runStartQpc) * SAMPLE_RATE < U64
    && Exact(p.atRunStart, end - p.runStartQpc, p.freq) < U64
  }

  lemma FitsBefore(p: Position, now: int, end: int)
    requires FitsUntil(p, end) && p.runStartQpc <= now <= end
    ensures FitsUntil(p, now)
  {
    ExactMono(p.atRunStart, now - p.runStartQpc, end - p.runStartQpc, p.freq);
  }

  lemma TickInSegment(p: Position, last: int, now: int, frames: nat)
    requires InSegment(p, last) && last <= now && FitsUntil(p, now)
    ensures InSegment(Tick(p, now, frames), now)
    ensures var q := Tick(p, now, frames);
      q.atRunStart == p.atRunStart && q.runStartQpc == p.runStartQpc && q.freq == p.freq
      && p.produced <= q.produced && p.consumed <= q.consumed
  {
    ExactMono(p.atRunStart, last - p.runStartQpc, now - p.runStartQpc, p.freq);
    if now > p.runStartQpc { DriftBelowOneFrame(p.atRunStart, now - p.runStartQpc, p.freq); }
  }

  // However the ticks of a segment fall, what is produced is what the time
  // since its start makes due, and the position never goes back.
  lemma {:induction false} SegmentIsExact(p: Position, last: int, nows: seq<int>, frames: nat)
    requires InSegment(p, last)
    requires forall i :: 0 <= i < |nows| ==> last <= nows[i]
    requires forall i, j :: 0 <= i <= j < |nows| ==> nows[i] <= nows[j]
    requires nows != [] ==> FitsUntil(p, nows[|nows| - 1])
    ensures var q := Ticks(p, nows, frames);
      && q.produced == Exact(p.atRunStart, (if nows == [] then last else nows[|nows| - 1]) - p.runStartQpc, p.freq)
      && p.produced <= q.produced && p.consumed <= q.consumed <= q.produced
    decreases |nows|
  {
    hide FitsUntil, Tick, Exact;
    if nows != [] {
      FitsBefore(p, nows[0], nows[|nows| - 1]);
      TickInSegment(p, last, nows[0], frames);
      var q := Tick(p, nows[0], frames);
      assert |nows| > 1 ==> FitsUntil(q, nows[|nows| - 1]) by { SameClock(p, q, nows[|nows| - 1]); }
      SegmentIsExact(q, nows[0], nows[1..], frames);
    }
  }

  lemma SameClock(p: Position, q: Position, end: int)
    requires FitsUntil(p, end) && q.atRunStart == p.atRunStart && q.runStartQpc == p.runStartQpc && q.freq == p.freq
    ensures FitsUntil(q, end)
  {
  }

  // ----- stream states -----

  datatype KsState = Stop | Acquire | Pause | Run

  // What SetState does to the position.
  function Enter(p: Position, prev: KsState, next: KsState, now: int, freq: int): Position {
    if next == prev then p
    else if next == Stop || (next == Acquire && prev == Stop) then Position(0, 0, now, p.freq, 0)
    else if next == Run then p.(atRunStart := p.produced, runStartQpc := now, freq := freq)
    else p
  }

  datatype Event = SetState(next: KsState, now: int, freq: int) | Dpc(now: int)

  datatype Playback = Playback(state: KsState, position: Position)

  // The DPC does nothing outside RUN.
  function React(b: Playback, e: Event, frames: nat): Playback {
    match e
    case SetState(next, now, freq) => Playback(next, Enter(b.position, b.state, next, now, freq))
    case Dpc(now) => if b.state == Run then b.(position := Tick(b.position, now, frames)) else b
  }

  function Play(b: Playback, events: seq<Event>, frames: nat): Playback
    decreases |events|
  {
    if events == [] then b else Play(React(b, events[0], frames), events[1..], frames)
  }

  predicate Rewinds(b: Playback, e: Event) {
    e.SetState? && e.next != b.state && (e.next == Stop || (e.next == Acquire && b.state == Stop))
  }

  predicate NeverRewinds(b: Playback, events: seq<Event>, frames: nat)
    decreases |events|
  {
    events == [] || (!Rewinds(b, events[0]) && NeverRewinds(React(b, events[0], frames), events[1..], frames))
  }

  // Through any PAUSE and RUN and any ticks, also with a clock that jumps, the
  // position only grows; what rewinds it is exactly STOP, which sets it to zero.
  lemma {:induction false} PositionMonotone(b: Playback, events: seq<Event>, frames: nat)
    requires Sane(b.position) && NeverRewinds(b, events, frames)
    ensures var c := Play(b, events, frames);
      b.position.produced <= c.position.produced && b.position.consumed <= c.position.consumed <= c.position.produced
    decreases |events|
  {
    hide FramesDue;
    if events != [] { PositionMonotone(React(b, events[0], frames), events[1..], frames); }
  }

  lemma StopRewinds(b: Playback, e: Event, frames: nat)
    requires Sane(b.position)
    ensures Rewinds(b, e) ==> React(b, e, frames).position.produced == 0 == React(b, e, frames).position.consumed
    ensures React(b, e, frames).position.produced < b.position.produced ==> Rewinds(b, e)
    ensures Sane(React(b, e, frames).position)
  {
    hide FramesDue;
  }

  // Outside RUN the position stands still.
  lemma {:induction false} PausedStands(b: Playback, nows: seq<int>, frames: nat)
    requires b.state != Run
    ensures Play(b, seq(|nows|, i requires 0 <= i < |nows| => Dpc(nows[i])), frames) == b
    decreases |nows|
  {
    if nows != [] {
      PausedStands(b, nows[1..], frames);
      var events := seq(|nows|, i requires 0 <= i < |nows| => Dpc(nows[i]));
      assert events[1..] == seq(|nows[1..]|, i requires 0 <= i < |nows[1..]| => Dpc(nows[1..][i]));
    }
  }

  // Entering RUN starts a segment at the frozen position.
  lemma RunStartsSegment(p: Position, prev: KsState, now: int, freq: int)
    requires Sane(p) && prev != Run && freq > 0
    ensures InSegment(Enter(p, prev, Run, now, freq), now) && Enter(p, prev, Run, now, freq).produced == p.produced
  {
  }

  // ----- the cyclic buffer -----

  lemma SliceJoins(buf: seq<Byte>, a: nat, b: nat, c: nat)
    requires a <= b <= c <= |buf|
    ensures buf[a..b] + buf[b..c] == buf[a..c]
  {
  }

  // The size of a number of frames.
  function Bytes(frames: nat, fb: nat): (b: nat) {
    MulLess(0, frames, fb);
    frames * fb
  }

  // Places of frames stay within the buffer and do not overlap.
  lemma FramePlaces(bytes: nat, fb: nat, k: nat, m: nat)
    requires fb > 0 && k <= m <= bytes / fb
    ensures Bytes(k, fb) <= Bytes(m, fb) <= bytes
    ensures Bytes(0, fb) == 0 && Bytes(k + 1, fb) == Bytes(k, fb) + fb
    ensures Bytes(m, fb) == Bytes(k, fb) + Bytes(m - k, fb)
  {
    MulLess(k, m, fb);
    MulLess(m, bytes / fb, fb);
    Distribute(k, 1, fb);
    Distribute(m, k, fb);
    assert bytes == bytes / fb * fb + bytes % fb;
  }

  // Frame k of a buffer of fb-byte frames.
  function Frame(buf: seq<Byte>, fb: nat, k: nat): (r: seq<Byte>)
    requires (fb == 2 || fb == 4) && k < |buf| / fb
    ensures |r| == fb
  {
    FramePlaces(|buf|, fb, k, k + 1);
    buf[Bytes(k, fb)..Bytes(k + 1, fb)]
  }

  // n frames from the running number `from` on, each at its number modulo the buffer's.
  function Cyclic(buf: seq<Byte>, fb: nat, from: nat, n: nat): (r: seq<Byte>)
    requires (fb == 2 || fb == 4) && |buf| >= fb
    ensures |r| == Bytes(n, fb)
  {
    if n == 0 then []
    else
      assert Bytes(n, fb) == Bytes(n - 1, fb) + fb by { Distribute(n, 1, fb); }
      Cyclic(buf, fb, from, n - 1) + Frame(buf, fb, (from + n - 1) % (|buf| / fb))
  }

  lemma CyclicMore(buf: seq<Byte>, fb: nat, from: nat, n: nat)
    requires (fb == 2 || fb == 4) && |buf| >= fb && n > 0
    ensures |buf| / fb > 0
    ensures Cyclic(buf, fb, from, n) == Cyclic(buf, fb, from, n - 1) + Frame(buf, fb, (from + n - 1) % (|buf| / fb))
  {
    hide Frame;
  }

  lemma {:induction false} Straight(buf: seq<Byte>, fb: nat, from: nat, r: nat, n: nat)
    requires (fb == 2 || fb == 4) && |buf| >= fb
    requires r == from % (|buf| / fb) && r + n <= |buf| / fb
    ensures Bytes(r, fb) <= Bytes(r + n, fb) <= |buf|
    ensures Cyclic(buf, fb, from, n) == buf[Bytes(r, fb)..Bytes(r + n, fb)]
  {
    hide Cyclic, Bytes;
    FramePlaces(|buf|, fb, r, r + n);
    if n == 0 {
      CyclicNone(buf, fb, from);
    } else {
      var k := r + n - 1;
      Straight(buf, fb, from, r, n - 1);
      CyclicMore(buf, fb, from, n);
      assert (from + n - 1) % (|buf| / fb) == k by { WrapOnce(from, n - 1, |buf| / fb); }
      assert Bytes(r, fb) <= Bytes(k, fb) <= Bytes(k + 1, fb) <= |buf| by {
        FramePlaces(|buf|, fb, k, k + 1);
        FramePlaces(|buf|, fb, r, k);
      }
      SliceJoins(buf, Bytes(r, fb), Bytes(k, fb), Bytes(k + 1, fb));
    }
  }

  lemma CyclicNone(buf: seq<Byte>, fb: nat, from: nat)
    requires (fb == 2 || fb == 4) && |buf| >= fb
    ensures Cyclic(buf, fb, from, 0) == []
  {
  }

  lemma {:induction false} CyclicJoins(buf: seq<Byte>, fb: nat, from: nat, n: nat, m: nat)
    requires (fb == 2 || fb == 4) && |buf| >= fb
    ensures Cyclic(buf, fb, from, n) + Cyclic(buf, fb, from + n, m) == Cyclic(buf, fb, from, n + m)
  {
    hide Cyclic, Frame, Bytes;
    if m == 0 {
      CyclicNone(buf, fb, from + n);
    } else {
      CyclicJoins(buf, fb, from, n, m - 1);
      CyclicMore(buf, fb, from + n, m);
      CyclicMore(buf, fb, from, n + m);
      assert from + n + m - 1 == from + (n + m) - 1;
    }
  }

  lemma NextRound(from: nat, f: nat)
    requires f > 0
    ensures (from + (f - from % f)) % f == 0
  {
    var d := from / f;
    assert from == d * f + from % f;
    assert (d + 1) * f == d * f + f;
    DivModUnique(from + (f - from % f), f, d + 1, 0);
  }

  // The copy in two pieces reads each frame once, in order, across the wrap.
  lemma TwoPieces(buf: seq<Byte>, fb: nat, from: nat, r: nat, n: nat)
    requires (fb == 2 || fb == 4) && |buf| >= fb
    requires r == from % (|buf| / fb) && |buf| / fb <= r + n && n <= |buf| / fb
    ensures var f := |buf| / fb;
      && Bytes(r, fb) <= Bytes(f, fb) <= |buf| && Bytes(r + n - f, fb) <= |buf|
      && Cyclic(buf, fb, from, n) == buf[Bytes(r, fb)..Bytes(f, fb)] + buf[..Bytes(r + n - f, fb)]
  {
    hide Cyclic, Bytes;
    var f := |buf| / fb;
    var rest := r + n - f;
    Straight(buf, fb, from, r, f - r);
    assert r + (f - r) == f;
    NextRound(from, f);
    FramePlaces(|buf|, fb, 0, rest);
    Straight(buf, fb, from + (f - r), 0, rest);
    CyclicJoins(buf, fb, from, f - r, rest);
    assert (f - r) + rest == n;
  }

  // ----- the engine's stream -----

  // Frames `from` to `from + n` of what the engine plays.
  function Stream(engine: nat -> seq<Byte>, from: nat, n: nat): seq<Byte> {
    if n == 0 then [] else Stream(engine, from, n - 1) + engine(from + n - 1)
  }

  // The buffer holds the engine's frames from `from` on at their places.
  ghost predicate Holds(buf: seq<Byte>, fb: nat, engine: nat -> seq<Byte>, from: nat, n: nat)
    requires (fb == 2 || fb == 4) && |buf| >= fb
  {
    forall i :: from <= i < from + n ==> Frame(buf, fb, i % (|buf| / fb)) == engine(i)
  }

  lemma {:induction false} CyclicIsStream(buf: seq<Byte>, fb: nat, engine: nat -> seq<Byte>, from: nat, n: nat)
    requires (fb == 2 || fb == 4) && |buf| >= fb && Holds(buf, fb, engine, from, n)
    ensures Cyclic(buf, fb, from, n) == Stream(engine, from, n)
  {
    if n > 0 { CyclicIsStream(buf, fb, engine, from, n - 1); }
  }

  lemma {:induction false} StreamJoins(engine: nat -> seq<Byte>, from: nat, n: nat, m: nat)
    ensures Stream(engine, from, n) + Stream(engine, from + n, m) == Stream(engine, from, n + m)
  {
    if m == 0 {
      assert Stream(engine, from, n) + [] == Stream(engine, from, n);
    } else {
      StreamJoins(engine, from, n, m - 1);
      assert Stream(engine, from, n) + (Stream(engine, from + n, m - 1) + engine(from + n + m - 1))
          == Stream(engine, from, n) + Stream(engine, from + n, m - 1) + engine(from + n + m - 1);
    }
  }

  datatype TickInput = TickInput(now: int, buf: seq<Byte>)

  // What the ticks hand on, end to end.
  function Handed(p: Position, ticks: seq<TickInput>, fb: nat): seq<Byte>
    requires fb == 2 || fb == 4
    requires forall i :: 0 <= i < |ticks| ==> |ticks[i].buf| >= fb
    decreases |ticks|
  {
    if ticks == [] then []
    else
      var q := Tick(p, ticks[0].now, |ticks[0].buf| / fb);
      Cyclic(ticks[0].buf, fb, p.consumed, if q.consumed < p.consumed then 0 else q.consumed - p.consumed)
        + Handed(q, ticks[1..], fb)
  }

  function After(p: Position, ticks: seq<TickInput>, fb: nat): Position
    requires fb > 0
    decreases |ticks|
  {
    if ticks == [] then p else After(Tick(p, ticks[0].now, |ticks[0].buf| / fb), ticks[1..], fb)
  }

  // At every tick the buffer holds the frames that the tick reads.
  ghost predicate Fed(p: Position, ticks: seq<TickInput>, fb: nat, engine: nat -> seq<Byte>)
    requires fb == 2 || fb == 4
    decreases |ticks|
  {
    ticks == [] ||
    (&& |ticks[0].buf| >= fb
     && var q := Tick(p, ticks[0].now, |ticks[0].buf| / fb);
        && p.consumed <= q.consumed && Holds(ticks[0].buf, fb, engine, p.consumed, q.consumed - p.consumed)
        && Fed(q, ticks[1..], fb, engine))
  }

  lemma TickSane(p: Position, now: int, frames: nat)
    requires Sane(p)
    ensures Sane(Tick(p, now, frames))
  {
    hide FramesDue;
  }

  // Over any ticks, the frames handed on are the engine's from the first to the
  // last consumed, each once and in order, and never more than were produced.
  lemma {:induction false} EveryFrameOnce(p: Position, ticks: seq<TickInput>, fb: nat, engine: nat -> seq<Byte>)
    requires (fb == 2 || fb == 4) && Sane(p) && Fed(p, ticks, fb, engine)
    requires forall i :: 0 <= i < |ticks| ==> |ticks[i].buf| >= fb
    ensures var q := After(p, ticks, fb);
      && p.consumed <= q.consumed <= q.produced
      && Handed(p, ticks, fb) == Stream(engine, p.consumed, q.consumed - p.consumed)
    decreases |ticks|
  {
    hide Holds, Cyclic, Stream, Tick;
    if ticks == [] {
      StreamNone(engine, p.consumed);
    } else {
      var q := Tick(p, ticks[0].now, |ticks[0].buf| / fb);
      TickSane(p, ticks[0].now, |ticks[0].buf| / fb);
      CyclicIsStream(ticks[0].buf, fb, engine, p.consumed, q.consumed - p.consumed);
      EveryFrameOnce(q, ticks[1..], fb, engine);
      StreamJoins(engine, p.consumed, q.consumed - p.consumed, After(q, ticks[1..], fb).consumed - q.consumed);
    }
  }

  lemma StreamNone(engine: nat -> seq<Byte>, from: nat)
    ensures Stream(engine, from, 0) == []
  {
  }

  // ----- mono -----

  // Each 16-bit sample twice.
  function Doubled(pcm: seq<Byte>): (s: seq<Byte>)
    requires |pcm| % 2 == 0
    ensures |s| == 2 * |pcm|
  {
    seq(2 * |pcm|, k requires 0 <= k < 2 * |pcm| => pcm[k / 4 * 2 + k % 2])
  }

  // Where the k-th byte of a doubled stretch comes from, with h samples before it.
  lemma DoubledIndex(k: nat, h: nat)
    ensures (k + 4 * h) / 4 * 2 + (k + 4 * h) % 2 == k / 4 * 2 + k % 2 + 2 * h
  {
    DivModUnique(k + 4 * h, 4, k / 4 + h, k % 4);
    DivModUnique(k + 4 * h, 2, k / 2 + 2 * h, k % 2);
  }

  lemma DoubledJoins(a: seq<Byte>, b: seq<Byte>)
    requires |a| % 2 == 0 && |b| % 2 == 0
    ensures Doubled(a + b) == Doubled(a) + Doubled(b)
  {
    var h, d, e := |a| / 2, Doubled(a + b), Doubled(a) + Doubled(b);
    assert |a| == 2 * h;
    forall k | 0 <= k < |d| ensures d[k] == e[k] {
      if k < 4 * h {
        assert k / 4 * 2 + k % 2 < |a|;
      } else {
        DoubledIndex(k - 4 * h, h);
      }
    }
  }

  // The stereo samples are the mono ones, left and right alike.
  lemma DoubledSamples(pcm: seq<Byte>, i: nat)
    requires |pcm| % 2 == 0 && i < |pcm| / 2
    ensures Samples(Doubled(pcm))[2 * i] == Samples(pcm)[i] == Samples(Doubled(pcm))[2 * i + 1]
  {
    hide Doubled;
    DoubledAt(pcm, i);
    assert 2 * (2 * i) == 4 * i && 2 * (2 * i + 1) == 4 * i + 2;
  }

  lemma DoubledAt(pcm: seq<Byte>, i: nat)
    requires |pcm| % 2 == 0 && i < |pcm| / 2
    ensures var d := Doubled(pcm);
      d[4 * i] == pcm[2 * i] == d[4 * i + 2] && d[4 * i + 1] == pcm[2 * i + 1] == d[4 * i + 3]
  {
    DoubledIndex(0, i);
    DoubledIndex(1, i);
    DoubledIndex(2, i);
    DoubledIndex(3, i);
  }
}
