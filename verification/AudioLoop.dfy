/**
 The audio loop's two ways of changing the length of the stream: the rate fudge
 against clock skew, and the gradual latency adjustment.

 The fudge accumulator is kept in millionths of a frame and exactly; the
 program keeps it in floating point.
 */
module AudioLoop {
  import opened Packets

  const ONE_FRAME := 1_000_000

  function Frames(s: seq<int>): nat {
    |s| / CHANNELS
  }

  predicate Whole(s: seq<int>) {
    |s| % CHANNELS == 0
  }

  function LastFrame(s: seq<int>): (f: seq<int>)
    requires |s| >= CHANNELS
    ensures |f| == CHANNELS
  {
    s[|s| - CHANNELS..]
  }

  function Repeated(f: seq<int>, n: nat): (r: seq<int>)
    requires |f| == CHANNELS
    ensures |r| == n * CHANNELS
  {
    if n == 0 then [] else Repeated(f, n - 1) + f
  }

  // ----- one packet -----

  // What the packet adds to the accumulator.
  function Share(ppm: int, s: seq<int>): int {
    Frames(s) * ppm
  }

  // At most one frame is repeated or cut off, once the accumulator holds one.
  function Fudged(acc: int, ppm: int, s: seq<int>): (seq<int>, int) {
    var a := acc + Share(ppm, s);
    if ppm == 0 || s == [] then (s, acc)
    else if a >= ONE_FRAME then (if |s| >= CHANNELS then s + LastFrame(s) else s, a - ONE_FRAME)
    else if a <= -ONE_FRAME then (if |s| >= CHANNELS then s[..|s| - CHANNELS] else s, a + ONE_FRAME)
    else (s, a)
  }

  // The largest step: a setting of zero counts as one.
  function Most(maxStep: nat): nat {
    if maxStep == 0 then 1 else maxStep
  }

  // The frames taken off the pending adjustment by a packet.
  function Credit(pending: int, maxStep: nat, s: seq<int>): int {
    var most: int := Most(maxStep);
    if s == [] || (pending < 0 && |s| < CHANNELS) then 0
    else if pending > most then most
    else if pending < -most then -most
    else pending
  }

  // A positive step cuts frames off, a negative one repeats the last.
  function Shifted(step: int, s: seq<int>): seq<int>
    requires step < 0 ==> |s| >= CHANNELS
  {
    if step > 0 then s[..if step * CHANNELS > |s| then 0 else |s| - step * CHANNELS]
    else if step < 0 then s + Repeated(LastFrame(s), -step)
    else s
  }

  // A packet with the knobs as the loop reads them; `asked` is what other threads
  // add to the pending adjustment from that moment to the next packet's.
  datatype Input = Input(samples: seq<int>, ppm: int, maxStep: nat, asked: int)

  datatype State = State(fudge: int, pending: int, published: seq<seq<int>>)

  function StepOf(s: State, x: Input): int {
    Credit(s.pending, x.maxStep, Fudged(s.fudge, x.ppm, x.samples).0)
  }

  function Process(s: State, x: Input): State {
    var (fudged, acc) := Fudged(s.fudge, x.ppm, x.samples);
    var step := StepOf(s, x);
    State(acc, s.pending - step + x.asked, s.published + [Shifted(step, fudged)])
  }

  function Run(s: State, xs: seq<Input>): State
    decreases |xs|
  {
    if xs == [] then s else Run(Process(s, xs[0]), xs[1..])
  }

  // ----- what a packet becomes -----

  lemma FudgeCounts(acc: int, ppm: int, s: seq<int>)
    requires Whole(s)
    ensures var (t, a) := Fudged(acc, ppm, s);
      Whole(t) && (Frames(t) - Frames(s)) * ONE_FRAME + a == acc + Share(ppm, s)
  {
  }

  // A packet loses as many frames as it is credited for exactly when it has them;
  // and it is published empty exactly when it has no more than those.
  lemma CreditExact(step: int, s: seq<int>)
    requires Whole(s) && s != []
    ensures var t := Shifted(step, s);
      && Whole(t)
      && Frames(s) - Frames(t) == (if step > Frames(s) then Frames(s) else step)
      && (Frames(s) - Frames(t) == step <==> step <= Frames(s))
      && (t == [] <==> step >= Frames(s))
  {
  }

  // The first k frames of s, the last of these repeated n times more.
  function Stretched(s: seq<int>, k: nat, n: nat): seq<int> {
    if k == 0 || k > Frames(s) then []
    else s[..k * CHANNELS] + Repeated(s[(k - 1) * CHANNELS..k * CHANNELS], n)
  }

  lemma StretchedMore(s: seq<int>, k: nat, n: nat)
    requires 0 < k <= Frames(s)
    ensures Stretched(s, k, 0) == s[..k * CHANNELS]
    ensures LastFrame(Stretched(s, k, n)) == s[(k - 1) * CHANNELS..k * CHANNELS]
    ensures Stretched(s, k, n) + LastFrame(Stretched(s, k, n)) == Stretched(s, k, n + 1)
  {
    var before, last := s[..(k - 1) * CHANNELS], s[(k - 1) * CHANNELS..k * CHANNELS];
    var head := s[..k * CHANNELS];
    hide LastFrame;
    assert head == before + last;
    assert head + [] == head;
    Regroup(head, Repeated(last, n), last);
    if n == 0 {
      LastOfJoined(before, last);
    } else {
      Regroup(head, Repeated(last, n - 1), last);
      LastOfJoined(head + Repeated(last, n - 1), last);
    }
  }

  lemma LastOfJoined(a: seq<int>, f: seq<int>)
    requires |f| == CHANNELS
    ensures LastFrame(a + f) == f
  {
  }

  lemma Regroup(a: seq<int>, b: seq<int>, c: seq<int>)
    ensures a + (b + c) == (a + b) + c
  {
  }

  lemma {:induction false} StretchedJoins(s: seq<int>, k: nat, n: nat, m: nat)
    requires 0 < k <= Frames(s)
    ensures Stretched(s, k, n) + Repeated(s[(k - 1) * CHANNELS..k * CHANNELS], m) == Stretched(s, k, n + m)
    decreases m
  {
    var last := s[(k - 1) * CHANNELS..k * CHANNELS];
    if m == 0 {
      assert Stretched(s, k, n) + [] == Stretched(s, k, n);
    } else {
      hide Stretched;
      StretchedJoins(s, k, n, m - 1);
      StretchedMore(s, k, n + m - 1);
      Regroup(Stretched(s, k, n), Repeated(last, m - 1), last);
    }
  }

  // Cutting undoes repetitions first.
  lemma {:induction false} StretchedLess(s: seq<int>, k: nat, n: nat, cut: nat)
    requires 0 < k <= Frames(s) && cut <= k + n
    ensures Stretched(s, k, n)[..(k + n - cut) * CHANNELS]
         == if cut <= n then Stretched(s, k, n - cut) else Stretched(s, k + n - cut, 0)
    decreases n
  {
    if n == 0 {
      StretchedMore(s, k, 0);
      if cut < k { StretchedMore(s, k - cut, 0); }
    } else if cut == 0 {
    } else {
      StretchedMore(s, k, n - 1);
      StretchedLess(s, k, n - 1, cut - 1);
    }
  }

  // Everything but the end of a packet is published as it came: its first frames,
  // the last of these repeated any number of times.
  ghost predicate TailOnly(s: seq<int>, t: seq<int>) {
    exists k: nat, n: nat :: k <= Frames(s) && t == Stretched(s, k, n)
  }

  lemma OnlyTheTail(s: State, x: Input)
    requires Whole(x.samples)
    ensures TailOnly(x.samples, Process(s, x).published[|s.published|])
  {
    hide Stretched, Frames, Shifted;
    var p := x.samples;
    var t := Fudged(s.fudge, x.ppm, p).0;
    var k, n := FudgedIs(s.fudge, x.ppm, p);
    ShiftedIs(p, k, n, StepOf(s, x));
  }

  // The fudge keeps all frames, or all but the last, or all and the last again.
  lemma FudgedIs(acc: int, ppm: int, p: seq<int>) returns (k: nat, n: nat)
    requires Whole(p)
    ensures k <= Frames(p) && (k == 0 ==> n == 0) && Fudged(acc, ppm, p).0 == Stretched(p, k, n)
    ensures |Fudged(acc, ppm, p).0| == (k + n) * CHANNELS
  {
    var t := Fudged(acc, ppm, p).0;
    var f := Frames(p);
    k, n := if |t| < |p| then f - 1 else f, if |t| > |p| then 1 else 0;
    if k > 0 { StretchedMore(p, k, 0); }
  }

  lemma ShiftedIs(p: seq<int>, k: nat, n: nat, step: int)
    requires k <= Frames(p) && (k == 0 ==> n == 0)
    requires |Stretched(p, k, n)| == (k + n) * CHANNELS && (step < 0 ==> k > 0)
    ensures TailOnly(p, Shifted(step, Stretched(p, k, n)))
  {
    hide Stretched, Frames;
    var t := Stretched(p, k, n);
    var r := Shifted(step, t);
    if k == 0 {
      assert r == t;
    } else if step < 0 {
      StretchedMore(p, k, n);
      StretchedJoins(p, k, n, -step);
      assert r == Stretched(p, k, n - step);
    } else if step == 0 {
      assert r == t;
    } else {
      StretchedLess(p, k, n, if step < k + n then step else k + n);
    }
  }

  // ----- runs: where the frames go -----

  function FramesIn(xs: seq<Input>): nat {
    if xs == [] then 0 else Frames(xs[0].samples) + FramesIn(xs[1..])
  }

  function FramesOut(packets: seq<seq<int>>): nat {
    if packets == [] then 0 else FramesOut(packets[..|packets| - 1]) + Frames(packets[|packets| - 1])
  }

  function Shares(xs: seq<Input>): int {
    if xs == [] then 0 else Share(xs[0].ppm, xs[0].samples) + Shares(xs[1..])
  }

  function Asked(xs: seq<Input>): int {
    if xs == [] then 0 else xs[0].asked + Asked(xs[1..])
  }

  // The frames credited to packets that did not have them.
  function Overdrawn(s: State, x: Input): nat {
    var missing := StepOf(s, x) - Frames(Fudged(s.fudge, x.ppm, x.samples).0);
    if missing > 0 then missing else 0
  }

  function AllOverdrawn(s: State, xs: seq<Input>): nat
    decreases |xs|
  {
    if xs == [] then 0 else Overdrawn(s, xs[0]) + AllOverdrawn(Process(s, xs[0]), xs[1..])
  }

  predicate AllWhole(xs: seq<Input>) {
    forall i :: 0 <= i < |xs| ==> Whole(xs[i].samples)
  }

  lemma ProcessCounts(s: State, x: Input)
    requires Whole(x.samples)
    ensures var r := Process(s, x);
      ONE_FRAME * (FramesOut(r.published) - FramesOut(s.published))
        == ONE_FRAME * (Frames(x.samples) - (s.pending + x.asked - r.pending) + Overdrawn(s, x))
           + (s.fudge + Share(x.ppm, x.samples) - r.fudge)
  {
    var t := Fudged(s.fudge, x.ppm, x.samples).0;
    var step := StepOf(s, x);
    FudgeCounts(s.fudge, x.ppm, x.samples);
    if t != [] { CreditExact(step, t); }
    var r := Process(s, x);
    assert r.published[..|r.published| - 1] == s.published;
  }

  // Over any run every frame is accounted for: what goes out is what came in, plus
  // what the fudge asked for and does not still hold, minus what was asked to be
  // cut and is not still pending, plus what was credited without being there.
  lemma {:induction false} FramesConserved(s: State, xs: seq<Input>)
    requires AllWhole(xs)
    ensures var r := Run(s, xs);
      ONE_FRAME * (FramesOut(r.published) - FramesOut(s.published))
        == ONE_FRAME * (FramesIn(xs) - (s.pending + Asked(xs) - r.pending) + AllOverdrawn(s, xs))
           + (s.fudge + Shares(xs) - r.fudge)
    decreases |xs|
  {
    hide Process, Overdrawn, Share, FramesOut, Frames;
    if xs != [] {
      ProcessCounts(s, xs[0]);
      FramesConserved(Process(s, xs[0]), xs[1..]);
    }
  }

  // The packets as the latency adjustment gets them. They do not depend on it.
  function AfterFudge(acc: int, xs: seq<Input>): (ts: seq<seq<int>>)
    ensures |ts| == |xs|
    decreases |xs|
  {
    if xs == [] then []
    else
      var (t, a) := Fudged(acc, xs[0].ppm, xs[0].samples);
      [t] + AfterFudge(a, xs[1..])
  }

  // The packet is empty or has the frames of the largest step.
  predicate LongEnough(t: seq<int>, x: Input) {
    t == [] || Frames(t) >= Most(x.maxStep)
  }

  predicate Ample(acc: int, xs: seq<Input>) {
    forall i :: 0 <= i < |xs| ==> LongEnough(AfterFudge(acc, xs)[i], xs[i])
  }

  lemma {:induction false} EnoughForAny(s: State, xs: seq<Input>)
    requires Ample(s.fudge, xs)
    ensures AllOverdrawn(s, xs) == 0
    decreases |xs|
  {
    hide Fudged, Shifted;
    if xs != [] {
      assert LongEnough(AfterFudge(s.fudge, xs)[0], xs[0]);
      forall i | 0 <= i < |xs| - 1 ensures LongEnough(AfterFudge(Process(s, xs[0]).fudge, xs[1..])[i], xs[1..][i]) {
        assert LongEnough(AfterFudge(s.fudge, xs)[i + 1], xs[i + 1]);
      }
      EnoughForAny(Process(s, xs[0]), xs[1..]);
    }
  }

  function Abs(n: int): nat {
    if n < 0 then -n else n
  }

  // So much pending that packet i still gets the largest step.
  function Plenty(xs: seq<Input>, i: nat): nat
    requires i < |xs|
    decreases i
  {
    Most(xs[0].maxStep) + (if i == 0 then 0 else Abs(xs[0].asked) + Plenty(xs[1..], i - 1))
  }

  lemma {:induction false} TooShortForSome(s: State, xs: seq<Input>, i: nat)
    requires i < |xs| && !LongEnough(AfterFudge(s.fudge, xs)[i], xs[i]) && s.pending >= Plenty(xs, i)
    ensures AllOverdrawn(s, xs) > 0
    decreases i
  {
    hide Fudged, Shifted;
    if i > 0 {
      var r := Process(s, xs[0]);
      assert AfterFudge(s.fudge, xs)[i] == AfterFudge(r.fudge, xs[1..])[i - 1];
      TooShortForSome(r, xs[1..], i - 1);
    }
  }

  // Every latency adjustment, whatever is pending, is done in full over these packets
  // if and only if each of them has the frames of the largest step, or none.
  lemma AdjustedInFull(acc: int, xs: seq<Input>)
    ensures (forall pending: int :: AllOverdrawn(State(acc, pending, []), xs) == 0) <==> Ample(acc, xs)
  {
    hide AllOverdrawn, AfterFudge, LongEnough;
    if Ample(acc, xs) {
      forall pending: int ensures AllOverdrawn(State(acc, pending, []), xs) == 0 {
        EnoughForAny(State(acc, pending, []), xs);
      }
    } else {
      var i :| 0 <= i < |xs| && !LongEnough(AfterFudge(acc, xs)[i], xs[i]);
      TooShortForSome(State(acc, Plenty(xs, i), []), xs, i);
    }
  }

  // One frame more than that before the fudge is enough, whatever the accumulator holds.
  lemma {:induction false} LongerIsAmple(acc: int, xs: seq<Input>)
    requires forall i :: 0 <= i < |xs| ==> Frames(xs[i].samples) > Most(xs[i].maxStep)
    ensures Ample(acc, xs)
    decreases |xs|
  {
    if xs != [] {
      var (t, a) := Fudged(acc, xs[0].ppm, xs[0].samples);
      assert LongEnough(t, xs[0]);
      LongerIsAmple(a, xs[1..]);
      forall i | 0 <= i < |xs| ensures LongEnough(AfterFudge(acc, xs)[i], xs[i]) {
        if i > 0 { assert LongEnough(AfterFudge(a, xs[1..])[i - 1], xs[1..][i - 1]); }
      }
    }
  }

  // ----- runs: the fudge -----

  predicate Light(x: Input) {
    -ONE_FRAME <= Share(x.ppm, x.samples) <= ONE_FRAME
  }

  // As long as no packet's share exceeds a frame, the stream is always less than
  // one frame away from the rate asked for.
  lemma {:induction false} RateKept(s: State, xs: seq<Input>)
    requires -ONE_FRAME < s.fudge < ONE_FRAME
    requires forall i :: 0 <= i < |xs| ==> Light(xs[i])
    ensures -ONE_FRAME < Run(s, xs).fudge < ONE_FRAME
    decreases |xs|
  {
    if xs != [] {
      assert Light(xs[0]);
      RateKept(Process(s, xs[0]), xs[1..]);
    }
  }

  function Same(x: Input, n: nat): seq<Input> {
    seq(n, _ => x)
  }

  // What a packet's share exceeds the frame by that it can have corrected.
  function Excess(x: Input): int {
    if x.ppm > 0 then Share(x.ppm, x.samples) - ONE_FRAME else Share(x.ppm, x.samples) + ONE_FRAME
  }

  // The accumulator is on the side of the fudge.
  predicate Leaning(acc: int, x: Input) {
    x.ppm != 0 && x.samples != [] && if x.ppm > 0 then acc >= 0 else acc <= 0
  }

  lemma HeavyPacket(s: State, x: Input)
    requires !Light(x) && Leaning(s.fudge, x)
    ensures Process(s, x).fudge == s.fudge + Excess(x) && Leaning(Process(s, x).fudge, x)
  {
    ShareSign(x);
    hide Share, Shifted;
  }

  // Only then: with heavier packets it falls behind by the excess of each.
  lemma {:induction false} FallsBehind(s: State, x: Input, n: nat)
    requires !Light(x) && Leaning(s.fudge, x)
    ensures Run(s, Same(x, n)).fudge == s.fudge + n * Excess(x)
    decreases n
  {
    hide Excess, Process, Light, Leaning;
    if n > 0 {
      HeavyPacket(s, x);
      assert Same(x, n)[1..] == Same(x, n - 1);
      FallsBehind(Process(s, x), x, n - 1);
      assert n * Excess(x) == (n - 1) * Excess(x) + Excess(x);
    }
  }

  lemma ShareSign(x: Input)
    ensures x.ppm > 0 ==> Share(x.ppm, x.samples) >= 0
    ensures x.ppm < 0 ==> Share(x.ppm, x.samples) <= 0
  {
  }

  // A stream of equal packets keeps within a frame of its rate for ever if and
  // only if the share of one packet is at most a frame.
  lemma RateKeptExactly(x: Input)
    ensures (forall n: nat :: -ONE_FRAME < Run(State(0, 0, []), Same(x, n)).fudge < ONE_FRAME) <==> Light(x)
  {
    hide Run, Share;
    var s := State(0, 0, []);
    if Light(x) {
      forall n: nat ensures -ONE_FRAME < Run(s, Same(x, n)).fudge < ONE_FRAME { RateKept(s, Same(x, n)); }
    } else {
      NoShare(x);
      ShareSign(x);
      FallsBehind(s, x, ONE_FRAME);
    }
  }

  // A packet that the fudge leaves alone.
  predicate Idle(x: Input) {
    x.ppm == 0 || x.samples == []
  }

  // The shares of the others.
  function Parts(xs: seq<Input>): seq<int> {
    if xs == [] then []
    else (if Idle(xs[0]) then [] else [Share(xs[0].ppm, xs[0].samples)]) + Parts(xs[1..])
  }

  function Corrected(a: int): int {
    if a >= ONE_FRAME then a - ONE_FRAME else if a <= -ONE_FRAME then a + ONE_FRAME else a
  }

  function Settled(acc: int, parts: seq<int>): int
    decreases |parts|
  {
    if parts == [] then acc else Settled(Corrected(acc + parts[0]), parts[1..])
  }

  lemma {:induction false} RunSettles(s: State, xs: seq<Input>)
    ensures Run(s, xs).fudge == Settled(s.fudge, Parts(xs))
    decreases |xs|
  {
    hide Shifted, Share;
    if xs != [] {
      var x := xs[0];
      RunSettles(Process(s, x), xs[1..]);
      assert Idle(x) ==> Parts(xs) == Parts(xs[1..]);
      assert !Idle(x) ==> Parts(xs)[1..] == Parts(xs[1..]);
    }
  }

  function Sum(parts: seq<int>): int {
    if parts == [] then 0 else parts[0] + Sum(parts[1..])
  }

  // What the first j parts have brought, in whole frames.
  function Brought(acc: int, parts: seq<int>, j: nat): nat
    requires j <= |parts|
  {
    var p := acc + Sum(parts[..j]);
    if p < 0 then 0 else p / ONE_FRAME
  }

  // No stretch at the end of the run brings more whole frames than it has packets; one
  // that begins with the run counts what the accumulator held.
  predicate CaughtUp(acc: int, parts: seq<int>) {
    && Brought(acc, parts, |parts|) <= |parts|
    && (forall j :: 1 <= j <= |parts| ==> Brought(acc, parts, |parts|) - Brought(acc, parts, j) <= |parts| - j)
  }

  // The accumulator after a stretch that was caught up.
  function Rest(p: int): int {
    if p < 0 then p else p % ONE_FRAME
  }

  lemma {:induction false} SettledRising(acc: int, parts: seq<int>)
    requires -ONE_FRAME < acc && forall i :: 0 <= i < |parts| ==> parts[i] >= 0
    ensures -ONE_FRAME < Settled(acc, parts)
    ensures Settled(acc, parts) < ONE_FRAME <==> CaughtUp(acc, parts)
    ensures CaughtUp(acc, parts) ==> Settled(acc, parts) == Rest(acc + Sum(parts))
    decreases |parts|
  {
    hide CaughtUp, Rest;
    if parts == [] {
      NothingBrought(acc);
    } else {
      var left := Corrected(acc + parts[0]);
      SettledRising(left, parts[1..]);
      CaughtUpBefore(acc, parts);
      RestBefore(acc + parts[0], Sum(parts[1..]));
      SumNotNegative(parts[1..]);
    }
  }

  lemma SumNotNegative(parts: seq<int>)
    requires forall i :: 0 <= i < |parts| ==> parts[i] >= 0
    ensures Sum(parts) >= 0
  {
  }

  lemma RestBefore(a: int, more: int)
    requires -ONE_FRAME < a
    ensures more >= 0 ==> Rest(Corrected(a) + more) == Rest(a + more)
  {
  }

  lemma NothingBrought(acc: int)
    requires acc > -ONE_FRAME
    ensures CaughtUp(acc, []) <==> acc < ONE_FRAME
    ensures CaughtUp(acc, []) ==> Rest(acc) == acc
  {
    var none: seq<int> := [];
    assert none[..0] == none;
  }

  lemma CaughtUpBefore(acc: int, parts: seq<int>)
    requires parts != [] && acc > -ONE_FRAME && forall i :: 0 <= i < |parts| ==> parts[i] >= 0
    ensures CaughtUp(acc, parts) <==> CaughtUp(Corrected(acc + parts[0]), parts[1..])
  {
    var rest, left := parts[1..], Corrected(acc + parts[0]);
    var served := if acc + parts[0] >= ONE_FRAME then 1 else 0;
    forall j | 0 <= j <= |rest| ensures Brought(left, rest, j) == Brought(acc, parts, j + 1) - served {
      BroughtBefore(acc, parts, j);
    }
    assert rest[..0] == [];
    assert served == 0 ==> Brought(left, rest, 0) == 0;
    if CaughtUp(acc, parts) {
      forall j | 1 <= j <= |rest| ensures Brought(left, rest, |rest|) - Brought(left, rest, j) <= |rest| - j {
        assert Brought(acc, parts, |parts|) - Brought(acc, parts, j + 1) <= |parts| - (j + 1);
      }
      assert Brought(acc, parts, |parts|) - Brought(acc, parts, 1) <= |parts| - 1;
    }
    if CaughtUp(left, rest) {
      forall j | 1 <= j <= |parts| ensures Brought(acc, parts, |parts|) - Brought(acc, parts, j) <= |parts| - j {
        if j > 1 { assert Brought(left, rest, |rest|) - Brought(left, rest, j - 1) <= |rest| - (j - 1); }
      }
    }
  }

  lemma BroughtBefore(acc: int, parts: seq<int>, j: nat)
    requires j < |parts| && acc > -ONE_FRAME && forall i :: 0 <= i < |parts| ==> parts[i] >= 0
    ensures var served := if acc + parts[0] >= ONE_FRAME then 1 else 0;
      Brought(Corrected(acc + parts[0]), parts[1..], j) == Brought(acc, parts, j + 1) - served
  {
    assert parts[..j + 1][1..] == parts[1..][..j] && parts[..j + 1][0] == parts[0];
    SumNotNegative(parts[1..][..j]);
  }

  // A fudge that asks for more frames, or leaves the packet alone.
  predicate Rising(xs: seq<Input>) {
    forall i :: 0 <= i < |xs| ==> Idle(xs[i]) || xs[i].ppm > 0
  }

  predicate Falling(xs: seq<Input>) {
    forall i :: 0 <= i < |xs| ==> Idle(xs[i]) || xs[i].ppm < 0
  }

  lemma {:induction false} RisingParts(xs: seq<Input>)
    requires Rising(xs)
    ensures forall i :: 0 <= i < |Parts(xs)| ==> Parts(xs)[i] >= 0
  {
    if xs != [] {
      assert Idle(xs[0]) || xs[0].ppm > 0;
      assert Rising(xs[1..]) by { assert forall i :: 0 <= i < |xs| - 1 ==> xs[1..][i] == xs[i + 1]; }
      RisingParts(xs[1..]);
      ShareSign(xs[0]);
    }
  }

  // For any packets under a fudge that is never negative: the stream is within a frame
  // of its rate after them if and only if they are caught up.
  lemma RateKeptRising(s: State, xs: seq<Input>)
    requires s.fudge > -ONE_FRAME && Rising(xs)
    ensures Run(s, xs).fudge > -ONE_FRAME
    ensures Run(s, xs).fudge < ONE_FRAME <==> CaughtUp(s.fudge, Parts(xs))
    ensures CaughtUp(s.fudge, Parts(xs)) ==> Run(s, xs).fudge == Rest(s.fudge + Sum(Parts(xs)))
  {
    hide Run, Parts, CaughtUp, Rest;
    RunSettles(s, xs);
    RisingParts(xs);
    SettledRising(s.fudge, Parts(xs));
  }

  // A negative fudge is a positive one seen from the other side.
  function Mirrored(xs: seq<Input>): (r: seq<Input>)
    ensures |r| == |xs|
  {
    seq(|xs|, i requires 0 <= i < |xs| => xs[i].(ppm := -xs[i].ppm))
  }

  lemma {:induction false} MirroredRun(s: State, t: State, xs: seq<Input>)
    requires t.fudge == -s.fudge
    ensures Run(t, Mirrored(xs)).fudge == -Run(s, xs).fudge
    decreases |xs|
  {
    hide Shifted;
    if xs != [] {
      var x := xs[0];
      assert Share(-x.ppm, x.samples) == -Share(x.ppm, x.samples);
      assert Mirrored(xs)[0] == x.(ppm := -x.ppm) && Mirrored(xs)[1..] == Mirrored(xs[1..]);
      MirroredRun(Process(s, x), Process(t, x.(ppm := -x.ppm)), xs[1..]);
    }
  }

  // The same for a fudge that is never positive.
  lemma RateKeptFalling(s: State, xs: seq<Input>)
    requires s.fudge < ONE_FRAME && Falling(xs)
    ensures Run(s, xs).fudge < ONE_FRAME
    ensures var parts := Parts(Mirrored(xs));
      && (Run(s, xs).fudge > -ONE_FRAME <==> CaughtUp(-s.fudge, parts))
      && (CaughtUp(-s.fudge, parts) ==> Run(s, xs).fudge == -Rest(-s.fudge + Sum(parts)))
  {
    hide Run, Parts, CaughtUp, Rest;
    var t := s.(fudge := -s.fudge);
    MirroredRun(s, t, xs);
    RateKeptRising(t, Mirrored(xs));
  }

  // A setting that changes sign: the stretches of one sign, each from where the ones
  // before it leave the accumulator.
  predicate AllCaughtUp(acc: int, stretches: seq<seq<Input>>)
    decreases |stretches|
  {
    if stretches == [] then true
    else if Rising(stretches[0]) then
      var parts := Parts(stretches[0]);
      CaughtUp(acc, parts) && AllCaughtUp(Rest(acc + Sum(parts)), stretches[1..])
    else
      var parts := Parts(Mirrored(stretches[0]));
      CaughtUp(-acc, parts) && AllCaughtUp(-Rest(-acc + Sum(parts)), stretches[1..])
  }

  ghost predicate AlwaysKept(s: State, stretches: seq<seq<Input>>)
    decreases |stretches|
  {
    && -ONE_FRAME < s.fudge < ONE_FRAME
    && (stretches == [] || AlwaysKept(Run(s, stretches[0]), stretches[1..]))
  }

  // For any packets and settings: the stream is within a frame of its rate after each
  // stretch if and only if each is caught up.
  lemma {:induction false} RateKeptMixed(s: State, stretches: seq<seq<Input>>)
    requires -ONE_FRAME < s.fudge < ONE_FRAME
    requires forall k :: 0 <= k < |stretches| ==> Rising(stretches[k]) || Falling(stretches[k])
    ensures AlwaysKept(s, stretches) <==> AllCaughtUp(s.fudge, stretches)
    decreases |stretches|
  {
    hide Run, Parts, CaughtUp, Rest, Rising, Falling;
    if stretches != [] {
      if Rising(stretches[0]) {
        RateKeptRising(s, stretches[0]);
      } else {
        assert Falling(stretches[0]);
        RateKeptFalling(s, stretches[0]);
      }
      var r := Run(s, stretches[0]);
      if -ONE_FRAME < r.fudge < ONE_FRAME { RateKeptMixed(r, stretches[1..]); }
    }
  }

  // Ten milliseconds at the largest fudge the settings allow, 10000 ppm: three
  // frames and a half behind after one packet.
  lemma TenMillisecondsAtFullFudge()
    ensures Run(State(0, 0, []), Same(Input(seq(882, _ => 0), 10_000, 4, 0), 1)).fudge == 3_410_000
  {
    var x := Input(seq(882, _ => 0), 10_000, 4, 0);
    assert Share(x.ppm, x.samples) == 4_410_000;
    FallsBehind(State(0, 0, []), x, 1);
  }

  lemma NoShare(x: Input)
    ensures x.ppm == 0 || x.samples == [] ==> Share(x.ppm, x.samples) == 0
  {
  }

  // ----- runs: the latency -----

  // Undisturbed, n packets work off n steps of a pending adjustment, and then no more.
  lemma {:induction false} PendingWorkedOff(s: State, xs: seq<Input>, step: nat)
    requires step > 0
    requires forall i :: 0 <= i < |xs| ==> |xs[i].samples| >= 2 * CHANNELS && xs[i].maxStep == step && xs[i].asked == 0
    ensures Abs(Run(s, xs).pending) == if Abs(s.pending) > |xs| * step then Abs(s.pending) - |xs| * step else 0
    decreases |xs|
  {
    hide Shifted, Share;
    if xs != [] {
      assert |Fudged(s.fudge, xs[0].ppm, xs[0].samples).0| >= CHANNELS;
      PendingWorkedOff(Process(s, xs[0]), xs[1..], step);
      assert |xs| * step == (|xs| - 1) * step + step;
    }
  }

  // ----- the loop -----

  class Loop {
    var fudgeAccum: int
    var drainFrames: int
    var published: seq<seq<int>>

    constructor ()
      ensures Now() == State(0, 0, [])
    {
      fudgeAccum, drainFrames, published := 0, 0, [];
    }

    function Now(): State
      reads this
    {
      State(fudgeAccum, drainFrames, published)
    }

    // One round of the loop, from the packet as the equalizer and the silence
    // detector leave it to its publication.
    method Round(x: Input)
      modifies this
      ensures Now() == Process(old(Now()), x)
    {
      var samples := x.samples;
      if x.ppm != 0 && samples != [] {
        fudgeAccum := fudgeAccum + |samples| / CHANNELS * x.ppm;
        var n := |samples|;
        if fudgeAccum >= ONE_FRAME {
          fudgeAccum := fudgeAccum - ONE_FRAME;
          if n >= CHANNELS {
            samples := samples + samples[n - CHANNELS..];
          }
        } else if fudgeAccum <= -ONE_FRAME {
          fudgeAccum := fudgeAccum + ONE_FRAME;
          if n >= CHANNELS {
            samples := samples[..n - CHANNELS];
          }
        }
      }
      assert (samples, fudgeAccum) == Fudged(old(fudgeAccum), x.ppm, x.samples);
      samples := AdjustLatency(samples, x.maxStep, x.asked);
      published := published + [samples];
    }

    method AdjustLatency(packet: seq<int>, maxStep: nat, asked: int) returns (samples: seq<int>)
      modifies this`drainFrames
      ensures var step := Credit(old(drainFrames), maxStep, packet);
        samples == Shifted(step, packet) && drainFrames == old(drainFrames) - step + asked
    {
      samples := packet;
      var pending := drainFrames;
      drainFrames := drainFrames + asked;
      if samples == [] || pending == 0 {
        return;
      }
      var most := if maxStep == 0 then 1 else maxStep;
      var magnitude := if pending < 0 then -pending else pending;
      var size := if magnitude < most then magnitude else most;
      if pending > 0 {
        var dropSamples := size * CHANNELS;
        var newLen := if dropSamples > |samples| then 0 else |samples| - dropSamples;
        samples := samples[..newLen];
        drainFrames := drainFrames - size;
      } else if |samples| >= CHANNELS {
        var lastFrame := samples[|samples| - CHANNELS..];
        for i := 0 to size
          invariant samples == packet + Repeated(lastFrame, i)
        {
          samples := samples + lastFrame;
        }
        drainFrames := drainFrames + size;
      }
    }
  }
}
