/**
 The audio thread's equalizer: a running curve, at most one fading out, at most
 one waiting. The filter is any deterministic step; samples are computed over
 the reals, without the flush of tiny filter states.
 */
module Equalizer {
  import opened Common
  import opened Arith

  // A finished curve: the settings it was made from, and whether it does nothing.
  datatype Design = Design(settings: nat, bypass: bool)

  // One curve with its running state.
  datatype Chain<S> = Chain(design: Design, state: S)

  // The filter of a design: channel, input, state to output, state.
  type Filter<!S> = (Design, nat, real, S) -> (real, S)

  datatype Eq<S> = Eq(current: Chain<S>, fading: Option<Chain<S>>, pos: nat, queued: Option<Design>)

  const FULL_SCALE := 32768.0

  predicate IsSample(x: int) {
    -32768 <= x <= 32767
  }

  // Chain::process
  function Filtered<S>(f: Filter<S>, k: Chain<S>, c: nat, x: real): (real, Chain<S>) {
    if k.design.bypass then (x, k)
    else
      var (y, s) := f(k.design, c, x, k.state);
      (y, k.(state := s))
  }

  // Rounds half away from zero.
  function Round(y: real): int {
    if y >= 0.0 then (y + 0.5).Floor else -((0.5 - y).Floor)
  }

  function ToSample(y: real): (x: int)
    ensures IsSample(x)
  {
    var r := Round(y * FULL_SCALE);
    if r < -32768 then -32768 else if r > 32767 then 32767 else r
  }

  // The weight of the new curve in the frame at a fade position.
  function Weight(pos: nat, fadeLen: nat): real
    requires fadeLen > 0
  {
    (pos as real + 1.0) / fadeLen as real
  }

  // From the old curve's output to the new one's.
  function Blend(z: real, y: real, t: real): real {
    z + (y - z) * t
  }

  // One sample through the running curve and the fading one.
  function SampleStep<S>(f: Filter<S>, e: Eq<S>, t: real, c: nat, x: int): (int, Eq<S>) {
    var input := x as real / FULL_SCALE;
    var (y, k) := Filtered(f, e.current, c, input);
    if e.fading.None? then (ToSample(y), e.(current := k))
    else
      var (z, o) := Filtered(f, e.fading.value, c, input);
      (ToSample(Blend(z, y, t)), e.(current := k, fading := Some(o)))
  }

  // The samples of a frame from channel c on.
  function Channels<S>(f: Filter<S>, e: Eq<S>, t: real, xs: seq<int>, c: nat): (r: (seq<int>, Eq<S>))
    ensures |r.0| == |xs|
    ensures r.1.pos == e.pos && r.1.queued == e.queued && (r.1.fading.Some? <==> e.fading.Some?)
    ensures r.1.current.design == e.current.design
    decreases |xs|
  {
    if xs == [] then ([], e)
    else
      var (y, e1) := SampleStep(f, e, t, c, xs[0]);
      var (ys, e2) := Channels(f, e1, t, xs[1..], c + 1);
      ([y] + ys, e2)
  }

  function SetDesign<S>(blank: Design -> S, e: Eq<S>, d: Design): Eq<S> {
    if e.fading.Some? then e.(queued := Some(d))
    else if d.settings == e.current.design.settings || (d.bypass && e.current.design.bypass) then e
    else Eq(Chain(d, blank(d)), Some(e.current), 0, e.queued)
  }

  // The end of a frame.
  function Advance<S>(blank: Design -> S, e: Eq<S>, fadeLen: nat): Eq<S> {
    if e.fading.None? then e
    else if e.pos + 1 < fadeLen then e.(pos := e.pos + 1)
    else
      var done := e.(pos := e.pos + 1, fading := None);
      if e.queued.None? then done else SetDesign(blank, done.(queued := None), e.queued.value)
  }

  // The reference: one frame at a time.
  function FrameStep<S>(f: Filter<S>, blank: Design -> S, fadeLen: nat, e: Eq<S>,
      frame: seq<int>): (r: (seq<int>, Eq<S>))
    requires fadeLen > 0
    ensures |r.0| == |frame|
  {
    var t := if e.fading.Some? then Weight(e.pos, fadeLen) else 1.0;
    var (ys, e1) := Channels(f, e, t, frame, 0);
    (ys, Advance(blank, e1, fadeLen))
  }

  // All frames of a block; the last one may be cut short.
  function Frames<S>(f: Filter<S>, blank: Design -> S, fadeLen: nat, ch: nat, e: Eq<S>,
      xs: seq<int>): (r: (seq<int>, Eq<S>))
    requires fadeLen > 0 && ch > 0
    ensures |r.0| == |xs|
    decreases |xs|
  {
    if xs == [] then ([], e)
    else
      var n := if |xs| < ch then |xs| else ch;
      var (ys, e1) := FrameStep(f, blank, fadeLen, e, xs[..n]);
      var (zs, e2) := Frames(f, blank, fadeLen, ch, e1, xs[n..]);
      (ys + zs, e2)
  }

  // Frames, one at a time.
  lemma FirstFrame<S>(f: Filter<S>, blank: Design -> S, fadeLen: nat, ch: nat, e: Eq<S>, xs: seq<int>)
    requires fadeLen > 0 && ch > 0
    ensures Frames(f, blank, fadeLen, ch, e, []) == ([], e)
    ensures var n := if |xs| < ch then |xs| else ch;
      var (ys, e1) := FrameStep(f, blank, fadeLen, e, xs[..n]);
      var (zs, e2) := Frames(f, blank, fadeLen, ch, e1, xs[n..]);
      xs != [] ==> Frames(f, blank, fadeLen, ch, e, xs) == (ys + zs, e2)
  {
  }

  predicate Idle<S>(e: Eq<S>) {
    e.fading.None? && e.current.design.bypass
  }

  predicate EqOk<S>(e: Eq<S>, fadeLen: nat) {
    (e.fading.Some? ==> e.pos < fadeLen) && (e.queued.Some? ==> e.fading.Some?)
  }

  // ----- the idle path -----

  lemma SampleSurvives(x: int)
    requires IsSample(x)
    ensures ToSample(x as real / FULL_SCALE) == x
  {
    var y := x as real / FULL_SCALE * FULL_SCALE;
    assert y == x as real;
    if x >= 0 {
      assert (x as real + 0.5).Floor == x;
    } else {
      assert (0.5 - x as real).Floor == -x;
    }
  }

  lemma {:induction false} IdleChannels<S>(f: Filter<S>, e: Eq<S>, t: real, xs: seq<int>, c: nat)
    requires Idle(e) && forall i :: 0 <= i < |xs| ==> IsSample(xs[i])
    ensures Channels(f, e, t, xs, c) == (xs, e)
    decreases |xs|
  {
    if xs != [] {
      SampleSurvives(xs[0]);
      IdleChannels(f, e, t, xs[1..], c + 1);
      assert [xs[0]] + xs[1..] == xs;
    }
  }

  // An idle equalizer may skip a block: each frame would leave samples and state alone.
  lemma {:induction false} IdleIsIdentity<S>(f: Filter<S>, blank: Design -> S, fadeLen: nat, ch: nat, e: Eq<S>,
      xs: seq<int>)
    requires fadeLen > 0 && ch > 0 && Idle(e) && forall i :: 0 <= i < |xs| ==> IsSample(xs[i])
    ensures Frames(f, blank, fadeLen, ch, e, xs) == (xs, e)
    decreases |xs|
  {
    if xs != [] {
      var n := if |xs| < ch then |xs| else ch;
      IdleChannels(f, e, 1.0, xs[..n], 0);
      IdleIsIdentity(f, blank, fadeLen, ch, e, xs[n..]);
      assert xs[..n] + xs[n..] == xs;
    }
  }

  // ----- blocks -----

  // Where a stream is cut into blocks makes no difference, as long as no frame is cut.
  lemma {:induction false} BlocksJoin<S>(f: Filter<S>, blank: Design -> S, fadeLen: nat, ch: nat, e: Eq<S>,
      xs: seq<int>, ys: seq<int>)
    requires fadeLen > 0 && ch > 0 && |xs| % ch == 0
    ensures var (a, e1) := Frames(f, blank, fadeLen, ch, e, xs);
      var (b, e2) := Frames(f, blank, fadeLen, ch, e1, ys);
      Frames(f, blank, fadeLen, ch, e, xs + ys) == (a + b, e2)
    decreases |xs|
  {
    hide FrameStep;
    if xs == [] {
      assert xs + ys == ys;
      var b := Frames(f, blank, fadeLen, ch, e, ys).0;
      assert [] + b == b;
    } else {
      WholeFrames(|xs|, ch);
      assert (xs + ys)[..ch] == xs[..ch] && (xs + ys)[ch..] == xs[ch..] + ys;
      var (first, e0) := FrameStep(f, blank, fadeLen, e, xs[..ch]);
      BlocksJoin(f, blank, fadeLen, ch, e0, xs[ch..], ys);
      var (a, e1) := Frames(f, blank, fadeLen, ch, e0, xs[ch..]);
      var b := Frames(f, blank, fadeLen, ch, e1, ys).0;
      assert first + a + b == first + (a + b);
    }
  }

  lemma WholeFrames(n: nat, ch: nat)
    requires ch > 0 && n > 0 && n % ch == 0
    ensures n >= ch && (n - ch) % ch == 0
  {
    assert n == n / ch * ch;
    MulLess(n / ch, 1, ch);
    Distribute(n / ch, 1, ch);
    Multiple(n / ch - 1, ch);
  }

  // ----- the fade -----

  // The weight of the new curve rises from frame to frame, and is exactly one at
  // the last: that frame is the new curve's alone.
  lemma FadeRises(pos: nat, fadeLen: nat)
    requires pos < fadeLen
    ensures 0.0 < Weight(pos, fadeLen) <= 1.0
    ensures pos + 1 < fadeLen ==> Weight(pos, fadeLen) < Weight(pos + 1, fadeLen)
    ensures pos + 1 == fadeLen ==> Weight(pos, fadeLen) == 1.0
  {
    var n := fadeLen as real;
    assert pos as real + 1.0 <= n;
    Quotients(pos as real + 1.0, n, n);
    Quotients(0.0, pos as real + 1.0, n);
    Quotients(pos as real + 1.0, pos as real + 2.0, n);
  }

  lemma Quotients(a: real, b: real, n: real)
    requires n > 0.0
    ensures a < b ==> a / n < b / n
    ensures n / n == 1.0 && 0.0 / n == 0.0
  {
    var q, p := a / n, b / n;
    assert q * n == a && p * n == b;
    assert (q - p) * n == a - b;
    assert q >= p ==> (q - p) * n >= 0.0;
  }

  lemma LastFrameIsNew<S>(f: Filter<S>, e: Eq<S>, c: nat, x: int)
    requires e.fading.Some?
    ensures SampleStep(f, e, 1.0, c, x).0 == SampleStep(f, e.(fading := None), 1.0, c, x).0
  {
  }

  // After n frames of any samples.
  function AfterFrames<S>(f: Filter<S>, blank: Design -> S, fadeLen: nat, e: Eq<S>, frames: seq<seq<int>>): Eq<S>
    requires fadeLen > 0
    decreases |frames|
  {
    if frames == [] then e
    else AfterFrames(f, blank, fadeLen, FrameStep(f, blank, fadeLen, e, frames[0]).1, frames[1..])
  }

  // The same curve as far as the ear goes: equal settings, or both do nothing.
  predicate Equivalent(a: Design, b: Design) {
    a.settings == b.settings || (a.bypass && b.bypass)
  }

  // Designs are made from settings alone.
  predicate Made(d: Design, bypasses: nat -> bool) {
    d.bypass == bypasses(d.settings)
  }

  predicate AllMade<S>(e: Eq<S>, bypasses: nat -> bool) {
    && Made(e.current.design, bypasses)
    && (e.queued.Some? ==> Made(e.queued.value, bypasses))
  }

  // What the equalizer is heading for.
  function Target<S>(e: Eq<S>): Design {
    if e.queued.Some? then e.queued.value else e.current.design
  }

  // Frames until nothing fades and nothing waits.
  function Settling<S>(e: Eq<S>, fadeLen: nat): int {
    if e.fading.None? then 0
    else fadeLen - e.pos + (if e.queued.Some? then fadeLen else 0)
  }

  lemma FrameSettles<S>(f: Filter<S>, blank: Design -> S, fadeLen: nat, bypasses: nat -> bool, e: Eq<S>,
      frame: seq<int>, d: Design)
    requires fadeLen > 0 && EqOk(e, fadeLen) && Equivalent(d, Target(e)) && AllMade(e, bypasses) && Made(d, bypasses)
    ensures var e1 := FrameStep(f, blank, fadeLen, e, frame).1;
      && EqOk(e1, fadeLen) && Equivalent(d, Target(e1)) && AllMade(e1, bypasses)
      && Settling(e1, fadeLen) <= (if Settling(e, fadeLen) > 0 then Settling(e, fadeLen) - 1 else 0)
  {
    hide Channels, Weight;
  }

  lemma {:induction false} FramesSettle<S>(f: Filter<S>, blank: Design -> S, fadeLen: nat, bypasses: nat -> bool,
      e: Eq<S>, frames: seq<seq<int>>, d: Design)
    requires fadeLen > 0 && EqOk(e, fadeLen) && Equivalent(d, Target(e)) && AllMade(e, bypasses) && Made(d, bypasses)
      && Settling(e, fadeLen) <= |frames|
    ensures var e1 := AfterFrames(f, blank, fadeLen, e, frames);
      e1.fading.None? && e1.queued.None? && Equivalent(d, e1.current.design)
    decreases |frames|
  {
    hide FrameStep;
    if frames != [] {
      FrameSettles(f, blank, fadeLen, bypasses, e, frames[0], d);
      FramesSettle(f, blank, fadeLen, bypasses, FrameStep(f, blank, fadeLen, e, frames[0]).1, frames[1..], d);
    }
  }

  // Two fade lengths after the last change, its curve runs alone, whatever was
  // fading or waiting when it came.
  lemma LastDesignWins<S>(f: Filter<S>, blank: Design -> S, fadeLen: nat, bypasses: nat -> bool, e: Eq<S>, d: Design,
      frames: seq<seq<int>>)
    requires fadeLen > 0 && EqOk(e, fadeLen) && |frames| >= 2 * fadeLen && AllMade(e, bypasses) && Made(d, bypasses)
    ensures var e1 := AfterFrames(f, blank, fadeLen, SetDesign(blank, e, d), frames);
      e1.fading.None? && e1.queued.None? && Equivalent(d, e1.current.design)
  {
    FramesSettle(f, blank, fadeLen, bypasses, SetDesign(blank, e, d), frames, d);
  }

  // ----- the equalizer object -----

  class Equalizer<S(!new)> {
    const filter: Filter<S>
    const blank: Design -> S
    const channels: nat
    const fadeLen: nat
    var current: Chain<S>
    var fadingOut: Option<Chain<S>>
    var fadePos: nat
    var queued: Option<Design>

    ghost predicate Valid()
      reads this
    {
      channels > 0 && fadeLen > 0 && EqOk(Now(), fadeLen)
    }

    ghost function Now(): Eq<S>
      reads this
    {
      Eq(current, fadingOut, fadePos, queued)
    }

    constructor (f: Filter<S>, b: Design -> S, bypass: Design, channelCount: nat, len: nat)
      requires bypass.bypass
      ensures Valid() && Idle(Now()) && queued == None
      ensures filter == f && blank == b
    {
      filter, blank := f, b;
      channels := if channelCount < 1 then 1 else channelCount;
      fadeLen := if len < 1 then 1 else len;
      current, fadingOut, fadePos, queued := Chain(bypass, b(bypass)), None, 0, None;
    }

    method SetDesignTo(design: Design)
      requires Valid()
      modifies this
      ensures Valid() && Now() == SetDesign(blank, old(Now()), design)
    {
      if fadingOut.Some? {
        queued := Some(design);
        return;
      }
      if design.settings == current.design.settings || (design.bypass && current.design.bypass) {
        return;
      }
      fadingOut := Some(current);
      current := Chain(design, blank(design));
      fadePos := 0;
    }

    // One frame in place, the samples from lo to hi.
    method ProcessFrame(samples: array<int>, lo: nat, hi: nat)
      requires Valid() && lo <= hi <= samples.Length
      modifies this, samples
      ensures Valid()
      ensures (samples[lo..hi], Now()) == FrameStep(filter, blank, fadeLen, old(Now()), old(samples[lo..hi]))
      ensures samples[..lo] == old(samples[..lo]) && samples[hi..] == old(samples[hi..])
    {
      hide SampleStep, Filtered;
      var t := if fadingOut.Some? then Weight(fadePos, fadeLen) else 1.0;
      ghost var start, xs := Now(), samples[lo..hi];
      ghost var want := Channels(filter, start, t, xs, 0);
      assert xs[lo - lo..] == xs && samples[lo..lo] + want.0 == want.0;
      var i := lo;
      while i < hi
        invariant lo <= i <= hi
        invariant EqOk(Now(), fadeLen) && fadePos == start.pos && queued == start.queued
        invariant fadingOut.Some? <==> start.fading.Some?
        invariant samples[..lo] == old(samples[..lo]) && samples[i..] == old(samples[i..])
        invariant var rest := Channels(filter, Now(), t, xs[i - lo..], i - lo);
          want == (samples[lo..i] + rest.0, rest.1)
      {
        ghost var was, e := samples[lo..i], Now();
        assert samples[i] == old(samples[i..])[0];
        assert xs[i - lo] == samples[i] && xs[i - lo..][1..] == xs[i + 1 - lo..];
        ghost var rest := Channels(filter, e, t, xs[i - lo..], i - lo);
        ProcessSample(samples, i, t, i - lo);
        ghost var later := Channels(filter, Now(), t, xs[i + 1 - lo..], i + 1 - lo);
        assert rest == ([samples[i]] + later.0, later.1);
        assert samples[lo..i + 1] == was + [samples[i]];
        assert was + ([samples[i]] + later.0) == samples[lo..i + 1] + later.0;
        assert samples[i + 1..] == old(samples[i..])[1..];
        i := i + 1;
      }
      assert xs[hi - lo..] == [];
      assert samples[lo..hi] + [] == samples[lo..hi];
      if fadingOut.Some? {
        fadePos := fadePos + 1;
        if fadePos >= fadeLen {
          fadingOut := None;
          var next := queued;
          queued := None;
          if next.Some? {
            SetDesignTo(next.value);
          }
        }
      }
    }

    method ProcessSample(samples: array<int>, i: nat, t: real, c: nat)
      requires i < samples.Length
      modifies this`current, this`fadingOut, samples
      ensures (samples[i], Now()) == SampleStep(filter, old(Now()), t, c, old(samples[i]))
      ensures fadingOut.Some? <==> old(fadingOut).Some?
      ensures samples[..i] == old(samples[..i]) && samples[i + 1..] == old(samples[i + 1..])
    {
      hide Round;
      var x := samples[i] as real / FULL_SCALE;
      var (y, k) := Filtered(filter, current, c, x);
      current := k;
      if fadingOut.Some? {
        var (z, o) := Filtered(filter, fadingOut.value, c, x);
        fadingOut := Some(o);
        y := Blend(z, y, t);
      }
      samples[i] := ToSample(y);
    }

    // Processes interleaved samples in place: what one frame after the other does.
    method Process(samples: array<int>)
      requires Valid() && forall i :: 0 <= i < samples.Length ==> IsSample(samples[i])
      modifies this, samples
      ensures Valid()
      ensures (samples[..], Now()) == Frames(filter, blank, fadeLen, channels, old(Now()), old(samples[..]))
    {
      hide Frames, FrameStep, EqOk;
      if fadingOut.None? && current.design.bypass {
        IdleIsIdentity(filter, blank, fadeLen, channels, Now(), samples[..]);
        return;
      }
      ghost var want := Frames(filter, blank, fadeLen, channels, Now(), samples[..]);
      assert samples[0..] == samples[..] && samples[..0] + want.0 == want.0;
      var i := 0;
      while i < samples.Length
        invariant i <= samples.Length && Valid()
        invariant var rest := Frames(filter, blank, fadeLen, channels, Now(), samples[i..]);
          want == (samples[..i] + rest.0, rest.1)
      {
        var n := if samples.Length - i < channels then samples.Length - i else channels;
        ghost var was, xs, e := samples[..i], samples[i..], Now();
        assert xs[..n] == samples[i..i + n] && xs[n..] == samples[i + n..];
        ghost var frame := FrameStep(filter, blank, fadeLen, e, xs[..n]);
        ghost var rest := Frames(filter, blank, fadeLen, channels, e, xs);
        FirstFrame(filter, blank, fadeLen, channels, e, xs);
        ProcessFrame(samples, i, i + n);
        assert samples[..i + n] == was + samples[i..i + n];
        assert samples[i + n..] == xs[n..];
        ghost var later := Frames(filter, blank, fadeLen, channels, Now(), xs[n..]);
        assert frame == (samples[i..i + n], Now());
        assert rest == (frame.0 + later.0, later.1);
        assert was + (samples[i..i + n] + later.0) == samples[..i + n] + later.0;
        i := i + n;
      }
      FirstFrame(filter, blank, fadeLen, channels, Now(), []);
      assert samples[i..] == [] && samples[..i] + [] == samples[..];
    }
  }
}
