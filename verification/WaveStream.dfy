/** The WaveRT stream: buffer allocation, state changes and the DPC that feeds the ring. */
module WaveStream {
  import opened Common
  import opened Arith
  import opened Packets
  import opened WaveClock

  const PAGE_SIZE: nat := 4096
  const MAX_BUFFER_BYTES: nat := 0x10000
  const MAX_NOTIFICATIONS: nat := 64

  predicate WholeFrames(bytes: nat, fb: nat) {
    fb > 0 && bytes % fb == 0
  }

  lemma RoundDown(r: nat, fb: nat)
    requires fb == 2 || fb == 4
    ensures r % fb <= r && WholeFrames(r - r % fb, fb) && (r - r % fb == 0 || r - r % fb >= fb)
    ensures MAX_BUFFER_BYTES % fb == 0
  {
    assert r == r / fb * fb + r % fb;
    Multiple(r / fb, fb);
    MulLess(0, r / fb, fb);
    Multiple(MAX_BUFFER_BYTES / 4 * (4 / fb), fb);
  }

  // The size that AllocateAudioBuffer settles on; zero if less than a frame.
  function BufferSize(requested: nat, fb: nat): (size: nat)
    requires fb == 2 || fb == 4
    ensures WholeFrames(size, fb) && size <= MAX_BUFFER_BYTES && (size == 0 || size >= fb)
    ensures requested <= MAX_BUFFER_BYTES && requested > 0 && requested % fb == 0 ==> size == requested
    ensures requested > MAX_BUFFER_BYTES ==> size == MAX_BUFFER_BYTES
  {
    var r := if requested == 0 then PAGE_SIZE else if requested > MAX_BUFFER_BYTES then MAX_BUFFER_BYTES else requested;
    RoundDown(r, fb);
    r - r % fb
  }

  function NotificationCount(count: nat): (n: nat)
    ensures 1 <= n <= MAX_NOTIFICATIONS
  {
    if count == 0 then 1 else if count > MAX_NOTIFICATIONS then MAX_NOTIFICATIONS else count
  }

  // The size that AllocateBufferWithNotification asks for: a multiple of the
  // chunk that holds a frame for every notification.
  function RoundedSize(requested: nat, chunk: nat): (r: nat)
    requires chunk > 0
    ensures r > 0
  {
    if requested - requested % chunk == 0 then chunk else requested - requested % chunk
  }

  lemma RoundedIsMultiple(requested: nat, fb: nat, count: nat)
    requires fb > 0 && count > 0
    ensures fb * count > 0
    ensures var r := RoundedSize(requested, fb * count);
      r % fb == 0 && r / count % fb == 0
  {
    Multiple(count, fb);
    MulLess(0, count, fb);
    var chunk := fb * count;
    var k := if requested - requested % chunk == 0 then 1 else requested / chunk;
    assert requested == requested / chunk * chunk + requested % chunk;
    var r := RoundedSize(requested, chunk);
    assert r == k * chunk;
    Products(k, fb, count);
    Multiple(k * count, fb);
    Multiple(k * fb, count);
    Multiple(k, fb);
  }

  lemma Products(k: nat, fb: nat, count: nat)
    ensures k * (fb * count) == k * count * fb && k * (fb * count) == k * fb * count
  {
  }

  // A notification chunk is a whole number of frames exactly when the cap did
  // not cut the request, or cut it to a size that happens to divide.
  lemma WholeFrameChunks(requested: nat, fb: nat, count: nat)
    requires (fb == 2 || fb == 4) && count > 0
    ensures fb * count > 0
    ensures var rounded := RoundedSize(requested, fb * count);
      BufferSize(rounded, fb) / count % fb == 0 <==>
        rounded <= MAX_BUFFER_BYTES || MAX_BUFFER_BYTES / count % fb == 0
  {
    hide RoundedSize, BufferSize;
    RoundedIsMultiple(requested, fb, count);
  }

  // Three notifications over a large mono or stereo request split frames.
  lemma CappedChunksSplitFrames()
    ensures BufferSize(RoundedSize(0x20000, 4 * 3), 4) / 3 % 4 != 0
  {
  }

  // What the ring is given for engine bytes of a format.
  function Stereo(channels: nat, pcm: seq<Byte>): (r: seq<Byte>)
    requires |pcm| % 2 == 0
  {
    if channels == 1 then Doubled(pcm) else pcm
  }

  lemma NoneDoubled()
    ensures Doubled([]) == []
  {
  }

  // One sample more.
  lemma DoubledMore(src: seq<Byte>, i: nat)
    requires 2 * i + 2 <= |src|
    ensures Doubled(src[..2 * (i + 1)]) == Doubled(src[..2 * i])
      + [src[2 * i], src[2 * i + 1], src[2 * i], src[2 * i + 1]]
  {
    var a, b := src[..2 * i], src[2 * i..2 * i + 2];
    assert src[..2 * (i + 1)] == a + b;
    DoubledJoins(a, b);
    OneDoubled(src[2 * i], src[2 * i + 1]);
    assert b == [src[2 * i], src[2 * i + 1]];
  }

  lemma OneDoubled(lo: Byte, hi: Byte)
    ensures Doubled([lo, hi]) == [lo, hi, lo, hi]
  {
  }

  lemma StereoFacts(channels: nat, src: seq<Byte>, fb: nat)
    requires (channels == 1 || channels == 2) && fb == 2 * channels && |src| % fb == 0
    ensures |src| % 2 == 0 && |Stereo(channels, src)| % FRAME_BYTES == 0
    ensures src == [] ==> Stereo(channels, src) == []
    ensures Stereo(channels, src) == if channels == 1 then Doubled(src) else src
  {
    if fb == 2 {
      assert |src| % 2 == 0;
    } else {
      assert fb == 4;
      assert |src| % 4 == 0;
    }
  }

  lemma StereoJoins(channels: nat, a: seq<Byte>, b: seq<Byte>)
    requires |a| % 2 == 0 && |b| % 2 == 0
    ensures Stereo(channels, a + b) == Stereo(channels, a) + Stereo(channels, b)
    ensures b == [] ==> Stereo(channels, b) == []
  {
    DoubledJoins(a, b);
  }

  class Stream {
    var state: KsState
    var channels: nat
    var frameBytes: nat
    var bufferAllocated: bool
    var bufferVa: array?<Byte>
    var bufferBytes: nat
    var upmixVa: array?<Byte>
    var upmixBytes: nat
    var framesProduced: nat
    var framesAtRunStart: nat
    var runStartQpc: int
    var perfFrequency: int
    var framesConsumed: nat
    var notificationsPerBuffer: nat
    var bytesPerNotification: nat
    var lastNotificationConsumed: nat
    var timerStarted: bool
    var hasCtx: bool            // the device still has its ioctl context
    var toRing: seq<Byte>       // what IoctlAudioProduce was given
    var starts: nat             // calls of IoctlOnStreamStart
    var stops: nat              // calls of IoctlOnStreamStop
    var signals: nat            // rounds of KeSetEvent

    ghost predicate BuffersOk()
      reads this`channels, this`frameBytes, this`bufferAllocated, this`bufferVa, this`bufferBytes, this`upmixVa,
        this`upmixBytes
    {
      && (channels == 1 || channels == 2) && frameBytes == 2 * channels
      && (bufferAllocated <==> bufferVa != null)
      && (bufferVa == null ==> bufferBytes == 0)
      && (bufferVa != null ==>
        frameBytes <= bufferBytes == bufferVa.Length <= MAX_BUFFER_BYTES && WholeFrames(bufferBytes, frameBytes))
      && (bufferVa != null ==> upmixVa != bufferVa)
      && (bufferVa != null && channels == 1 ==>
        upmixVa != null && upmixBytes == upmixVa.Length == 2 * bufferBytes)
    }

    ghost predicate CountersOk()
      reads this`framesProduced, this`framesConsumed, this`lastNotificationConsumed, this`timerStarted, this`state
    {
      && framesConsumed <= framesProduced
      && lastNotificationConsumed <= framesConsumed
      && (timerStarted ==> state == Run)
    }

    ghost predicate Valid()
      reads this
    {
      BuffersOk() && CountersOk()
    }

    ghost function Pos(): Position
      reads this
    {
      Position(framesProduced, framesAtRunStart, runStartQpc, perfFrequency, framesConsumed)
    }

    constructor (channelCount: nat, now: int, freq: int, ctx: bool)
      requires channelCount == 1 || channelCount == 2
      ensures Valid() && state == Stop && Pos() == Position(0, 0, now, freq, 0) && toRing == []
      ensures channels == channelCount && !bufferAllocated && notificationsPerBuffer == 0 == bytesPerNotification
    {
      state, channels, frameBytes := Stop, channelCount, channelCount * 2;
      bufferAllocated, bufferVa, bufferBytes, upmixVa, upmixBytes := false, null, 0, null, 0;
      framesProduced, framesAtRunStart, runStartQpc, perfFrequency, framesConsumed := 0, 0, now, freq, 0;
      notificationsPerBuffer, bytesPerNotification, lastNotificationConsumed := 0, 0, 0;
      timerStarted, hasCtx, toRing, starts, stops, signals := false, ctx, [], 0, 0, 0;
    }

    method ResetPosition(now: int)
      requires Valid()
      modifies this`framesProduced, this`framesAtRunStart, this`framesConsumed, this`lastNotificationConsumed,
        this`runStartQpc
      ensures Valid() && Pos() == Position(0, 0, now, perfFrequency, 0) && lastNotificationConsumed == 0
    {
      hide BuffersOk;
      framesProduced := 0;
      framesAtRunStart := 0;
      framesConsumed := 0;
      lastNotificationConsumed := 0;
      runStartQpc := now;
    }

    // `pool`, `mdl` and `scratch` say which of the three allocations succeed.
    method AllocateAudioBuffer(requested: nat, pool: bool, mdl: bool, scratch: bool, now: int)
        returns (status: Status, size: nat)
      requires Valid()
      modifies this
      ensures Valid() && state == old(state) && channels == old(channels) && toRing == old(toRing)
      ensures status == if old(bufferAllocated) then DeviceBusy
                        else if BufferSize(requested, frameBytes) == 0 then InvalidParameter
                        else if !pool || !mdl || (channels == 1 && !scratch) then InsufficientResources
                        else Success
      ensures status != Success ==> unchanged(this)
      ensures status == Success ==>
        && bufferAllocated && fresh(bufferVa) && bufferBytes == size == BufferSize(requested, frameBytes)
        && Pos() == Position(0, 0, now, perfFrequency, 0)
        && notificationsPerBuffer == (if old(notificationsPerBuffer) == 0 then 1 else old(notificationsPerBuffer))
        && bytesPerNotification == size / notificationsPerBuffer
    {
      size := 0;
      if bufferAllocated {
        return DeviceBusy, 0;
      }
      hide BufferSize, WholeFrames;
      var bytes := BufferSize(requested, frameBytes);
      if bytes == 0 {
        return InvalidParameter, 0;
      }
      if !pool || !mdl {
        return InsufficientResources, 0;
      }
      var scratchBytes := 0;
      var scratchVa: array?<Byte> := null;
      if channels == 1 {
        scratchBytes := bytes * 2;
        if !scratch {
          return InsufficientResources, 0;
        }
        scratchVa := new Byte[scratchBytes];
      }
      Install(bytes, scratchVa, scratchBytes, now);
      return Success, bytes;
    }

    method Install(bytes: nat, scratchVa: array?<Byte>, scratchBytes: nat, now: int)
      requires Valid() && !bufferAllocated
      requires frameBytes <= bytes <= MAX_BUFFER_BYTES && WholeFrames(bytes, frameBytes)
      requires channels == 1 ==> scratchVa != null && scratchVa.Length == scratchBytes == 2 * bytes
      modifies this`bufferVa, this`bufferBytes, this`upmixVa, this`upmixBytes, this`bufferAllocated,
        this`framesProduced, this`framesAtRunStart, this`framesConsumed, this`lastNotificationConsumed,
        this`runStartQpc,
        this`notificationsPerBuffer, this`bytesPerNotification
      ensures Valid() && bufferAllocated && fresh(bufferVa) && bufferBytes == bytes
      ensures Pos() == Position(0, 0, now, perfFrequency, 0)
      ensures notificationsPerBuffer == (if old(notificationsPerBuffer) == 0 then 1 else old(notificationsPerBuffer))
      ensures bytesPerNotification == bytes / notificationsPerBuffer
    {
      hide WholeFrames, CountersOk;
      var va := new Byte[bytes];
      bufferVa := va;
      bufferBytes := bytes;
      upmixVa := scratchVa;
      upmixBytes := scratchBytes;
      bufferAllocated := true;
      assert BuffersOk();
      ResetPosition(now);
      if notificationsPerBuffer == 0 {
        notificationsPerBuffer := 1;
      }
      bytesPerNotification := bytes / notificationsPerBuffer;
    }

    method FreeAudioBuffer()
      requires Valid()
      modifies this
      ensures Valid() && !bufferAllocated && !timerStarted && Pos() == old(Pos()) && toRing == old(toRing)
        && state == old(state)
      ensures notificationsPerBuffer == old(notificationsPerBuffer)
    {
      timerStarted := false;
      bufferVa := null;
      upmixVa := null;
      upmixBytes := 0;
      bufferBytes := 0;
      bufferAllocated := false;
    }

    // A failure keeps everything but the notification count, which is the new one in
    // any case: it changes nothing if and only if that was the count before. On a busy
    // stream the engine's packets go on agreeing with the notification interval if and
    // only if the new count divides the buffer into packets of the same size.
    method AllocateBufferWithNotification(count: nat, requested: nat, pool: bool, mdl: bool, scratch: bool, now: int)
      returns (status: Status, size: nat)
      requires Valid()
      modifies this
      ensures Valid() && state == old(state) && channels == old(channels) && toRing == old(toRing)
      ensures notificationsPerBuffer == NotificationCount(count)
      ensures status == if old(bufferAllocated) then DeviceBusy
                        else if !pool || !mdl || (channels == 1 && !scratch) then InsufficientResources
                        else Success
      ensures status != Success ==>
        unchanged(this`state, this`channels, this`frameBytes, this`bufferAllocated, this`bufferVa, this`bufferBytes,
                  this`upmixVa, this`upmixBytes, this`framesProduced, this`framesAtRunStart, this`runStartQpc,
                  this`perfFrequency, this`framesConsumed, this`bytesPerNotification, this`lastNotificationConsumed,
                  this`timerStarted, this`hasCtx, this`toRing, this`starts, this`stops, this`signals)
      ensures status != Success ==> (unchanged(this) <==> NotificationCount(count) == old(notificationsPerBuffer))
      ensures status == DeviceBusy && old(bytesPerNotification == PacketBytes()) ==>
        (bytesPerNotification == PacketBytes() <==> bufferBytes / NotificationCount(count) == old(PacketBytes()))
      ensures status == Success ==>
        && frameBytes * notificationsPerBuffer > 0
        && size == bufferBytes == BufferSize(RoundedSize(requested, frameBytes * notificationsPerBuffer), frameBytes)
        && bytesPerNotification == size / notificationsPerBuffer
        && (bytesPerNotification % frameBytes == 0 <==>
              || RoundedSize(requested, frameBytes * notificationsPerBuffer) <= MAX_BUFFER_BYTES
              || MAX_BUFFER_BYTES / notificationsPerBuffer % frameBytes == 0)
    {
      hide BufferSize, RoundedSize;
      var n := NotificationCount(count);
      WholeFrameChunks(requested, frameBytes, n);
      RoundedIsMultiple(requested, frameBytes, n);
      var bytes := RoundedSize(requested, frameBytes * n);
      notificationsPerBuffer := n;
      status, size := AllocateAudioBuffer(bytes, pool, mdl, scratch, now);
    }

    method FreeBufferWithNotification()
      requires Valid()
      modifies this
      ensures Valid() && !bufferAllocated && !timerStarted && Pos() == old(Pos()) && state == old(state)
      ensures notificationsPerBuffer == 0 == bytesPerNotification && PacketBytes() == 0
    {
      FreeAudioBuffer();
      notificationsPerBuffer := 0;
      bytesPerNotification := 0;
    }

    function PacketBytes(): nat
      reads this
    {
      if notificationsPerBuffer == 0 || bufferBytes == 0 then 0 else bufferBytes / notificationsPerBuffer
    }

    // The play offset within the cyclic buffer: the frame after the last
    // produced one, at its place.
    method GetPosition() returns (offset: nat)
      requires Valid()
      ensures bufferBytes == 0 ==> offset == 0
      ensures bufferBytes > 0 ==>
        offset < bufferBytes && offset % frameBytes == 0
        && offset / frameBytes == framesProduced % (bufferBytes / frameBytes)
    {
      if bufferBytes == 0 {
        return 0;
      }
      var playBytes := framesProduced * frameBytes;
      offset := playBytes % bufferBytes;
      OffsetOfFrame(framesProduced, frameBytes, bufferBytes);
    }

    // `supported` is the channel count of the offered format, zero if it is not
    // supported. A format of the same count can always be swapped in, another one
    // only without a buffer.
    method SetFormat(supported: nat) returns (status: Status)
      requires Valid() && supported <= 2
      modifies this`channels, this`frameBytes
      ensures Valid()
      ensures status == if supported == 0 then NoMatch
                        else if supported == old(channels) || !bufferAllocated then Success
                        else InvalidDeviceState
      ensures channels == if status == Success then supported else old(channels)
    {
      if supported == 0 {
        return NoMatch;
      }
      if supported != channels && bufferAllocated {
        return InvalidDeviceState;
      }
      channels := supported;
      frameBytes := supported * 2;
      return Success;
    }

    method SetState(next: KsState, now: int, freq: int)
      requires Valid()
      modifies this
      ensures Valid() && state == next && toRing == old(toRing) && bufferAllocated == old(bufferAllocated)
        && bufferVa == old(bufferVa)
      ensures next == old(state) ==> unchanged(this)
      ensures Pos() == Enter(old(Pos()), old(state), next, now, freq)
      ensures stops == old(stops) + (if old(state) == Run && next != Run && hasCtx then 1 else 0)
      ensures starts == old(starts) + (if old(state) != Run && next == Run && hasCtx then 1 else 0)
    {
      hide BuffersOk;
      var prev := state;
      if next == prev {
        return;
      }
      if prev == Run {
        timerStarted := false;
        if hasCtx {
          stops := stops + 1;
        }
      }
      state := next;
      match next
      case Stop => ResetPosition(now);
      case Acquire =>
        if prev == Stop {
          ResetPosition(now);
        }
      case Pause =>
      case Run =>
        framesAtRunStart := framesProduced;
        runStartQpc := now;
        perfFrequency := freq;
        if hasCtx {
          starts := starts + 1;
        }
        timerStarted := true;
    }

    // Hands a stretch of engine PCM to the ring; mono samples go out twice. What
    // fits the cyclic buffer fits the scratch area, so nothing is dropped.
    method ProduceToRing(src: seq<Byte>)
      requires Valid() && bufferVa != null && |src| <= bufferBytes && |src| % frameBytes == 0
      modifies this`toRing, upmixVa
      ensures Valid()
      ensures toRing == if hasCtx then old(toRing) + Stereo(channels, src) else old(toRing)
      ensures |Stereo(channels, src)| % FRAME_BYTES == 0
    {
      hide Doubled, WholeFrames;
      StereoFacts(channels, src, frameBytes);
      if !hasCtx || |src| == 0 {
        assert |src| == 0 ==> Stereo(channels, src) == [];
        assert toRing + [] == toRing;
        return;
      }
      if channels == 2 {
        toRing := toRing + src;
        return;
      }
      if upmixVa == null || |src| * 2 > upmixBytes {
        assert false; // the guard cannot drop data
      }
      var samples := |src| / 2;
      UpMix(src, upmixVa, samples);
      toRing := toRing + upmixVa[..samples * 4];
    }

    // The mono loop: each 16-bit sample goes to the left and to the right.
    static method UpMix(src: seq<Byte>, out: array<Byte>, samples: nat)
      requires |src| == 2 * samples && 2 * |src| <= out.Length
      modifies out
      ensures out[..samples * 4] == Doubled(src)
    {
      hide Doubled;
      NoneDoubled();
      assert src[..0] == [] && out[..0] == [];
      for i := 0 to samples
        invariant out[..4 * i] == Doubled(src[..2 * i])
      {
        DoubledMore(src, i);
        ghost var done := out[..4 * i];
        out[4 * i] := src[2 * i];
        out[4 * i + 1] := src[2 * i + 1];
        out[4 * i + 2] := src[2 * i];
        out[4 * i + 3] := src[2 * i + 1];
        assert out[..4 * (i + 1)] == done + [src[2 * i], src[2 * i + 1], src[2 * i], src[2 * i + 1]];
      }
      assert src[..2 * samples] == src;
    }

    method DoCopyToRing(now: int)
      requires Valid()
      modifies this`framesProduced, this`framesConsumed, this`toRing, this`lastNotificationConsumed, this`signals,
        upmixVa
      ensures Valid()
      ensures bufferVa == null ==> unchanged(this)
      ensures bufferVa != null ==>
        && Pos() == Tick(old(Pos()), now, bufferBytes / frameBytes)
        && var pcm := Cyclic(bufferVa[..], frameBytes, old(framesConsumed), framesConsumed - old(framesConsumed));
           |pcm| % 2 == 0 && toRing == old(toRing) + (if hasCtx then Stereo(channels, pcm) else [])
    {
      hide Cyclic, Stereo, FramesDue, WholeFrames, Tick;
      TickCases(Pos(), now, if frameBytes > 0 then bufferBytes / frameBytes else 0);
      if bufferVa == null || bufferBytes == 0 {
        return;
      }
      ghost var buf := bufferVa[..];
      Nothing(buf, frameBytes, framesConsumed, channels);
      assert toRing + [] == toRing;
      var elapsedTicks := now - runStartQpc;
      if elapsedTicks <= 0 || perfFrequency <= 0 {
        return;
      }
      var framesDue := FramesDue(framesAtRunStart, elapsedTicks, perfFrequency);
      if framesDue <= framesProduced {
        return;
      }
      framesProduced := framesDue;
      var outstanding := framesProduced - framesConsumed;
      var bufferFrames := bufferBytes / frameBytes;
      var maxThisTick := if bufferFrames > 1 then bufferFrames - 1 else 1;
      if outstanding > maxThisTick {
        outstanding := maxThisTick;
      }
      CopyFrames(outstanding);
      Consume(outstanding);
    }

    method Consume(frames: nat)
      requires Valid() && framesConsumed + frames <= framesProduced
      modifies this`framesConsumed, this`lastNotificationConsumed, this`signals
      ensures Valid() && framesConsumed == old(framesConsumed) + frames
    {
      framesConsumed := framesConsumed + frames;
      SignalNotificationEvents();
    }

    // The copy of `outstanding` frames from the read position, across the wrap.
    method CopyFrames(outstanding: nat)
      requires Valid() && bufferVa != null && 0 < outstanding <= bufferBytes / frameBytes
      modifies this`toRing, upmixVa
      ensures Valid() && bufferVa[..] == old(bufferVa[..])
      ensures var pcm := Cyclic(bufferVa[..], frameBytes, framesConsumed, outstanding);
        |pcm| % 2 == 0 && toRing == old(toRing) + (if hasCtx then Stereo(channels, pcm) else [])
    {
      hide Cyclic, Stereo, CountersOk;
      hide Bytes, Place;
      var bufferFrames := bufferBytes / frameBytes;
      var readFrame := Place(framesConsumed, bufferFrames);
      var bytesToRead := Bytes(outstanding, frameBytes);
      var firstChunk := Bytes(bufferFrames - readFrame, frameBytes);
      if firstChunk > bytesToRead {
        firstChunk := bytesToRead;
      }
      CopyPlan(bufferVa[..], frameBytes, framesConsumed, outstanding, firstChunk);
      var at := Bytes(readFrame, frameBytes);
      var first := bufferVa[at..at + firstChunk];
      var second := bufferVa[..bytesToRead - firstChunk];
      assert Cyclic(bufferVa[..], frameBytes, framesConsumed, outstanding) == first + second;
      HandOver(first, second);
    }

    lemma Format()
      requires Valid()
      ensures (channels == 1 || channels == 2) && frameBytes == 2 * channels
      ensures bufferVa != null ==> upmixVa != bufferVa
    {
    }

    // The one or two calls of ProduceToRing.
    method HandOver(first: seq<Byte>, second: seq<Byte>)
      requires Valid() && bufferVa != null && |first| <= bufferBytes && |second| <= bufferBytes
      requires |first| % frameBytes == 0 && |second| % frameBytes == 0
      modifies this`toRing, upmixVa
      ensures Valid() && bufferVa[..] == old(bufferVa[..])
      ensures |first + second| % 2 == 0
      ensures toRing == old(toRing) + (if hasCtx then Stereo(channels, first + second) else [])
    {
      hide Stereo, CountersOk, BuffersOk;
      Format();
      StereoFacts(channels, first, frameBytes);
      StereoFacts(channels, second, frameBytes);
      StereoJoins(channels, first, second);
      ghost var was := toRing;
      ghost var all := first + second;
      assert was + Stereo(channels, first) + Stereo(channels, second) == was + Stereo(channels, all);
      ProduceToRing(first);
      if |second| > 0 {
        ProduceToRing(second);
      }
    }

    // Signals once a notification interval has been consumed, and rounds down so
    // that the boundary does not drift.
    method SignalNotificationEvents()
      requires Valid()
      modifies this`lastNotificationConsumed, this`signals
      ensures Valid()
      ensures var due := bytesPerNotification > 0
                         && (framesConsumed - old(lastNotificationConsumed)) * frameBytes >= bytesPerNotification;
        if !due then unchanged(this)
        else
          && signals == old(signals) + 1
          && (framesConsumed - lastNotificationConsumed) * frameBytes < bytesPerNotification + frameBytes
          && (bytesPerNotification % frameBytes == 0 ==>
                && (framesConsumed - lastNotificationConsumed) * frameBytes < bytesPerNotification
                && lastNotificationConsumed * frameBytes % bytesPerNotification == 0)
    {
      if bytesPerNotification == 0 {
        return;
      }
      var consumedBytes := framesConsumed * frameBytes;
      var lastBytes := lastNotificationConsumed * frameBytes;
      assert consumedBytes - lastBytes == (framesConsumed - lastNotificationConsumed) * frameBytes;
      if consumedBytes - lastBytes < bytesPerNotification {
        return;
      }
      var boundary := consumedBytes / bytesPerNotification * bytesPerNotification;
      Boundary(framesConsumed, frameBytes, bytesPerNotification);
      lastNotificationConsumed := boundary / frameBytes;
      signals := signals + 1;
    }

    method OnConsumerDpc(now: int)
      requires Valid()
      modifies this`framesProduced, this`framesConsumed, this`toRing, this`lastNotificationConsumed, this`signals,
        upmixVa
      ensures Valid()
      ensures state != Run || bufferVa == null ==> unchanged(this)
      ensures state == Run && bufferVa != null ==>
        && Pos() == Tick(old(Pos()), now, bufferBytes / frameBytes)
        && var pcm := Cyclic(bufferVa[..], frameBytes, old(framesConsumed), framesConsumed - old(framesConsumed));
           |pcm| % 2 == 0 && toRing == old(toRing) + (if hasCtx then Stereo(channels, pcm) else [])
    {
      hide Cyclic, Stereo, Tick, WholeFrames, CountersOk;
      if state != Run {
        return;
      }
      DoCopyToRing(now);
    }
  }

  // A stream with one notification for its buffer of 4096 bytes is asked for two while
  // it is busy: from then on its packets are half of its notification interval.
  method BusyStreamDisagrees() returns (s: Stream)
    ensures s.bufferBytes == 4096 && s.bytesPerNotification == 4096 && s.PacketBytes() == 2048
  {
    s := new Stream(2, 0, 10_000_000, true);
    var status, size := s.AllocateAudioBuffer(4096, true, true, true, 0);
    assert BufferSize(4096, 4) == 4096;
    status, size := s.AllocateBufferWithNotification(2, 4096, true, true, true, 0);
  }

  // ----- arithmetic of the methods -----

  lemma TickCases(p: Position, now: int, frames: nat)
    ensures var t := Tick(p, now, frames);
      if now - p.runStartQpc <= 0 || p.freq <= 0 then t == p
      else
        var due := FramesDue(p.atRunStart, now - p.runStartQpc, p.freq);
        var cap := if frames > 1 then frames - 1 else frames;
        if due <= p.produced || due < p.consumed then due <= p.produced ==> t == p
        else t == p.(produced := due, consumed := p.consumed
          + (if due - p.consumed > cap then cap else due - p.consumed))
  {
    hide FramesDue;
  }

  lemma Nothing(buf: seq<Byte>, fb: nat, from: nat, channels: nat)
    requires (fb == 2 || fb == 4) && |buf| >= fb
    ensures Cyclic(buf, fb, from, 0) == [] && Stereo(channels, []) == []
  {
  }

  lemma OffsetOfFrame(frames: nat, fb: nat, bytes: nat)
    requires (fb == 2 || fb == 4) && bytes > 0 && bytes % fb == 0
    ensures var offset := frames * fb % bytes;
      offset % fb == 0 && offset / fb == frames % (bytes / fb)
  {
    var f := bytes / fb;
    assert bytes == f * fb;
    var q, r := frames / f, frames % f;
    assert frames == q * f + r;
    assert frames * fb == q * f * fb + r * fb;
    assert q * f * fb == q * bytes;
    MulLess(r, f, fb);
    DivModUnique(frames * fb, bytes, q, r * fb);
    DivModUnique(r * fb, fb, r, 0);
  }

  // The frame of the buffer that a running frame number falls on.
  function Place(number: nat, frames: nat): (r: nat)
    requires frames > 0
    ensures r < frames
  {
    number % frames
  }

  lemma WholeBytes(frames: nat, fb: nat)
    requires fb == 2 || fb == 4
    ensures Bytes(frames, fb) % fb == 0 && Bytes(frames, fb) % 2 == 0
  {
    Multiple(frames, fb);
    Even(frames * fb, fb);
  }

  lemma Even(x: nat, fb: nat)
    requires (fb == 2 || fb == 4) && x % fb == 0
    ensures x % 2 == 0
  {
  }

  // The two chunks of the copy are the frames of the cyclic buffer in order.
  lemma CopyPlan(buf: seq<Byte>, fb: nat, from: nat, n: nat, firstChunk: nat)
    requires (fb == 2 || fb == 4) && |buf| >= fb && n <= |buf| / fb
    requires var room := Bytes(|buf| / fb - Place(from, |buf| / fb), fb);
      firstChunk == if room > Bytes(n, fb) then Bytes(n, fb) else room
    ensures var at := Bytes(Place(from, |buf| / fb), fb);
      && firstChunk % fb == 0 && firstChunk <= Bytes(n, fb) && (Bytes(n, fb) - firstChunk) % fb == 0
      && firstChunk % 2 == 0 && Bytes(n, fb) % 2 == 0
      && Bytes(n, fb) <= |buf| && at + firstChunk <= |buf|
      && Cyclic(buf, fb, from, n) == buf[at..at + firstChunk] + buf[..Bytes(n, fb) - firstChunk]
  {
    hide Cyclic, Bytes;
    var f, r := |buf| / fb, Place(from, |buf| / fb);
    FramePlaces(|buf|, fb, n, f);
    FramePlaces(|buf|, fb, r, f);
    WholeBytes(n, fb);
    if r + n < f { PlanWithin(buf, fb, from, r, n); } else { PlanAcross(buf, fb, from, r, n); }
  }

  lemma PlanWithin(buf: seq<Byte>, fb: nat, from: nat, r: nat, n: nat)
    requires (fb == 2 || fb == 4) && |buf| >= fb && r == from % (|buf| / fb) && r + n < |buf| / fb
    ensures Bytes(n, fb) <= Bytes(|buf| / fb - r, fb) && Bytes(r, fb) + Bytes(n, fb) <= |buf|
    ensures Cyclic(buf, fb, from, n) == buf[Bytes(r, fb)..Bytes(r, fb) + Bytes(n, fb)] + buf[..0]
    ensures 0 % fb == 0
  {
    hide Cyclic, Bytes;
    var f := |buf| / fb;
    FramePlaces(|buf|, fb, n, f - r);
    FramePlaces(|buf|, fb, r, r + n);
    assert r + n - r == n;
    Straight(buf, fb, from, r, n);
  }

  lemma PlanAcross(buf: seq<Byte>, fb: nat, from: nat, r: nat, n: nat)
    requires (fb == 2 || fb == 4) && |buf| >= fb && r == from % (|buf| / fb) && n <= |buf| / fb <= r + n
    ensures var first := Bytes(|buf| / fb - r, fb);
      && first <= Bytes(n, fb) && first % fb == 0 && (Bytes(n, fb) - first) % fb == 0 && first % 2 == 0
      && Bytes(r, fb) + first <= |buf| && Bytes(n, fb) - first <= |buf|
      && Cyclic(buf, fb, from, n) == buf[Bytes(r, fb)..Bytes(r, fb) + first] + buf[..Bytes(n, fb) - first]
  {
    hide Cyclic, Bytes;
    var f := |buf| / fb;
    FramePlaces(|buf|, fb, r, f);
    FramePlaces(|buf|, fb, f - r, n);
    assert n - (f - r) == r + n - f;
    WholeBytes(f - r, fb);
    WholeBytes(r + n - f, fb);
    TwoPieces(buf, fb, from, r, n);
  }

  function Down(x: nat, m: nat): (r: nat)
    requires m > 0
    ensures r <= x < r + m && r == x / m * m && r / m == x / m
  {
    assert x == x / m * m + x % m;
    MulLess(0, x / m, m);
    Multiple(x / m, m);
    x / m * m
  }

  // Rounding the consumed bytes down to a multiple of b, and that to frames.
  lemma Boundary(frames: nat, fb: nat, b: nat)
    requires fb > 0 && b > 0
    ensures var boundary := frames * fb / b * b;
      var last := boundary / fb;
      && 0 <= boundary && 0 <= last <= frames
      && (frames - last) * fb < b + fb
      && (b % fb == 0 ==> (frames - last) * fb < b && last * fb % b == 0)
  {
    var bytes := frames * fb;
    var boundary := Down(bytes, b);
    var rounded := Down(boundary, fb);
    var last := boundary / fb;
    Distribute(frames, last, fb);
    assert (frames - last) * fb == bytes - rounded;
    MulLess(frames + 1, last, fb);
    Distribute(frames, 1, fb);
    if b % fb == 0 {
      WholeBoundary(bytes / b, b, fb);
      Multiple(last, fb);
      assert boundary == rounded by { assert boundary == boundary / fb * fb + boundary % fb; }
    }
  }

  lemma WholeBoundary(q: nat, b: nat, fb: nat)
    requires fb > 0 && b > 0 && b % fb == 0
    ensures q * b % fb == 0 && q * b % b == 0
  {
    var k := b / fb;
    assert b == k * fb;
    assert q * (k * fb) == q * k * fb;
    Multiple(q * k, fb);
    Multiple(q, b);
  }
}
