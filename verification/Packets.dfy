/**
 The audio packet: as the driver writes it into the user's buffer, and as the
 service reads it back.
 */
module Packets {
  import opened Common

  // ----- little-endian integers -----

  function Le(n: nat, width: nat): (b: seq<Byte>)
    ensures |b| == width
  {
    if width == 0 then [] else [n % 256] + Le(n / 256, width - 1)
  }

  function FromLe(b: seq<Byte>): nat {
    if b == [] then 0 else b[0] + 256 * FromLe(b[1..])
  }

  function Limit(width: nat): nat {
    if width == 0 then 1 else 256 * Limit(width - 1)
  }

  // Storing an integer and loading it again truncates it to its width.
  lemma {:induction false} FromLeLe(n: nat, width: nat)
    requires n < Limit(width)
    ensures FromLe(Le(n, width)) == n
  {
    if width > 0 {
      assert Le(n, width)[1..] == Le(n / 256, width - 1);
      FromLeLe(n / 256, width - 1);
    }
  }

  const U16 := 0x1_0000
  const U32 := 0x1_0000_0000
  const U64 := 0x1_0000_0000_0000_0000

  lemma Limits()
    ensures Limit(2) == U16 && Limit(4) == U32 && Limit(8) == U64
  {
    assert Limit(2) == 256 * Limit(1) && Limit(1) == 256 * Limit(0);
    assert Limit(4) == 256 * Limit(3) && Limit(3) == 256 * Limit(2);
    assert Limit(8) == 256 * Limit(7) && Limit(7) == 256 * Limit(6);
    assert Limit(6) == 256 * Limit(5) && Limit(5) == 256 * Limit(4);
  }

  // ----- samples -----

  function Sample(lo: Byte, hi: Byte): int {
    var u := lo + 256 * hi;
    if u >= 0x8000 then u - 0x1_0000 else u
  }

  // The 16-bit samples of a stretch of PCM; an odd byte at the end is left out.
  function Samples(pcm: seq<Byte>): (s: seq<int>)
    ensures |s| == |pcm| / 2
  {
    seq(|pcm| / 2, i requires 0 <= i < |pcm| / 2 => Sample(pcm[2 * i], pcm[2 * i + 1]))
  }

  // Whole samples lose nothing: the PCM bytes can be told from them.
  lemma SamplesInjective(a: seq<Byte>, b: seq<Byte>)
    requires |a| % 2 == 0 && |b| % 2 == 0 && Samples(a) == Samples(b)
    ensures a == b
  {
    assert |a| == 2 * |Samples(a)| && |b| == 2 * |Samples(b)|;
    forall k | 0 <= k < |a| ensures a[k] == b[k] {
      assert Samples(a)[k / 2] == Samples(b)[k / 2];
    }
  }

  lemma SamplesConcat(a: seq<Byte>, b: seq<Byte>)
    requires |a| % 2 == 0
    ensures Samples(a + b) == Samples(a) + Samples(b)
  {
  }

  // ----- the header -----

  const HEADER_BYTES := 40
  const FRAME_BYTES := 4
  const MAX_PACKET_BYTES := 8192
  const SAMPLE_RATE := 44100
  const BITS_PER_SAMPLE := 16
  const CHANNELS := 2
  const FLAG_STREAM_RESTART := 1
  const FLAG_HINT_SILENT := 2

  datatype Header = Header(
    sampleRate: nat, bitsPerSample: nat, channels: nat, frames: nat, dataBytes: nat, flags: nat,
    timestampQpc: nat, streamPosition: nat)

  predicate Fits(h: Header) {
    && h.sampleRate < U32 && h.bitsPerSample < U16 && h.channels < U16 && h.frames < U32
    && h.dataBytes < U32 && h.flags < U32 && h.timestampQpc < U64 && h.streamPosition < U64
  }

  // The 40 bytes of the structure; the compiler leaves four bytes of padding
  // before the 64-bit fields, which nobody writes.
  function EncodeHeader(h: Header, padding: seq<Byte>): (b: seq<Byte>)
    requires |padding| == 4
    ensures |b| == HEADER_BYTES
  {
    Le(h.sampleRate, 4) + Le(h.bitsPerSample, 2) + Le(h.channels, 2) + Le(h.frames, 4) + Le(h.dataBytes, 4)
    + Le(h.flags, 4) + padding + Le(h.timestampQpc, 8) + Le(h.streamPosition, 8)
  }

  function DecodeHeader(b: seq<Byte>): Header
    requires |b| >= HEADER_BYTES
  {
    Header(FromLe(b[0..4]), FromLe(b[4..6]), FromLe(b[6..8]), FromLe(b[8..12]), FromLe(b[12..16]),
           FromLe(b[16..20]), FromLe(b[24..32]), FromLe(b[32..40]))
  }

  lemma HeaderRoundTrip(h: Header, padding: seq<Byte>, rest: seq<Byte>)
    requires |padding| == 4 && Fits(h)
    ensures DecodeHeader(EncodeHeader(h, padding) + rest) == h
  {
    hide Le, FromLe, Limit;
    Limits();
    var b := EncodeHeader(h, padding) + rest;
    assert b[0..4] == Le(h.sampleRate, 4);
    assert b[4..6] == Le(h.bitsPerSample, 2);
    assert b[6..8] == Le(h.channels, 2);
    assert b[8..12] == Le(h.frames, 4);
    assert b[12..16] == Le(h.dataBytes, 4);
    assert b[16..20] == Le(h.flags, 4);
    assert b[24..32] == Le(h.timestampQpc, 8);
    assert b[32..40] == Le(h.streamPosition, 8);
    FromLeLe(h.sampleRate, 4);
    FromLeLe(h.bitsPerSample, 2);
    FromLeLe(h.channels, 2);
    FromLeLe(h.frames, 4);
    FromLeLe(h.dataBytes, 4);
    FromLeLe(h.flags, 4);
    FromLeLe(h.timestampQpc, 8);
    FromLeLe(h.streamPosition, 8);
  }

  // ----- recv_packet -----

  datatype Packet = Packet(
    samples: seq<int>, sampleRate: nat, channels: nat, timestampQpc: nat, streamPosition: nat, flags: nat)

  datatype Refusal = Short | Truncated | TooLong | UnsupportedFormat

  function Silence(frames: nat): Packet {
    Packet(seq(frames * CHANNELS, _ => 0), SAMPLE_RATE, CHANNELS, 0, 0, FLAG_HINT_SILENT)
  }

  // The two flag bits the service keeps.
  function KeptFlags(flags: nat): nat {
    (if flags % 2 == 1 then FLAG_STREAM_RESTART else 0) + (if flags / 2 % 2 == 1 then FLAG_HINT_SILENT else 0)
  }

  // What the service makes of a completed request: `returned` bytes of `buffer`
  // are filled in.
  function Receive(buffer: seq<Byte>, returned: nat): Result<Packet, Refusal>
    requires returned <= |buffer|
  {
    if returned == 0 then Ok(Silence(SAMPLE_RATE / 100))
    else if returned < HEADER_BYTES then Err(Short)
    else
      var h := DecodeHeader(buffer);
      if returned < HEADER_BYTES + h.dataBytes then Err(Truncated)
      else if h.dataBytes > MAX_PACKET_BYTES then Err(TooLong)
      else if h.bitsPerSample != 16 || h.channels != 2 then Err(UnsupportedFormat)
      else
        Ok(Packet(Samples(buffer[HEADER_BYTES..HEADER_BYTES + h.dataBytes]), h.sampleRate, h.channels,
                  h.timestampQpc, h.streamPosition, KeptFlags(h.flags)))
  }

  // recv_packet, after the DeviceIoControl call.
  method RecvPacket(scratchIn: array<Byte>, returned: nat) returns (r: Result<Packet, Refusal>)
    requires returned <= scratchIn.Length
    ensures r == Receive(scratchIn[..], returned)
  {
    hide DecodeHeader;
    if returned == 0 {
      return Ok(Silence(SAMPLE_RATE / 100));
    }
    if returned < HEADER_BYTES {
      return Err(Short);
    }
    var header := DecodeHeader(scratchIn[..]);
    var dataBytes := header.dataBytes;
    if returned < HEADER_BYTES + dataBytes {
      return Err(Truncated);
    }
    if dataBytes > MAX_PACKET_BYTES {
      return Err(TooLong);
    }
    if header.bitsPerSample != 16 || header.channels != 2 {
      return Err(UnsupportedFormat);
    }
    var nSamples := dataBytes / 2;
    var scratchOut := [];
    ghost var pcm := scratchIn[HEADER_BYTES..HEADER_BYTES + dataBytes];
    for i := 0 to nSamples
      invariant scratchOut == Samples(pcm)[..i]
    {
      scratchOut := scratchOut + [Sample(scratchIn[HEADER_BYTES + 2 * i], scratchIn[HEADER_BYTES + 2 * i + 1])];
    }
    assert Samples(pcm)[..nSamples] == Samples(pcm);
    assert scratchIn[..][HEADER_BYTES..HEADER_BYTES + dataBytes] == pcm;
    var flags := 0;
    if header.flags % 2 == 1 {
      flags := flags + FLAG_STREAM_RESTART;
    }
    if header.flags / 2 % 2 == 1 {
      flags := flags + FLAG_HINT_SILENT;
    }
    return Ok(Packet(scratchOut, header.sampleRate, header.channels, header.timestampQpc, header.streamPosition,
      flags));
  }

  // ----- what the driver writes -----

  // The user's buffer `before`, with a header and the PCM bytes laid over it.
  function Filled(before: seq<Byte>, h: Header, pcm: seq<Byte>): (b: seq<Byte>)
    requires |before| >= HEADER_BYTES + |pcm|
    ensures |b| == |before|
  {
    EncodeHeader(h, before[20..24]) + pcm + before[HEADER_BYTES + |pcm|..]
  }

  // The header of a packet of PCM.
  function PacketHeader(pcm: seq<Byte>, restart: bool, qpc: nat, position: nat): Header {
    Header(SAMPLE_RATE, BITS_PER_SAMPLE, CHANNELS, |pcm| / FRAME_BYTES, |pcm|,
           if restart then FLAG_STREAM_RESTART else 0, qpc % U64, position % U64)
  }

  // The service reads exactly the samples, position, time and flag that the
  // driver put in, whatever was in the buffer before.
  lemma PacketRoundTrip(before: seq<Byte>, pcm: seq<Byte>, restart: bool, qpc: nat, position: nat)
    requires HEADER_BYTES + |pcm| <= |before| && |pcm| <= MAX_PACKET_BYTES
    ensures Receive(Filled(before, PacketHeader(pcm, restart, qpc, position), pcm), HEADER_BYTES + |pcm|)
         == Ok(Packet(Samples(pcm), SAMPLE_RATE, CHANNELS, qpc % U64, position % U64,
                      if restart then FLAG_STREAM_RESTART else 0))
  {
    hide DecodeHeader, EncodeHeader, Samples;
    var h := PacketHeader(pcm, restart, qpc, position);
    var pad, rest := before[20..24], pcm + before[HEADER_BYTES + |pcm|..];
    HeaderRoundTrip(h, pad, rest);
    var b := Filled(before, h, pcm);
    assert b == EncodeHeader(h, pad) + rest;
    assert b[HEADER_BYTES..HEADER_BYTES + |pcm|] == pcm;
  }
}
