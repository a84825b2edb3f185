/**
 The incremental reader of a connection: heads, lines, bodies and chunks,
 taken from a buffer that fills as bytes arrive.
 */
module HttpReader {
  import opened Common
  import opened HttpText
  import opened HttpHead

  const READ_BYTES: nat := 4096
  const MAX_LINE_BYTES: nat := 1024
  const SEMICOLON: Byte := 59

  // How reading ends once everything has arrived.
  datatype Ending = Eof | TimedOut | Failed

  // Conn::buf, and the bytes that successive reads of the socket will return.
  datatype Wire = Wire(buf: Bytes, input: seq<Bytes>, ending: Ending)

  datatype BodyErr = BodyTooLarge | BodyTimeout | BodyBad | Expectation | BodyIo

  // A read returns at least one byte, and at most its scratch array.
  predicate Good(w: Wire) {
    forall i :: 0 <= i < |w.input| ==> 0 < |w.input[i]| <= READ_BYTES
  }

  function Flat(input: seq<Bytes>): Bytes {
    if input == [] then [] else input[0] + Flat(input[1..])
  }

  // All bytes not consumed yet.
  function Stream(w: Wire): Bytes {
    w.buf + Flat(w.input)
  }

  function Arrive(w: Wire): (r: Wire)
    requires w.input != []
    ensures Stream(r) == Stream(w) && r.ending == w.ending && |r.input| < |w.input|
  {
    var r := Wire(w.buf + w.input[0], w.input[1..], w.ending);
    assert Stream(r) == Stream(w);
    r
  }

  // ----- heads -----

  function StripCrlf(b: Bytes): (r: Bytes)
    ensures |r| <= |b|
  {
    if CRLF <= b then StripCrlf(b[2..]) else b
  }

  function HeadEnd(w: Wire): HeadErr {
    match w.ending
    case Eof => if w.buf == [] then Closed else Bad
    case TimedOut => Timeout
    case Failed => Io
  }

  // read_head, by what it leaves unread.
  function HeadRun(w: Wire): (r: (Result<Head, HeadErr>, Wire))
    ensures |Stream(r.1)| <= |Stream(w)| && (r.0.Ok? ==> |Stream(r.1)| < |Stream(w)|)
    ensures r.1.ending == w.ending
    decreases |w.input|
  {
    var b := StripCrlf(w.buf);
    var v := w.(buf := b);
    match Find(b, BLANK, 0)
    case Some(pos) =>
      if pos > MAX_HEAD_BYTES then (Err(TooLarge), v)
      else (ParseHead(b[..pos]), w.(buf := b[pos + 4..]))
    case None =>
      if |b| > MAX_HEAD_BYTES then (Err(TooLarge), v)
      else if v.input == [] then (Err(HeadEnd(v)), v)
      else HeadRun(Arrive(v))
  }

  // The same from the bytes alone. None: it depends on how they arrive.
  function HeadOf(s: Bytes, ending: Ending): Option<(Result<Head, HeadErr>, Bytes)> {
    var t := StripCrlf(s);
    match Find(t, BLANK, 0)
    case Some(pos) =>
      if pos + 3 <= MAX_HEAD_BYTES then Some((ParseHead(t[..pos]), t[pos + 4..]))
      else if pos > MAX_HEAD_BYTES then Some((Err(TooLarge), t))
      else None
    case None =>
      if |t| > MAX_HEAD_BYTES then Some((Err(TooLarge), t))
      else Some((Err(HeadEnd(Wire(t, [], ending))), t))
  }

  lemma {:induction false} StripTwice(b: Bytes, t: Bytes)
    ensures StripCrlf(StripCrlf(b) + t) == StripCrlf(b + t)
    ensures !(CRLF <= StripCrlf(b))
    decreases |b|
  {
    if CRLF <= b {
      StripTwice(b[2..], t);
      assert (b + t)[2..] == b[2..] + t;
      assert CRLF <= b + t;
    }
  }

  lemma StrippedStays(b: Bytes, t: Bytes)
    requires |b| >= 2 && !(CRLF <= b)
    ensures StripCrlf(b + t) == b + t
  {
    assert (b + t)[..2] == b[..2];
  }

  // What read_head makes of a request depends only on its bytes, wherever HeadOf says so.
  lemma {:induction false} HeadRunIsHeadOf(w: Wire)
    ensures var o := HeadOf(Stream(w), w.ending);
      o.Some? ==> HeadRun(w).0 == o.value.0 && (HeadRun(w).0.Ok? ==> Stream(HeadRun(w).1) == o.value.1)
    decreases |w.input|
  {
    hide ParseHead, HeadEnd, Find, StripCrlf;
    var b, t := StripCrlf(w.buf), Flat(w.input);
    StripTwice(w.buf, t);
    var v := w.(buf := b);
    assert Stream(v) == b + t;
    FindExtends(b, BLANK, t);
    if Find(b, BLANK, 0).Some? {
      var pos := Find(b, BLANK, 0).value;
      StrippedStays(b, t);
      assert (b + t)[..pos] == b[..pos] && (b + t)[pos + 4..] == b[pos + 4..] + t;
    } else if |b| > MAX_HEAD_BYTES {
      StrippedStays(b, t);
    } else if v.input == [] {
      assert b + t == b;
      StripTwice(w.buf, []);
      assert w.buf + [] == w.buf && b + [] == b;
    } else {
      HeadRunIsHeadOf(Arrive(v));
      StripTwice(b, t);
    }
  }

  // ----- lines -----

  function BodyEnd(ending: Ending): BodyErr {
    match ending
    case Eof => BodyBad
    case TimedOut => BodyTimeout
    case Failed => BodyIo
  }

  // read_line
  function LineRun(w: Wire, max: nat): (r: (Result<Bytes, BodyErr>, Wire))
    ensures |Stream(r.1)| <= |Stream(w)| && (r.0.Ok? ==> |Stream(r.1)| < |Stream(w)|)
    ensures r.1.ending == w.ending
    decreases |w.input|
  {
    match Find(w.buf, CRLF, 0)
    case Some(p) => (if Utf8(w.buf[..p]) then Ok(w.buf[..p]) else Err(BodyBad), w.(buf := w.buf[p + 2..]))
    case None =>
      if |w.buf| > max then (Err(BodyBad), w)
      else if w.input == [] then (Err(BodyEnd(w.ending)), w)
      else LineRun(Arrive(w), max)
  }

  // A line shorter than the limit is found however it arrives.
  lemma {:induction false} LineFound(w: Wire, max: nat)
    requires Find(Stream(w), CRLF, 0).Some? && Find(Stream(w), CRLF, 0).value < max
    ensures var p, s := Find(Stream(w), CRLF, 0).value, Stream(w);
      && LineRun(w, max).0 == (if Utf8(s[..p]) then Ok(s[..p]) else Err(BodyBad))
      && Stream(LineRun(w, max).1) == s[p + 2..]
    decreases |w.input|
  {
    hide Utf8;
    FindExtends(w.buf, CRLF, Flat(w.input));
    var s, p := Stream(w), Find(Stream(w), CRLF, 0).value;
    if Find(w.buf, CRLF, 0).Some? {
      assert s[..p] == w.buf[..p] && s[p + 2..] == w.buf[p + 2..] + Flat(w.input);
    } else {
      assert w.input == [] ==> s == w.buf;
      if w.input != [] { LineFound(Arrive(w), max); }
    }
  }

  // ----- counted bytes -----

  // Waits for n bytes.
  function TakeRun(w: Wire, n: nat): (r: (Option<BodyErr>, Wire))
    ensures Stream(r.1) == Stream(w) && r.1.ending == w.ending
    ensures r.0.None? <==> |r.1.buf| >= n
    ensures r.0.None? <==> |Stream(w)| >= n
    decreases |w.input|
  {
    if |w.buf| >= n then (None, w)
    else if w.input == [] then (Some(BodyEnd(w.ending)), w)
    else TakeRun(Arrive(w), n)
  }

  // ----- chunks (RFC 9112, section 7.1) -----

  function ChunkSize(line: Bytes): Option<nat> {
    var size := Trim(Split(line, [SEMICOLON])[0]);
    if size == [] || |size| > 8 then None
    else if forall i :: 0 <= i < |size| ==> IsHex(size[i]) then Some(Hexadecimal(size))
    else None
  }

  // The trailer section, at most k lines.
  function TrailerRun(w: Wire, k: nat): (r: (Option<BodyErr>, Wire))
    ensures |Stream(r.1)| <= |Stream(w)| && r.1.ending == w.ending
    decreases k
  {
    if k == 0 then (Some(BodyBad), w)
    else
      var (line, v) := LineRun(w, MAX_LINE_BYTES);
      match line
      case Err(e) => (Some(e), v)
      case Ok(l) => if l == [] then (None, v) else TrailerRun(v, k - 1)
  }

  // read_chunked
  function ChunkedRun(w: Wire, out: Bytes, cap: nat): (r: (Result<Bytes, BodyErr>, Wire))
    ensures |Stream(r.1)| <= |Stream(w)| && r.1.ending == w.ending
    decreases |Stream(w)|
  {
    var (line, v) := LineRun(w, MAX_LINE_BYTES);
    match line
    case Err(e) => (Err(e), v)
    case Ok(l) =>
      var size := ChunkSize(l);
      if size.None? then (Err(BodyBad), v)
      else if size.value == 0 then
        var (e, u) := TrailerRun(v, MAX_HEADERS);
        (if e.None? then Ok(out) else Err(e.value), u)
      else if |out| + size.value > cap then (Err(BodyTooLarge), v)
      else
        var n := size.value;
        var (e, u) := TakeRun(v, n + 2);
        if e.Some? then (Err(e.value), u)
        else if u.buf[n..n + 2] != CRLF then (Err(BodyBad), u)
        else
          var z := u.(buf := u.buf[n + 2..]);
          assert |Stream(z)| < |Stream(u)|;
          ChunkedRun(z, out + u.buf[..n], cap)
  }

  // ----- bodies (RFC 9112, section 6.3) -----

  predicate ExpectOk(h: Head) {
    var e := Lookup(h.headers, Ascii("expect"));
    e.None? || EqIgnoreCase(Trim(e.value), Ascii("100-continue"))
  }

  // read_body; the interim 100 response is not part of this model.
  function BodyRun(w: Wire, h: Head, cap: nat): (r: (Result<Bytes, BodyErr>, Wire))
    ensures |Stream(r.1)| <= |Stream(w)| && r.1.ending == w.ending
  {
    if h.body.Length? && h.body.n > cap then (Err(BodyTooLarge), w)
    else if !ExpectOk(h) then (Err(Expectation), w)
    else
      match h.body
      case NoBody => (Ok([]), w)
      case Length(n) =>
        var (e, v) := TakeRun(w, n);
        if e.Some? then (Err(e.value), v) else (Ok(v.buf[..n]), v.(buf := v.buf[n..]))
      case Chunked => ChunkedRun(w, [], cap)
  }

  // ----- well-formed messages -----

  datatype Chunk = Chunk(line: Bytes, data: Bytes)

  datatype Payload = Raw(data: Bytes) | Chunks(parts: seq<Chunk>, last: Bytes, trailers: seq<Bytes>)

  // A line the reader finds whole.
  predicate LineOk(line: Bytes) {
    Utf8(line) && |line| < MAX_LINE_BYTES && Find(line + CRLF, CRLF, 0) == Some(|line|)
  }

  function Lines(lines: seq<Bytes>): Bytes {
    if lines == [] then [] else lines[0] + CRLF + Lines(lines[1..])
  }

  function ChunkBytes(parts: seq<Chunk>): Bytes {
    if parts == [] then [] else parts[0].line + CRLF + parts[0].data + CRLF + ChunkBytes(parts[1..])
  }

  function ChunkData(parts: seq<Chunk>): Bytes {
    if parts == [] then [] else parts[0].data + ChunkData(parts[1..])
  }

  // As sent, and as meant.
  function PayloadBytes(p: Payload): Bytes {
    match p
    case Raw(data) => data
    case Chunks(parts, last, trailers) => ChunkBytes(parts) + (last + CRLF + (Lines(trailers) + CRLF))
  }

  function Decoded(p: Payload): Bytes {
    match p
    case Raw(data) => data
    case Chunks(parts, _, _) => ChunkData(parts)
  }

  predicate PartsOk(parts: seq<Chunk>) {
    forall i :: 0 <= i < |parts| ==>
      LineOk(parts[i].line) && parts[i].data != [] && ChunkSize(parts[i].line) == Some(|parts[i].data|)
  }

  predicate TrailersOk(trailers: seq<Bytes>) {
    |trailers| < MAX_HEADERS && forall i :: 0 <= i < |trailers| ==> LineOk(trailers[i]) && trailers[i] != []
  }

  // The payload is framed as the head says, within the cap.
  predicate Framed(kind: BodyKind, p: Payload, cap: nat) {
    && |Decoded(p)| <= cap
    && match kind
       case NoBody => p == Raw([])
       case Length(n) => p.Raw? && |p.data| == n
       case Chunked =>
         p.Chunks? && PartsOk(p.parts) && LineOk(p.last) && ChunkSize(p.last) == Some(0) && TrailersOk(p.trailers)
  }

  // Reading one sent line leaves what follows it.
  lemma LineReads(w: Wire, line: Bytes, rest: Bytes)
    requires LineOk(line) && Stream(w) == line + CRLF + rest
    ensures LineRun(w, MAX_LINE_BYTES).0 == Ok(line) && Stream(LineRun(w, MAX_LINE_BYTES).1) == rest
  {
    hide Utf8;
    FindExtends(line + CRLF, CRLF, rest);
    LineFound(w, MAX_LINE_BYTES);
    assert Stream(w)[..|line|] == line && Stream(w)[|line| + 2..] == rest;
  }

  lemma EmptyLineOk()
    ensures LineOk([])
  {
    assert [] + CRLF == CRLF;
    FindIs(CRLF, CRLF, 0, 0);
  }

  lemma {:induction false} TrailersRead(w: Wire, trailers: seq<Bytes>, k: nat, rest: Bytes)
    requires |trailers| < k && forall i :: 0 <= i < |trailers| ==> LineOk(trailers[i]) && trailers[i] != []
    requires Stream(w) == Lines(trailers) + CRLF + rest
    ensures TrailerRun(w, k).0 == None && Stream(TrailerRun(w, k).1) == rest
    decreases |trailers|
  {
    hide LineOk, LineRun;
    if trailers == [] {
      EmptyLineOk();
      assert Stream(w) == [] + CRLF + rest;
      LineReads(w, [], rest);
    } else {
      var more := Lines(trailers[1..]) + CRLF + rest;
      assert Stream(w) == trailers[0] + CRLF + more;
      LineReads(w, trailers[0], more);
      TrailersRead(LineRun(w, MAX_LINE_BYTES).1, trailers[1..], k - 1, rest);
    }
  }

  // More are refused, whatever follows them.
  lemma {:induction false} TrailersRefused(w: Wire, trailers: seq<Bytes>, k: nat, rest: Bytes)
    requires k <= |trailers| && forall i :: 0 <= i < |trailers| ==> LineOk(trailers[i]) && trailers[i] != []
    requires Stream(w) == Lines(trailers) + rest
    ensures TrailerRun(w, k).0 == Some(BodyBad)
    decreases k
  {
    hide LineOk, LineRun;
    if k > 0 {
      var more := Lines(trailers[1..]) + rest;
      assert Stream(w) == trailers[0] + CRLF + more;
      LineReads(w, trailers[0], more);
      TrailersRefused(LineRun(w, MAX_LINE_BYTES).1, trailers[1..], k - 1, rest);
    }
  }

  // A trailer section is read if and only if it has fewer lines than the limit.
  lemma TrailersExactly(w: Wire, trailers: seq<Bytes>, k: nat, rest: Bytes)
    requires forall i :: 0 <= i < |trailers| ==> LineOk(trailers[i]) && trailers[i] != []
    requires Stream(w) == Lines(trailers) + CRLF + rest
    ensures TrailerRun(w, k).0 == None <==> |trailers| < k
    ensures |trailers| < k ==> Stream(TrailerRun(w, k).1) == rest
  {
    hide TrailerRun, LineOk;
    if |trailers| < k {
      TrailersRead(w, trailers, k, rest);
    } else {
      assert Stream(w) == Lines(trailers) + (CRLF + rest);
      TrailersRefused(w, trailers, k, CRLF + rest);
    }
  }

  // Decoding undoes the chunked coding, whatever sizes, extensions and trailers it uses.
  lemma {:induction false} ChunksRead(w: Wire, parts: seq<Chunk>, last: Bytes, trailers: seq<Bytes>, out: Bytes,
      cap: nat, rest: Bytes)
    requires PartsOk(parts) && LineOk(last) && ChunkSize(last) == Some(0) && TrailersOk(trailers)
    requires |out + ChunkData(parts)| <= cap
    requires Stream(w) == ChunkBytes(parts) + (last + CRLF + (Lines(trailers) + CRLF)) + rest
    ensures ChunkedRun(w, out, cap).0 == Ok(out + ChunkData(parts)) && Stream(ChunkedRun(w, out, cap).1) == rest
    decreases |parts|
  {
    hide LineOk, ChunkSize, LineRun, TakeRun, TrailerRun, Lines;
    if parts == [] {
      var more := Lines(trailers) + CRLF + rest;
      assert Stream(w) == last + CRLF + more;
      LineReads(w, last, more);
      TrailersRead(LineRun(w, MAX_LINE_BYTES).1, trailers, MAX_HEADERS, rest);
      assert out + ChunkData(parts) == out;
    } else {
      var end := last + CRLF + (Lines(trailers) + CRLF);
      var c, n := parts[0], |parts[0].data|;
      var after := ChunkBytes(parts[1..]) + end + rest;
      var more := c.data + CRLF + after;
      assert Stream(w) == c.line + CRLF + more;
      LineReads(w, c.line, more);
      var v := LineRun(w, MAX_LINE_BYTES).1;
      var u := TakeRun(v, n + 2).1;
      DataTaken(u, c.data, after);
      assert out + c.data + ChunkData(parts[1..]) == out + ChunkData(parts);
      ChunksRead(u.(buf := u.buf[n + 2..]), parts[1..], last, trailers, out + c.data, cap, rest);
    }
  }

  lemma DataTaken(u: Wire, data: Bytes, after: Bytes)
    requires Stream(u) == data + CRLF + after && |u.buf| >= |data| + 2
    ensures u.buf[..|data|] == data && u.buf[|data|..|data| + 2] == CRLF
    ensures Stream(u.(buf := u.buf[|data| + 2..])) == after
  {
    var n := |data|;
    assert u.buf[..n] == Stream(u)[..n];
    assert u.buf[n..n + 2] == Stream(u)[n..n + 2];
    assert u.buf[n + 2..] + Flat(u.input) == Stream(u)[n + 2..];
  }

  // A well-formed body is read exactly, and nothing behind it.
  lemma BodyReads(w: Wire, h: Head, p: Payload, cap: nat, rest: Bytes)
    requires Framed(h.body, p, cap) && ExpectOk(h) && Stream(w) == PayloadBytes(p) + rest
    ensures BodyRun(w, h, cap).0 == Ok(Decoded(p)) && Stream(BodyRun(w, h, cap).1) == rest
  {
    hide ExpectOk, LineOk, ChunkedRun, TakeRun;
    match h.body
    case NoBody =>
      assert Stream(w) == rest;
    case Length(n) =>
      var v := TakeRun(w, n).1;
      assert v.buf[..n] == Stream(v)[..n];
      assert v.buf[n..] + Flat(v.input) == Stream(v)[n..];
    case Chunked =>
      ChunksRead(w, p.parts, p.last, p.trailers, [], cap, rest);
      assert [] + ChunkData(p.parts) == ChunkData(p.parts);
  }
}
