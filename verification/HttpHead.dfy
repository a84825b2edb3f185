/** The request head: parsing, the body framing it announces (RFC 9112, section 6.3), and rendering. */
module HttpHead {
  import opened Common
  import opened HttpText

  const MAX_HEAD_BYTES: nat := 16384
  const MAX_HEADERS: nat := 64

  datatype BodyKind = NoBody | Length(n: nat) | Chunked

  datatype Header = Header(name: Bytes, value: Bytes)

  // `method`, `target` and so on as in the request line; `minor` of HTTP/1.x.
  datatype Head = Head(verb: Bytes, target: Bytes, minor: nat, headers: seq<Header>, body: BodyKind)

  datatype HeadErr = Closed | Timeout | Io | TooLarge | Bad | Version | NotImplemented

  // ----- header lines -----

  predicate ControlFree(value: Bytes) {
    forall i :: 0 <= i < |value| ==> !(value[i] < SP && value[i] != TAB) && value[i] != 127
  }

  function ParseHeader(line: Bytes): Result<Header, HeadErr> {
    var p := Find(line, [COLON], 0);
    if p.None? || !IsToken(line[..p.value]) then Err(Bad)
    else
      var value := TrimBlanks(line[p.value + 1..]);
      if ControlFree(value) then Ok(Header(line[..p.value], value)) else Err(Bad)
  }

  function ParseHeaders(lines: seq<Bytes>, parsed: seq<Header>): Result<seq<Header>, HeadErr>
    decreases |lines|
  {
    if lines == [] then Ok(parsed)
    else if |parsed| >= MAX_HEADERS then Err(TooLarge)
    else
      match ParseHeader(lines[0])
      case Err(e) => Err(e)
      case Ok(h) => ParseHeaders(lines[1..], parsed + [h])
  }

  // ----- framing -----

  // The first value under a name.
  function Lookup(headers: seq<Header>, name: Bytes): Option<Bytes> {
    if headers == [] then None
    else if EqIgnoreCase(headers[0].name, name) then Some(headers[0].value)
    else Lookup(headers[1..], name)
  }

  function Values(headers: seq<Header>, name: Bytes): seq<Bytes> {
    if headers == [] then []
    else (if EqIgnoreCase(headers[0].name, name) then [headers[0].value] else []) + Values(headers[1..], name)
  }

  function ContentLength(value: Bytes): Option<nat> {
    var v := Trim(value);
    if v == [] || |v| > 19 then None
    else if forall i :: 0 <= i < |v| ==> IsDigit(v[i]) then Some(Decimal(v))
    else None
  }

  const TRANSFER_ENCODING := Ascii("transfer-encoding")
  const CONTENT_LENGTH := Ascii("content-length")

  function Frame(headers: seq<Header>): Result<BodyKind, HeadErr> {
    var te, lengths := Lookup(headers, TRANSFER_ENCODING), Values(headers, CONTENT_LENGTH);
    if te.Some? then
      if lengths != [] then Err(Bad)
      else if !EqIgnoreCase(Trim(te.value), Ascii("chunked")) then Err(NotImplemented)
      else Ok(Chunked)
    else if lengths != [] then
      var n := ContentLength(lengths[0]);
      if n.None? || exists i :: 0 <= i < |lengths| && ContentLength(lengths[i]) != n then Err(Bad)
      else Ok(if n.value == 0 then NoBody else Length(n.value))
    else Ok(NoBody)
  }

  // ----- the request line -----

  datatype RequestLine = RequestLine(verb: Bytes, target: Bytes, minor: nat)

  predicate TargetOk(target: Bytes) {
    target != [] && target[0] == 47 && forall i :: 0 <= i < |target| ==> target[i] > SP && target[i] != 127
  }

  function ParseRequestLine(line: Bytes): Result<RequestLine, HeadErr> {
    var parts := Split(line, [SP]);
    if |parts| != 3 then Err(Bad)
    else if !IsToken(parts[0]) || !TargetOk(parts[1]) then Err(Bad)
    else if parts[2] == Ascii("HTTP/1.1") then Ok(RequestLine(parts[0], parts[1], 1))
    else if parts[2] == Ascii("HTTP/1.0") then Ok(RequestLine(parts[0], parts[1], 0))
    else if Ascii("HTTP/") <= parts[2] then Err(Version)
    else Err(Bad)
  }

  function ParseHead(bytes: Bytes): Result<Head, HeadErr> {
    if !Utf8(bytes) then Err(Bad)
    else
      var lines := Split(bytes, CRLF);
      match ParseRequestLine(lines[0])
      case Err(e) => Err(e)
      case Ok(r) =>
        match ParseHeaders(lines[1..], [])
        case Err(e) => Err(e)
        case Ok(headers) =>
          match Frame(headers)
          case Err(e) => Err(e)
          case Ok(body) => Ok(Head(r.verb, r.target, r.minor, headers, body))
  }

  // parse_head with its loop over the header lines.
  method ReadParsedHead(bytes: Bytes) returns (r: Result<Head, HeadErr>)
    ensures r == ParseHead(bytes)
  {
    hide Utf8, Split, ParseRequestLine, ParseHeader, Frame;
    if !Utf8(bytes) {
      return Err(Bad);
    }
    var lines := Split(bytes, CRLF);
    var first := ParseRequestLine(lines[0]);
    if first.Err? {
      return Err(first.error);
    }
    var headers: seq<Header> := [];
    for k := 1 to |lines|
      invariant ParseHeaders(lines[1..], []) == ParseHeaders(lines[k..], headers)
    {
      if |headers| >= MAX_HEADERS {
        return Err(TooLarge);
      }
      var h := ParseHeader(lines[k]);
      if h.Err? {
        return Err(h.error);
      }
      headers := headers + [h.value];
      assert lines[k..][1..] == lines[k + 1..];
    }
    var body := Frame(headers);
    if body.Err? {
      return Err(body.error);
    }
    return Ok(Head(first.value.verb, first.value.target, first.value.minor, headers, body.value));
  }

  // ----- keep-alive -----

  predicate Contains(s: Bytes, pat: Bytes) {
    Find(s, pat, 0).Some?
  }

  predicate KeepAlive(h: Head) {
    var c := Lookup(h.headers, Ascii("connection"));
    h.minor == 1 && !(c.Some? && Contains(Lower(c.value), Ascii("close")))
  }

  // ----- one framing only -----

  lemma {:induction false} LookupValues(headers: seq<Header>, name: Bytes)
    ensures Lookup(headers, name).None? <==> Values(headers, name) == []
    ensures Lookup(headers, name).Some? ==> Lookup(headers, name).value == Values(headers, name)[0]
  {
    if headers != [] { LookupValues(headers[1..], name); }
  }

  // No accepted head announces two framings: a chunked body excludes every
  // Content-Length, and all Content-Lengths agree on the body's length.
  lemma OneFraming(bytes: Bytes)
    requires ParseHead(bytes).Ok?
    ensures var h := ParseHead(bytes).value;
      var te, lengths := Values(h.headers, TRANSFER_ENCODING), Values(h.headers, CONTENT_LENGTH);
      && (h.body == Chunked <==> te != [])
      && (te != [] ==> lengths == [])
      && (forall i :: 0 <= i < |lengths| ==>
            ContentLength(lengths[i]) == Some(if h.body.Length? then h.body.n else 0))
      && (h.body.Length? ==> h.body.n > 0 && lengths != [])
      && |h.headers| <= MAX_HEADERS
  {
    hide Utf8, Split, ParseRequestLine, ContentLength;
    var h := ParseHead(bytes).value;
    LookupValues(h.headers, TRANSFER_ENCODING);
    HeadersCounted(Split(bytes, CRLF)[1..], []);
  }

  lemma {:induction false} HeadersCounted(lines: seq<Bytes>, parsed: seq<Header>)
    requires |parsed| <= MAX_HEADERS && ParseHeaders(lines, parsed).Ok?
    ensures |ParseHeaders(lines, parsed).value| <= MAX_HEADERS
    decreases |lines|
  {
    hide ParseHeader;
    if lines != [] { HeadersCounted(lines[1..], parsed + [ParseHeader(lines[0]).value]); }
  }

  // ----- rendering -----

  datatype Request = Request(verb: Bytes, target: Bytes, minor: nat, headers: seq<Header>)

  predicate Trimmed(s: Bytes) {
    s != [] ==> !IsBlank(s[0]) && !IsBlank(s[|s| - 1])
  }

  predicate HeaderOk(h: Header) {
    IsToken(h.name) && Utf8(h.value) && ControlFree(h.value) && Trimmed(h.value)
  }

  // What a client may send.
  predicate RequestOk(r: Request) {
    && IsToken(r.verb) && TargetOk(r.target) && Utf8(r.target) && r.minor <= 1
    && |r.headers| <= MAX_HEADERS
    && forall i :: 0 <= i < |r.headers| ==> HeaderOk(r.headers[i])
  }

  function RenderVersion(minor: nat): Bytes {
    if minor == 1 then Ascii("HTTP/1.1") else Ascii("HTTP/1.0")
  }

  function RenderLine(r: Request): Bytes {
    r.verb + [SP] + r.target + [SP] + RenderVersion(r.minor)
  }

  function RenderHeader(h: Header): Bytes {
    h.name + [COLON, SP] + h.value
  }

  function RenderLines(r: Request): (lines: seq<Bytes>)
    ensures |lines| == 1 + |r.headers|
  {
    [RenderLine(r)] + seq(|r.headers|, i requires 0 <= i < |r.headers| => RenderHeader(r.headers[i]))
  }

  function Render(r: Request): Bytes {
    Join(RenderLines(r), CRLF)
  }

  lemma RequestLineParses(r: Request)
    requires RequestOk(r)
    ensures ParseRequestLine(RenderLine(r)) == Ok(RequestLine(r.verb, r.target, r.minor))
    ensures CR !in RenderLine(r) && Utf8(RenderLine(r))
  {
    hide Utf8, Split, IsToken, TargetOk, Join, Ascii;
    var parts := [r.verb, r.target, RenderVersion(r.minor)];
    JoinThree(parts, [SP]);
    PartsPlain(r);
    SplitJoin(parts, [SP]);
    Versions();
    RenderLineUtf8(r);
  }

  lemma PartsPlain(r: Request)
    requires IsToken(r.verb) && TargetOk(r.target)
    ensures SP !in r.verb && CR !in r.verb && SP !in r.target && CR !in r.target
    ensures SP !in RenderVersion(r.minor) && CR !in RenderVersion(r.minor)
  {
  }

  lemma Versions()
    ensures Ascii("HTTP/1.1") != Ascii("HTTP/1.0")
  {
    assert Ascii("HTTP/1.1")[7] != Ascii("HTTP/1.0")[7];
  }

  lemma RenderLineUtf8(r: Request)
    requires IsToken(r.verb) && Utf8(r.target)
    ensures Utf8(RenderLine(r))
  {
    hide Utf8;
    AsciiIsUtf8(r.verb + [SP]);
    AsciiIsUtf8([SP] + RenderVersion(r.minor));
    Utf8Joins(r.verb + [SP], r.target);
    Utf8Joins(r.verb + [SP] + r.target, [SP] + RenderVersion(r.minor));
    assert RenderLine(r) == r.verb + [SP] + r.target + ([SP] + RenderVersion(r.minor));
  }

  lemma JoinThree(parts: seq<Bytes>, pat: Bytes)
    requires |parts| == 3
    ensures Join(parts, pat) == parts[0] + pat + parts[1] + pat + parts[2]
  {
    var last := parts[1..][1..];
    assert |last| == 1 && last[0] == parts[2];
    assert Join(last, pat) == parts[2];
    assert Join(parts[1..], pat) == parts[1] + pat + parts[2];
    assert parts[0] + pat + (parts[1] + pat + parts[2]) == parts[0] + pat + parts[1] + pat + parts[2];
  }

  lemma {:induction false} TrimsTo(blanks: Bytes, s: Bytes)
    requires (forall i :: 0 <= i < |blanks| ==> IsBlank(blanks[i])) && Trimmed(s)
    ensures TrimBlanks(blanks + s) == s
    decreases |blanks|
  {
    if blanks == [] {
      assert blanks + s == s;
    } else {
      TrimsTo(blanks[1..], s);
      assert (blanks + s)[1..] == blanks[1..] + s;
    }
  }

  lemma NamePlain(h: Header)
    requires HeaderOk(h)
    ensures COLON !in h.name && CR !in h.name && CR !in h.value
    ensures forall i :: 0 <= i < |h.name| ==> h.name[i] < 0x80
  {
    hide Utf8;
  }

  lemma HeaderPieces(h: Header)
    ensures var line := RenderHeader(h);
      && |line| == |h.name| + 2 + |h.value|
      && line[..|h.name|] == h.name
      && line[|h.name|..|h.name| + 1] == [COLON]
      && line[|h.name| + 1..] == [SP] + h.value
  {
  }

  lemma HeaderParses(h: Header)
    requires HeaderOk(h)
    ensures ParseHeader(RenderHeader(h)) == Ok(h)
    ensures CR !in RenderHeader(h) && Utf8(RenderHeader(h)) && RenderHeader(h) != []
  {
    hide Utf8, TrimBlanks, IsTokenByte, IsToken, ControlFree, Trimmed;
    NamePlain(h);
    var line := RenderHeader(h);
    HeaderPieces(h);
    NoMatchWithin(line, [COLON], |h.name|);
    FindIs(line, [COLON], 0, |h.name|);
    TrimsTo([SP], h.value);
    AsciiIsUtf8(h.name);
    AsciiIsUtf8([COLON, SP]);
    Utf8Joins(h.name, [COLON, SP]);
    Utf8Joins(h.name + [COLON, SP], h.value);
  }

  lemma {:induction false} HeadersParse(r: Request, k: nat)
    requires RequestOk(r) && k <= |r.headers|
    ensures ParseHeaders(RenderLines(r)[1 + k..], r.headers[..k]) == Ok(r.headers)
    decreases |r.headers| - k
  {
    hide ParseHeader, RenderHeader, Utf8;
    if k == |r.headers| {
      assert r.headers[..k] == r.headers;
    } else {
      HeaderParses(r.headers[k]);
      HeadersParse(r, k + 1);
      assert RenderLines(r)[1 + k..][1..] == RenderLines(r)[1 + (k + 1)..];
      assert r.headers[..k] + [r.headers[k]] == r.headers[..k + 1];
    }
  }

  lemma {:induction false} JoinUtf8(lines: seq<Bytes>)
    requires |lines| >= 1 && forall i :: 0 <= i < |lines| ==> Utf8(lines[i])
    ensures Utf8(Join(lines, CRLF))
  {
    hide Utf8;
    if |lines| > 1 {
      AsciiIsUtf8(CRLF);
      JoinUtf8(lines[1..]);
      Utf8Joins(lines[0], CRLF);
      Utf8Joins(lines[0] + CRLF, Join(lines[1..], CRLF));
    }
  }

  lemma RenderedLines(r: Request)
    requires RequestOk(r)
    ensures forall i :: 0 <= i < |RenderLines(r)| ==>
              CR !in RenderLines(r)[i] && Utf8(RenderLines(r)[i]) && RenderLines(r)[i] != []
  {
    hide Utf8, RenderLine, RenderHeader;
    forall i | 0 <= i < |RenderLines(r)|
      ensures CR !in RenderLines(r)[i] && Utf8(RenderLines(r)[i]) && RenderLines(r)[i] != []
    {
      if i == 0 {
        RequestLineParses(r);
        LineNotEmpty(r);
      } else {
        HeaderParses(r.headers[i - 1]);
      }
    }
  }

  lemma LineNotEmpty(r: Request)
    requires IsToken(r.verb)
    ensures RenderLine(r) != []
  {
  }

  // A rendered request parses back to itself, with the framing its headers announce.
  lemma RenderParses(r: Request)
    requires RequestOk(r)
    ensures ParseHead(Render(r)) ==
      match Frame(r.headers)
      case Err(e) => Err(e)
      case Ok(body) => Ok(Head(r.verb, r.target, r.minor, r.headers, body))
  {
    hide Utf8, Split, Frame, ParseRequestLine, RenderLine, RenderHeader, Join;
    RenderedLines(r);
    JoinUtf8(RenderLines(r));
    SplitJoin(RenderLines(r), CRLF);
    RequestLineParses(r);
    HeadersParse(r, 0);
    assert r.headers[..0] == [];
  }

  // The first blank line after it is its end.
  lemma {:induction false} JoinEnds(lines: seq<Bytes>, rest: Bytes, q: nat)
    requires |lines| >= 1 && forall i :: 0 <= i < |lines| ==> CR !in lines[i] && lines[i] != []
    requires q < |Join(lines, CRLF)|
    ensures !Match(Join(lines, CRLF) + BLANK + rest, BLANK, q)
    decreases |lines|
  {
    var s := Join(lines, CRLF) + BLANK + rest;
    if q + 4 <= |s| { assert s[q..q + 4][0] == s[q] && s[q..q + 4][2] == s[q + 2]; }
    if q < |lines[0]| {
      assert s[q] == lines[0][q];
    } else if |lines| > 1 {
      var more := Join(lines[1..], CRLF);
      if q < |lines[0]| + 2 {
        JoinStarts(lines[1..]);
        assert more[0] in lines[1];
        assert s[|lines[0]| + 2] == more[0];
        assert q == |lines[0]| + 1 ==> s[q] == LF;
      } else {
        var t := more + BLANK + rest;
        JoinEnds(lines[1..], rest, q - |lines[0]| - 2);
        assert s == lines[0] + CRLF + t;
        if q + 4 <= |s| { assert s[q..q + 4] == t[q - |lines[0]| - 2..q - |lines[0]| + 2]; }
      }
    }
  }

  lemma JoinStarts(lines: seq<Bytes>)
    requires |lines| >= 1 && lines[0] != []
    ensures |Join(lines, CRLF)| > 0 && Join(lines, CRLF)[0] == lines[0][0]
  {
  }

  // So any rendered request is a head text the reader can find the end of.
  lemma RenderEnds(r: Request, rest: Bytes)
    requires RequestOk(r)
    ensures Find(Render(r) + BLANK + rest, BLANK, 0) == Some(|Render(r)|)
    ensures !(CRLF <= Render(r))
  {
    hide Join, RenderLine, RenderHeader, Utf8;
    RenderedLines(r);
    var s := Render(r) + BLANK + rest;
    forall q | 0 <= q < |Render(r)| ensures !Match(s, BLANK, q) {
      JoinEnds(RenderLines(r), rest, q);
    }
    assert s[|Render(r)|..|Render(r)| + 4] == BLANK;
    FindIs(s, BLANK, 0, |Render(r)|);
    JoinStarts(RenderLines(r));
    assert Render(r)[0] in RenderLines(r)[0];
  }
}
