/**
 The connection loop: heads and bodies, one after the other, until one of them
 leaves the connection unfit for another.
 */
module HttpConnection {
  import opened Common
  import opened HttpText
  import opened HttpHead
  import opened HttpReader

  // What the routes do with a head: read its body with a cap or not, and
  // whether the connection ends whatever the head says.
  datatype Plan = Plan(read: Option<nat>, drop: bool)

  // A request as the routes saw it.
  datatype Served = Served(head: Head, body: Option<Result<Bytes, BodyErr>>)

  // Ctx::handle, as far as the connection goes: a body that was not read leaves
  // it in the middle of a message.
  predicate Reusable(h: Head, plan: Plan, body: Option<Result<Bytes, BodyErr>>) {
    !plan.drop && KeepAlive(h) && (h.body == NoBody || (body.Some? && body.value.Ok?))
  }

  // handle_connection
  function ConnRun(w: Wire, plans: Head -> Plan): seq<Served>
    decreases |Stream(w)|
  {
    var (r, v) := HeadRun(w);
    match r
    case Err(_) => []
    case Ok(h) =>
      var plan := plans(h);
      if plan.read.None? then
        [Served(h, None)] + (if Reusable(h, plan, None) then ConnRun(v, plans) else [])
      else
        var (b, u) := BodyRun(v, h, plan.read.value);
        [Served(h, Some(b))] + (if Reusable(h, plan, Some(b)) then ConnRun(u, plans) else [])
  }

  // ----- a pipeline of well-formed requests -----

  // Any number of stray CRLFs, the text of a head without its blank line, and a body.
  datatype Message = Message(strays: nat, text: Bytes, body: Payload)

  function Strays(n: nat): Bytes {
    if n == 0 then [] else CRLF + Strays(n - 1)
  }

  function MessageBytes(m: Message): Bytes {
    Strays(m.strays) + (m.text + BLANK + PayloadBytes(m.body))
  }

  function Pipeline(ms: seq<Message>): Bytes {
    if ms == [] then [] else MessageBytes(ms[0]) + Pipeline(ms[1..])
  }

  // Any head text that the parser accepts, and that is over where it says.
  predicate TextOk(text: Bytes) {
    && !(CRLF <= text) && Find(text + BLANK, BLANK, 0) == Some(|text|) && |text| + 3 <= MAX_HEAD_BYTES
    && ParseHead(text).Ok?
  }

  // The body is framed as the head announces; if the route reads it, it is within the cap.
  predicate MessageOk(m: Message, plans: Head -> Plan) {
    && TextOk(m.text)
    && var h := ParseHead(m.text).value;
       var plan := plans(h);
       Framed(h.body, m.body, if plan.read.Some? then plan.read.value else |Decoded(m.body)|)
         && (plan.read.Some? ==> ExpectOk(h))
  }

  // What the routes should see of a message.
  function Meant(m: Message, plans: Head -> Plan): Served
    requires TextOk(m.text)
  {
    var h := ParseHead(m.text).value;
    Served(h, if plans(h).read.None? then None else Some(Ok(Decoded(m.body))))
  }

  predicate GoesOn(m: Message, plans: Head -> Plan)
    requires TextOk(m.text)
  {
    var s := Meant(m, plans);
    Reusable(s.head, plans(s.head), s.body)
  }

  // The messages up to the first that ends the connection.
  function MeantAll(ms: seq<Message>, plans: Head -> Plan): seq<Served>
    requires forall i :: 0 <= i < |ms| ==> TextOk(ms[i].text)
  {
    if ms == [] then []
    else [Meant(ms[0], plans)] + (if GoesOn(ms[0], plans) then MeantAll(ms[1..], plans) else [])
  }

  predicate AllGoOn(ms: seq<Message>, plans: Head -> Plan)
    requires forall i :: 0 <= i < |ms| ==> TextOk(ms[i].text)
  {
    forall i :: 0 <= i < |ms| ==> GoesOn(ms[i], plans)
  }

  lemma {:induction false} StraysStrip(n: nat, s: Bytes)
    ensures StripCrlf(Strays(n) + s) == StripCrlf(s)
  {
    if n == 0 {
      assert [] + s == s;
    } else {
      assert Strays(n) + s == CRLF + (Strays(n - 1) + s);
      assert (CRLF + (Strays(n - 1) + s))[2..] == Strays(n - 1) + s;
      StraysStrip(n - 1, s);
    }
  }

  // However its bytes arrive, the head of the first message is read, and its body is next.
  lemma HeadReads(w: Wire, m: Message, rest: Bytes)
    requires TextOk(m.text) && Stream(w) == MessageBytes(m) + rest
    ensures HeadRun(w).0 == ParseHead(m.text) && Stream(HeadRun(w).1) == PayloadBytes(m.body) + rest
  {
    hide ParseHead, HeadRun, PayloadBytes, StripCrlf;
    var p := PayloadBytes(m.body) + rest;
    var t := m.text + BLANK + p;
    assert Stream(w) == Strays(m.strays) + t;
    StraysStrip(m.strays, t);
    NotStripped(m.text, p);
    FindExtends(m.text + BLANK, BLANK, p);
    HeadRunIsHeadOf(w);
    assert t[..|m.text|] == m.text && t[|m.text| + 4..] == p;
  }

  lemma NotStripped(text: Bytes, p: Bytes)
    requires TextOk(text)
    ensures StripCrlf(text + BLANK + p) == text + BLANK + p
  {
    hide ParseHead;
    var s := text + BLANK + p;
    if text == [] {
      assert Utf8([]);
      EmptyHeadBad();
    } else if |text| >= 2 {
      assert s[..2] == text[..2];
    } else {
      assert s[1] == CR;
    }
  }

  lemma EmptyHeadBad()
    ensures ParseHead([]).Err?
  {
    assert Split([], CRLF) == [[]];
    assert Split([], [SP]) == [[]];
  }

  // The connection serves exactly the messages written, up to the first that ends
  // it; the bytes behind are read as further heads only if none does.
  lemma {:induction false} ServesWhatWasSent(w: Wire, ms: seq<Message>, plans: Head -> Plan, rest: Bytes)
      returns (end: Wire)
    requires forall i :: 0 <= i < |ms| ==> TextOk(ms[i].text) && MessageOk(ms[i], plans)
    requires Stream(w) == Pipeline(ms) + rest
    ensures ConnRun(w, plans) == MeantAll(ms, plans) + (if AllGoOn(ms, plans) then ConnRun(end, plans) else [])
    ensures Stream(end) == rest && end.ending == w.ending
    decreases |ms|
  {
    hide ParseHead, HeadRun, BodyRun, MessageBytes, PayloadBytes, Decoded, Framed, ExpectOk, Reusable;
    hide ConnRun, MeantAll, AllGoOn;
    if ms == [] {
      end := w;
      assert Pipeline(ms) + rest == rest;
      NoneMeant(plans);
      assert [] + ConnRun(w, plans) == ConnRun(w, plans);
    } else {
      var m, more := ms[0], Pipeline(ms[1..]) + rest;
      assert Stream(w) == MessageBytes(m) + more;
      HeadReads(w, m, more);
      var h := ParseHead(m.text).value;
      var after := BodyNext(HeadRun(w).1, m, h, plans, more);
      OneStep(w, h, plans);
      MeantMore(ms, plans);
      if GoesOn(m, plans) {
        end := ServesWhatWasSent(after, ms[1..], plans, rest);
        var tail := if AllGoOn(ms[1..], plans) then ConnRun(end, plans) else [];
        assert [Meant(m, plans)] + (MeantAll(ms[1..], plans) + tail)
            == [Meant(m, plans)] + MeantAll(ms[1..], plans) + tail;
      } else {
        end := Wire(rest, [], w.ending);
        assert rest + [] == rest;
      }
    }
  }

  lemma NoneMeant(plans: Head -> Plan)
    ensures MeantAll([], plans) == [] && AllGoOn([], plans)
  {
  }

  lemma MeantMore(ms: seq<Message>, plans: Head -> Plan)
    requires ms != [] && forall i :: 0 <= i < |ms| ==> TextOk(ms[i].text)
    ensures MeantAll(ms, plans) == [Meant(ms[0], plans)]
      + (if GoesOn(ms[0], plans) then MeantAll(ms[1..], plans) else [])
    ensures AllGoOn(ms, plans) <==> GoesOn(ms[0], plans) && AllGoOn(ms[1..], plans)
  {
    hide TextOk, GoesOn, Meant;
    if AllGoOn(ms[1..], plans) && GoesOn(ms[0], plans) {
      forall i | 0 <= i < |ms| ensures GoesOn(ms[i], plans) {
        if i > 0 { assert ms[i] == ms[1..][i - 1]; }
      }
    }
  }

  // ConnRun, one request at a time.
  lemma OneStep(w: Wire, h: Head, plans: Head -> Plan)
    requires HeadRun(w).0 == Ok(h)
    ensures var plan, v := plans(h), HeadRun(w).1;
      var s := if plan.read.None? then Served(h, None) else Served(h, Some(BodyRun(v, h, plan.read.value).0));
      var u := if plan.read.None? then v else BodyRun(v, h, plan.read.value).1;
      ConnRun(w, plans) == [s] + (if Reusable(h, plan, s.body) then ConnRun(u, plans) else [])
  {
    hide HeadRun, BodyRun, Reusable;
  }

  lemma NoMore(w: Wire, plans: Head -> Plan)
    requires HeadRun(w).0.Err?
    ensures ConnRun(w, plans) == []
  {
    hide HeadRun;
  }

  // After the head, the body is read as meant; or it is not read, and then the
  // connection goes on only if there is none.
  lemma BodyNext(v: Wire, m: Message, h: Head, plans: Head -> Plan, more: Bytes) returns (after: Wire)
    requires MessageOk(m, plans) && ParseHead(m.text) == Ok(h)
    requires Stream(v) == PayloadBytes(m.body) + more
    ensures after == if plans(h).read.None? then v else BodyRun(v, h, plans(h).read.value).1
    ensures plans(h).read.Some? ==> BodyRun(v, h, plans(h).read.value).0 == Ok(Decoded(m.body))
    ensures GoesOn(m, plans) ==> Stream(after) == more
    ensures after.ending == v.ending
  {
    hide ParseHead, BodyRun, ExpectOk;
    if plans(h).read.Some? {
      BodyReads(v, h, m.body, plans(h).read.value, more);
      after := BodyRun(v, h, plans(h).read.value).1;
    } else {
      after := v;
      if GoesOn(m, plans) {
        assert m.body == Raw([]);
        assert Stream(v) == more;
      }
    }
  }

  // Rendered requests are such messages.
  lemma RenderedIsText(r: Request)
    requires RequestOk(r) && Frame(r.headers).Ok? && |Render(r)| + 3 <= MAX_HEAD_BYTES
    ensures TextOk(Render(r)) && ParseHead(Render(r)).value
      == Head(r.verb, r.target, r.minor, r.headers, Frame(r.headers).value)
  {
    hide ParseHead, Render, Frame;
    RenderParses(r);
    RenderEnds(r, []);
    assert Render(r) + BLANK + [] == Render(r) + BLANK;
  }

  // ----- the connection object -----

  class Conn {
    var buf: Bytes
    var input: seq<Bytes> // what the socket will still return
    const ending: Ending

    constructor (arriving: seq<Bytes>, end: Ending)
      ensures Unread() == Wire([], arriving, end)
    {
      buf, input, ending := [], arriving, end;
    }

    function Unread(): Wire
      reads this
    {
      Wire(buf, input, ending)
    }

    // Conn::fill: the number of bytes read; none at the end of the stream.
    method Fill() returns (n: nat, arrived: bool)
      modifies this`buf, this`input
      ensures arrived <==> old(input) != []
      ensures Unread() == if arrived then Arrive(old(Unread())) else old(Unread())
      ensures n == |buf| - |old(buf)|
    {
      arrived := |input| > 0;
      n := 0;
      if arrived {
        n := |input[0]|;
        buf := buf + input[0];
        input := input[1..];
      }
    }

    method StripStrays(scanned: nat) returns (next: nat)
      requires scanned <= |buf| && forall q :: 0 <= q < scanned ==> !Match(buf, BLANK, q)
      modifies this`buf
      ensures buf == StripCrlf(old(buf))
      ensures next <= |buf| && forall q :: 0 <= q < next ==> !Match(buf, BLANK, q)
    {
      next := scanned;
      while CRLF <= buf
        invariant StripCrlf(buf) == StripCrlf(old(buf))
        invariant next <= |buf| && forall q :: 0 <= q < next ==> !Match(buf, BLANK, q)
        decreases |buf|
      {
        buf := buf[2..];
        next := 0;
      }
    }

    // read_head, with the place where the next search resumes.
    method ReadHead() returns (r: Result<Head, HeadErr>)
      modifies this`buf, this`input
      ensures (r, Unread()) == HeadRun(old(Unread()))
    {
      hide ParseHead, StripCrlf, Find;
      var scanned: nat := 0;
      while true
        invariant HeadRun(Unread()) == HeadRun(old(Unread()))
        invariant scanned <= |buf| && forall q :: 0 <= q < scanned ==> !Match(buf, BLANK, q)
        decreases |input|
      {
        scanned := StripStrays(scanned);
        SearchFrom(buf, BLANK, scanned);
        var found := Find(buf, BLANK, scanned);
        if found.Some? {
          var pos := found.value;
          if pos > MAX_HEAD_BYTES {
            return Err(HeadErr.TooLarge);
          }
          var text := buf[..pos];
          buf := buf[pos + 4..];
          r := ReadParsedHead(text);
          return;
        }
        if |buf| > MAX_HEAD_BYTES {
          return Err(HeadErr.TooLarge);
        }
        scanned := if |buf| < 3 then 0 else |buf| - 3;
        if |input| > 0 { FindResumes(buf, BLANK, input[0], scanned); }
        var n, arrived := Fill();
        if !arrived {
          return Err(HeadEnd(Unread()));
        }
      }
    }

    method ReadLine(max: nat) returns (r: Result<Bytes, BodyErr>)
      modifies this`buf, this`input
      ensures (r, Unread()) == LineRun(old(Unread()), max)
    {
      hide Utf8, Find;
      var scanned: nat := 0;
      while true
        invariant LineRun(Unread(), max) == LineRun(old(Unread()), max)
        invariant scanned <= |buf| && forall q :: 0 <= q < scanned ==> !Match(buf, CRLF, q)
        decreases |input|
      {
        SearchFrom(buf, CRLF, scanned);
        var found := Find(buf, CRLF, scanned);
        if found.Some? {
          var line := buf[..found.value];
          buf := buf[found.value + 2..];
          return if Utf8(line) then Ok(line) else Err(BodyBad);
        }
        if |buf| > max {
          return Err(BodyBad);
        }
        scanned := if |buf| < 1 then 0 else |buf| - 1;
        if |input| > 0 { FindResumes(buf, CRLF, input[0], scanned); }
        var n, arrived := Fill();
        if !arrived {
          return Err(BodyEnd(ending));
        }
      }
    }

    // The wait for n bytes in read_body and read_chunked.
    method Await(n: nat) returns (e: Option<BodyErr>)
      modifies this`buf, this`input
      ensures (e, Unread()) == TakeRun(old(Unread()), n)
    {
      while |buf| < n
        invariant TakeRun(Unread(), n) == TakeRun(old(Unread()), n)
        decreases |input|
      {
        var k, arrived := Fill();
        if !arrived {
          return Some(BodyEnd(ending));
        }
      }
      return None;
    }

    method ReadTrailers() returns (e: Option<BodyErr>)
      modifies this`buf, this`input
      ensures (e, Unread()) == TrailerRun(old(Unread()), MAX_HEADERS)
    {
      hide LineRun;
      for k := 0 to MAX_HEADERS
        invariant TrailerRun(Unread(), MAX_HEADERS - k) == TrailerRun(old(Unread()), MAX_HEADERS)
      {
        var line := ReadLine(MAX_LINE_BYTES);
        if line.Err? {
          return Some(line.error);
        }
        if line.value == [] {
          return None;
        }
      }
      return Some(BodyBad);
    }

    method ReadChunked(cap: nat) returns (r: Result<Bytes, BodyErr>)
      modifies this`buf, this`input
      ensures (r, Unread()) == ChunkedRun(old(Unread()), [], cap)
    {
      hide LineRun, TakeRun, TrailerRun, ChunkSize;
      var out: Bytes := [];
      while true
        invariant ChunkedRun(Unread(), out, cap) == ChunkedRun(old(Unread()), [], cap)
        decreases |Stream(Unread())|
      {
        var line := ReadLine(MAX_LINE_BYTES);
        if line.Err? {
          return Err(line.error);
        }
        var size := ChunkSize(line.value);
        if size == None {
          return Err(BodyBad);
        }
        if size.value == 0 {
          var e := ReadTrailers();
          return if e == None then Ok(out) else Err(e.value);
        }
        if |out| + size.value > cap {
          return Err(BodyTooLarge);
        }
        var n := size.value;
        var e := Await(n + 2);
        if e.Some? {
          return Err(e.value);
        }
        if buf[n..n + 2] != CRLF {
          return Err(BodyBad);
        }
        out := out + buf[..n];
        buf := buf[n + 2..];
      }
    }

    method ReadBody(h: Head, cap: nat) returns (r: Result<Bytes, BodyErr>)
      modifies this`buf, this`input
      ensures (r, Unread()) == BodyRun(old(Unread()), h, cap)
    {
      hide TakeRun, ChunkedRun, ExpectOk;
      if h.body.Length? && h.body.n > cap {
        return Err(BodyTooLarge);
      }
      if !ExpectOk(h) {
        return Err(Expectation);
      }
      match h.body
      case NoBody => return Ok([]);
      case Length(n) =>
        var e := Await(n);
        if e.Some? {
          return Err(e.value);
        }
        r := Ok(buf[..n]);
        buf := buf[n..];
      case Chunked =>
        r := ReadChunked(cap);
    }

    // handle_connection: the requests served until the connection ends.
    method HandleConnection(plans: Head -> Plan) returns (served: seq<Served>)
      modifies this`buf, this`input
      ensures served == ConnRun(old(Unread()), plans)
    {
      hide HeadRun, BodyRun, Reusable, ConnRun, Stream;
      served := [];
      while true
        invariant served + ConnRun(Unread(), plans) == ConnRun(old(Unread()), plans)
        decreases |Stream(Unread())|
      {
        ghost var w := Unread();
        var head := ReadHead();
        if head.Err? {
          NoMore(w, plans);
          return;
        }
        var h := head.value;
        OneStep(w, h, plans);
        var plan := plans(h);
        var body := None;
        if plan.read.Some? {
          var b := ReadBody(h, plan.read.value);
          body := Some(b);
        }
        var was := served;
        served := served + [Served(h, body)];
        if !Reusable(h, plan, body) {
          return;
        }
        assert was + ([Served(h, body)] + ConnRun(Unread(), plans)) == served + ConnRun(Unread(), plans);
      }
    }
  }
}
