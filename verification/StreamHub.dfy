/**
 The hub that hands published audio to the stream clients, and the reader that
 turns a client's frames into the bytes of its HTTP body.

 The hub keeps all channels by number; a client's receiver is such a number.
 */
module StreamHub {
  import opened Common
  import opened Packets
  import BoundedQueue
  import AudioLoop

  type Frame = seq<Byte>

  const DEPTH := 128

  // ----- samples on the wire -----

  predicate IsSample(x: int) {
    -32768 <= x <= 32767
  }

  function PcmBytes(s: seq<int>): (b: Frame)
    requires forall i :: 0 <= i < |s| ==> IsSample(s[i])
    ensures |b| == 2 * |s|
  {
    seq(2 * |s|, k requires 0 <= k < 2 * |s| =>
      var u := s[k / 2] % U16;
      if k % 2 == 0 then u % 256 else u / 256)
  }

  // The bytes on the wire are the samples, no more and no less.
  lemma PcmRoundTrip(s: seq<int>, b: Frame)
    requires forall i :: 0 <= i < |s| ==> IsSample(s[i])
    requires |b| % 2 == 0
    ensures PcmBytes(s) == b <==> Samples(b) == s
  {
    var p := PcmBytes(s);
    forall i | 0 <= i < |s| ensures Samples(p)[i] == s[i] {
      assert p[2 * i] == s[i] % U16 % 256 && p[2 * i + 1] == s[i] % U16 / 256;
    }
    assert Samples(p) == s;
    if Samples(b) == s { SamplesInjective(p, b); }
  }

  // ----- one client -----

  // Up to `size` bytes of the reader's rest, or else of the next frame. Nothing is
  // read, which ends the body, when the gate refuses or no frame comes.
  function Reading(rest: Frame, queue: seq<Frame>, size: nat, refused: bool): (Frame, Frame, seq<Frame>) {
    if rest == [] && (refused || queue == []) then ([], [], queue)
    else
      var from := if rest == [] then queue[0] else rest;
      var n := if size < |from| then size else |from|;
      (from[..n], from[n..], if rest == [] then queue[1..] else queue)
  }

  function Pushed(queue: seq<Frame>, f: Frame): seq<Frame> {
    if |queue| < DEPTH then queue + [f] else queue
  }

  // The client with what it has heard, the frames its reader took, and those lost to its full queue.
  datatype Client = Client(queue: seq<Frame>, rest: Frame, heard: Frame, taken: seq<Frame>, lost: nat)

  datatype Event = Publish(frame: Frame) | Read(size: nat, refused: bool)

  function Step(c: Client, e: Event): Client {
    match e
    case Publish(f) => c.(queue := Pushed(c.queue, f), lost := c.lost + (if |c.queue| < DEPTH then 0 else 1))
    case Read(size, refused) =>
      var (out, rest, queue) := Reading(c.rest, c.queue, size, refused);
      c.(queue := queue, rest := rest, heard := c.heard + out,
         taken := if |queue| < |c.queue| then c.taken + [c.queue[0]] else c.taken)
  }

  function Run(c: Client, events: seq<Event>): Client
    decreases |events|
  {
    if events == [] then c else Run(Step(c, events[0]), events[1..])
  }

  function Published(events: seq<Event>): seq<Frame> {
    if events == [] then []
    else (if events[0].Publish? then [events[0].frame] else []) + Published(events[1..])
  }

  function Joined(frames: seq<Frame>): Frame {
    if frames == [] then [] else Joined(frames[..|frames| - 1]) + frames[|frames| - 1]
  }

  function Ascii(s: string): Frame
    requires forall i :: 0 <= i < |s| ==> s[i] < 128 as char
  {
    seq(|s|, i requires 0 <= i < |s| => s[i] as int)
  }

  // The header of a WAVE file without an end.
  function WavHeader(): (h: Frame)
    ensures |h| == 44
  {
    Ascii("RIFF") + Le(U32 - 1, 4) + Ascii("WAVE") + Ascii("fmt ") + Le(16, 4) + Le(1, 2) + Le(CHANNELS, 2)
    + Le(SAMPLE_RATE, 4) + Le(SAMPLE_RATE * FRAME_BYTES, 4) + Le(FRAME_BYTES, 2) + Le(BITS_PER_SAMPLE, 2)
    + Ascii("data") + Le(U32 - 37, 4)
  }

  function Joining(): Client {
    Client([], WavHeader(), [], [], 0)
  }

  ghost predicate ClientOk(c: Client, published: seq<Frame>) {
    && c.heard + c.rest == WavHeader() + Joined(c.taken)
    && BoundedQueue.Thinned(c.taken + c.queue, published)
    && |c.taken| + |c.queue| + c.lost == |published|
    && |c.queue| <= DEPTH
  }

  lemma JoinedMore(frames: seq<Frame>, f: Frame)
    ensures Joined(frames + [f]) == Joined(frames) + f
  {
    assert (frames + [f])[..|frames|] == frames;
  }

  lemma PublishOk(c: Client, f: Frame, published: seq<Frame>)
    requires ClientOk(c, published)
    ensures ClientOk(Step(c, Publish(f)), published + [f])
  {
    hide WavHeader;
    var all := c.taken + c.queue;
    BoundedQueue.ThinnedAppend(all, published, [f]);
    if |c.queue| < DEPTH {
      assert all + [f] == c.taken + (c.queue + [f]);
    } else {
      BoundedQueue.ThinnedCut(all + [f], published + [f], |all|, |all| + 1);
      assert (all + [f])[..|all|] + (all + [f])[|all| + 1..] == all;
    }
  }

  lemma ReadOk(c: Client, size: nat, refused: bool, published: seq<Frame>)
    requires ClientOk(c, published)
    ensures ClientOk(Step(c, Read(size, refused)), published)
  {
    hide WavHeader, BoundedQueue.Thinned;
    var (out, rest, queue) := Reading(c.rest, c.queue, size, refused);
    if |queue| < |c.queue| {
      JoinedMore(c.taken, c.queue[0]);
      assert (c.taken + [c.queue[0]]) + queue == c.taken + c.queue;
      assert out + rest == c.queue[0];
      assert c.heard == WavHeader() + Joined(c.taken);
      assert (c.heard + out) + rest == c.heard + (out + rest);
    } else {
      assert out + rest == c.rest && queue == c.queue;
      assert (c.heard + out) + rest == c.heard + (out + rest);
    }
  }

  lemma {:induction false} RunOk(c: Client, events: seq<Event>, published: seq<Frame>)
    requires ClientOk(c, published)
    ensures ClientOk(Run(c, events), published + Published(events))
    decreases |events|
  {
    hide ClientOk, Step;
    if events == [] {
      assert published + [] == published;
    } else {
      var e := events[0];
      if e.Publish? {
        PublishOk(c, e.frame, published);
        RunOk(Step(c, e), events[1..], published + [e.frame]);
        assert (published + [e.frame]) + Published(events[1..]) == published + Published(events);
      } else {
        ReadOk(c, e.size, e.refused, published);
        RunOk(Step(c, e), events[1..], published);
        assert [] + Published(events[1..]) == Published(events[1..]);
      }
    }
  }

  lemma StartOk()
    ensures ClientOk(Joining(), [])
  {
    hide WavHeader;
    BoundedQueue.ThinnedSelf<Frame>([]);
    var none: seq<Frame> := [];
    assert none + none == none;
    assert [] + WavHeader() == WavHeader() + [];
  }

  // Whatever the sizes of the reads, a client hears the WAVE header and then, byte
  // for byte, published frames in their order, none twice; the others are queued
  // or were counted as lost.
  lemma Hears(events: seq<Event>)
    ensures var c := Run(Joining(), events);
      && c.heard + c.rest == WavHeader() + Joined(c.taken)
      && BoundedQueue.Thinned(c.taken + c.queue, Published(events))
      && |c.taken| + |c.queue| + c.lost == |Published(events)| && |c.queue| <= DEPTH
  {
    hide WavHeader;
    StartOk();
    assert [] + Published(events) == Published(events);
    RunOk(Joining(), events, []);
  }

  // A client that is never a full queue behind hears everything.
  lemma HearsAll(events: seq<Event>)
    requires Run(Joining(), events).lost == 0
    ensures var c := Run(Joining(), events); c.taken + c.queue == Published(events)
  {
    Hears(events);
    var c := Run(Joining(), events);
    var s := c.taken + c.queue;
    var at: seq<nat> :| BoundedQueue.Picks(s, Published(events), at);
    BoundedQueue.PicksAll(at, |s|);
  }

  // The body ends exactly when the reader has nothing left and the gate refuses, no
  // frame comes, or the next frame is empty.
  lemma EndsExactly(rest: Frame, queue: seq<Frame>, size: nat, refused: bool)
    requires size > 0
    ensures Reading(rest, queue, size, refused).0 == [] <==> rest == [] && (refused || queue == [] || queue[0] == [])
  {
  }

  // A latency step that is at least as long as its packet therefore ends the body
  // of every client that gets to it; a shorter one does not.
  lemma EmptiedPacketEnds(step: int, s: seq<int>, queue: seq<Frame>, size: nat)
    requires AudioLoop.Whole(s) && s != [] && size > 0
    requires forall i :: 0 <= i < |AudioLoop.Shifted(step, s)| ==> IsSample(AudioLoop.Shifted(step, s)[i])
    ensures var published := PcmBytes(AudioLoop.Shifted(step, s));
      Reading([], [published] + queue, size, false).0 == [] <==> step >= AudioLoop.Frames(s)
  {
    hide AudioLoop.Shifted;
    AudioLoop.CreditExact(step, s);
    var published := PcmBytes(AudioLoop.Shifted(step, s));
    EndsExactly([], [published] + queue, size, false);
  }

  // ----- the hub -----

  // `sender`: the hub still holds the sending side; `receiver`: the client still reads.
  datatype Channel = Channel(queue: seq<Frame>, sender: bool, receiver: bool)

  // `peer` is None for consumers inside the service.
  datatype Subscriber = Subscriber(channel: nat, peer: Option<nat>)

  predicate Subscribed(subs: seq<Subscriber>, c: nat) {
    exists i :: 0 <= i < |subs| && subs[i].channel == c
  }

  predicate SubsOk(channels: seq<Channel>, subs: seq<Subscriber>) {
    && (forall i :: 0 <= i < |subs| ==> subs[i].channel < |channels|)
    && (forall i, j :: 0 <= i < j < |subs| ==> subs[i].channel != subs[j].channel)
    && (forall c :: 0 <= c < |channels| ==> (channels[c].sender <==> Subscribed(subs, c)))
  }

  // The subscribers, in order, that a test keeps.
  function Kept(subs: seq<Subscriber>, keep: Subscriber -> bool): seq<Subscriber> {
    if subs == [] then []
    else Kept(subs[..|subs| - 1], keep) + (if keep(subs[|subs| - 1]) then [subs[|subs| - 1]] else [])
  }

  lemma {:induction false} KeptIs(subs: seq<Subscriber>, keep: Subscriber -> bool)
    ensures forall x :: x in Kept(subs, keep) <==> x in subs && keep(x)
    ensures |Kept(subs, keep)| <= |subs|
  {
    if subs != [] {
      KeptIs(subs[..|subs| - 1], keep);
      assert subs == subs[..|subs| - 1] + [subs[|subs| - 1]];
    }
  }

  lemma {:induction false} KeptDistinct(subs: seq<Subscriber>, keep: Subscriber -> bool)
    requires forall i, j :: 0 <= i < j < |subs| ==> subs[i].channel != subs[j].channel
    ensures forall i, j :: 0 <= i < j < |Kept(subs, keep)| ==>
      Kept(subs, keep)[i].channel != Kept(subs, keep)[j].channel
  {
    if subs != [] {
      var front := subs[..|subs| - 1];
      KeptDistinct(front, keep);
      KeptIs(front, keep);
      forall i | 0 <= i < |Kept(front, keep)| ensures Kept(front, keep)[i].channel != subs[|subs| - 1].channel {
        assert Kept(front, keep)[i] in front;
      }
    }
  }

  lemma SubscribedLast(subs: seq<Subscriber>, x: Subscriber)
    ensures forall c :: Subscribed(subs + [x], c) <==> Subscribed(subs, c) || c == x.channel
  {
    assert (subs + [x])[|subs|] == x;
    forall c | Subscribed(subs, c) ensures Subscribed(subs + [x], c) {
      var i :| 0 <= i < |subs| && subs[i].channel == c;
      assert (subs + [x])[i].channel == c;
    }
  }

  // Who still reads, and who is not cut off.
  function Receiving(channels: seq<Channel>): Subscriber -> bool {
    (x: Subscriber) => x.channel < |channels| && channels[x.channel].receiver
  }

  function Uncut(cut: nat -> bool): Subscriber -> bool {
    (x: Subscriber) => !(x.peer.Some? && cut(x.peer.value))
  }

  lemma KeptSubscribed(subs: seq<Subscriber>, keep: Subscriber -> bool, c: nat)
    ensures Subscribed(Kept(subs, keep), c) <==> exists i :: 0 <= i < |subs| && subs[i].channel == c && keep(subs[i])
  {
    KeptIs(subs, keep);
    var kept := Kept(subs, keep);
    if Subscribed(kept, c) {
      var i :| 0 <= i < |kept| && kept[i].channel == c;
      assert kept[i] in subs;
    }
    if i :| 0 <= i < |subs| && subs[i].channel == c && keep(subs[i]) {
      assert subs[i] in kept;
    }
  }

  // The frames of a publication that found a queue full.
  function FullQueues(channels: seq<Channel>, subs: seq<Subscriber>): nat {
    if subs == [] then 0
    else
      var c := subs[|subs| - 1].channel;
      FullQueues(channels, subs[..|subs| - 1])
      + (if c < |channels| && channels[c].receiver && |channels[c].queue| >= DEPTH then 1 else 0)
  }

  // What a publication makes of a subscribed channel: a client that is gone is
  // dropped, a full queue is left as it is.
  function Offered(x: Channel, f: Frame): Channel {
    if x.receiver then x.(queue := Pushed(x.queue, f)) else x.(sender := false)
  }

  // The frame was offered to these subscribers.
  predicate OfferedTo(was: seq<Channel>, subs: seq<Subscriber>, now: seq<Channel>, f: Frame) {
    && |now| == |was|
    && forall c :: 0 <= c < |was| ==> now[c] == if Subscribed(subs, c) then Offered(was[c], f) else was[c]
  }

  lemma OfferedMore(was: seq<Channel>, subs: seq<Subscriber>, i: nat, now: seq<Channel>, f: Frame)
    requires SubsOk(was, subs) && i < |subs| && OfferedTo(was, subs[..i], now, f)
    ensures var c := subs[i].channel;
      c < |now| && now[c] == was[c] && OfferedTo(was, subs[..i + 1], now[c := Offered(now[c], f)], f)
    ensures Kept(subs[..i + 1], Receiving(was)) == Kept(subs[..i], Receiving(was))
      + (if was[subs[i].channel].receiver then [subs[i]] else [])
    ensures FullQueues(was, subs[..i + 1]) ==
      FullQueues(was, subs[..i])
        + (if was[subs[i].channel].receiver && |was[subs[i].channel].queue| >= DEPTH then 1 else 0)
  {
    hide Offered;
    assert subs[..i + 1][..i] == subs[..i] && subs[..i] + [subs[i]] == subs[..i + 1];
    assert !Subscribed(subs[..i], subs[i].channel);
    SubscribedLast(subs[..i], subs[i]);
  }

  lemma Untouched(was: seq<Channel>, subs: seq<Subscriber>, f: Frame)
    ensures OfferedTo(was, subs[..0], was, f)
    ensures Kept(subs[..0], Receiving(was)) == [] && FullQueues(was, subs[..0]) == 0
  {
  }

  // After a publication the hub holds the senders of exactly those it kept.
  lemma PublishedOk(was: seq<Channel>, subs: seq<Subscriber>, now: seq<Channel>, f: Frame)
    requires SubsOk(was, subs) && OfferedTo(was, subs, now, f)
    ensures |now| == |was| && SubsOk(now, Kept(subs, Receiving(was)))
    ensures forall c :: 0 <= c < |was| ==> now[c] == if was[c].sender then Offered(was[c], f) else was[c]
  {
    var keep := Receiving(was);
    KeptDistinct(subs, keep);
    KeptIs(subs, keep);
    forall i | 0 <= i < |Kept(subs, keep)| ensures Kept(subs, keep)[i].channel < |now| {
      assert Kept(subs, keep)[i] in subs;
    }
    forall c | 0 <= c < |now| ensures now[c].sender <==> Subscribed(Kept(subs, keep), c) {
      KeptSubscribed(subs, keep, c);
    }
  }

  class Hub {
    var channels: seq<Channel>
    var subscribers: seq<Subscriber>
    var dropped: nat

    ghost predicate Valid()
      reads this
    {
      SubsOk(channels, subscribers)
    }

    constructor ()
      ensures Valid() && channels == [] && subscribers == [] && dropped == 0
    {
      channels, subscribers, dropped := [], [], 0;
    }

    method Subscribe(peer: Option<nat>) returns (rx: nat)
      requires Valid()
      modifies this`channels, this`subscribers
      ensures Valid() && rx == |old(channels)|
      ensures channels == old(channels) + [Channel([], true, true)]
      ensures subscribers == old(subscribers) + [Subscriber(rx, peer)]
    {
      rx := |channels|;
      channels := channels + [Channel([], true, true)];
      subscribers := subscribers + [Subscriber(rx, peer)];
      forall c | 0 <= c < |channels| ensures channels[c].sender <==> Subscribed(subscribers, c) {
        if c < rx && channels[c].sender {
          var i :| 0 <= i < |old(subscribers)| && old(subscribers)[i].channel == c;
          assert subscribers[i].channel == c;
        }
        assert subscribers[|old(subscribers)|].channel == rx;
      }
    }

    // try_send
    method Offer(c: nat, frame: Frame) returns (stays: bool)
      requires c < |channels|
      modifies this`channels, this`dropped
      ensures channels == old(channels)[c := Offered(old(channels)[c], frame)]
      ensures stays == old(channels)[c].receiver
      ensures dropped == old(dropped) + (if stays && |old(channels)[c].queue| >= DEPTH then 1 else 0)
    {
      var x := channels[c];
      if !x.receiver {
        channels := channels[c := x.(sender := false)];
        return false;
      }
      if |x.queue| < DEPTH {
        channels := channels[c := x.(queue := x.queue + [frame])];
      } else {
        dropped := dropped + 1;
      }
      return true;
    }

    // Every client that still reads gets the frame, or is counted when its queue is
    // full and stays subscribed; the others are unsubscribed.
    method Publish(frame: Frame)
      requires Valid()
      modifies this
      ensures Valid() && |channels| == |old(channels)|
      ensures forall c :: 0 <= c < |channels| ==>
        channels[c] == if old(channels)[c].sender then Offered(old(channels)[c], frame) else old(channels)[c]
      ensures subscribers == Kept(old(subscribers), Receiving(old(channels)))
      ensures dropped == old(dropped) + FullQueues(old(channels), old(subscribers))
    {
      hide OfferedTo, Offered, Subscribed, Kept, FullQueues;
      ghost var was := channels;
      Untouched(was, subscribers, frame);
      var kept := [];
      for i := 0 to |subscribers|
        invariant subscribers == old(subscribers) && SubsOk(was, subscribers)
          && OfferedTo(was, subscribers[..i], channels, frame)
        invariant kept == Kept(subscribers[..i], Receiving(was))
        invariant dropped == old(dropped) + FullQueues(was, subscribers[..i])
      {
        OfferedMore(was, subscribers, i, channels, frame);
        var stays := Offer(subscribers[i].channel, frame);
        if stays {
          kept := kept + [subscribers[i]];
        }
      }
      assert subscribers[..|subscribers|] == subscribers;
      PublishedOk(was, subscribers, channels, frame);
      subscribers := kept;
    }

    // Cuts off the HTTP clients that the test matches, and nobody else; what is
    // already queued for them is theirs.
    method DisconnectClients(cut: nat -> bool) returns (n: nat)
      requires Valid()
      modifies this`channels, this`subscribers
      ensures Valid() && |channels| == |old(channels)|
      ensures subscribers == Kept(old(subscribers), Uncut(cut))
      ensures n == |old(subscribers)| - |subscribers|
      ensures forall c :: 0 <= c < |channels| ==> channels[c] == old(channels)[c].(sender := Subscribed(subscribers, c))
    {
      ghost var was := channels;
      var kept := [];
      for i := 0 to |subscribers|
        invariant subscribers == old(subscribers) && |channels| == |was|
        invariant kept == Kept(subscribers[..i], Uncut(cut))
        invariant forall c :: 0 <= c < |was| ==>
          channels[c] == was[c].(sender := was[c].sender && (Subscribed(subscribers[..i], c) ==> Subscribed(kept, c)))
      {
        assert subscribers[..i + 1][..i] == subscribers[..i];
        var x := subscribers[i];
        SubscribedLast(subscribers[..i], x);
        assert subscribers[..i] + [x] == subscribers[..i + 1];
        KeptSubscribed(subscribers[..i], Uncut(cut), x.channel);
        if x.peer.Some? && cut(x.peer.value) {
          channels := channels[x.channel := channels[x.channel].(sender := false)];
        } else {
          SubscribedLast(kept, x);
          kept := kept + [x];
        }
      }
      assert subscribers[..|subscribers|] == subscribers;
      KeptIs(subscribers, Uncut(cut));
      KeptDistinct(subscribers, Uncut(cut));
      forall c | 0 <= c < |channels| ensures channels[c].sender <==> Subscribed(kept, c) {
        KeptSubscribed(subscribers, Uncut(cut), c);
      }
      forall i | 0 <= i < |kept| ensures kept[i].channel < |channels| {
        assert kept[i] in subscribers;
      }
      n := |subscribers| - |kept|;
      subscribers := kept;
    }
  }

  // The reader of one client.
  class Reader {
    const hub: Hub
    const rx: nat
    var leftover: Frame
    var leftoverPos: nat

    ghost predicate Valid()
      reads this, hub
    {
      hub.Valid() && rx < |hub.channels| && leftoverPos <= |leftover|
    }

    function Rest(): Frame
      reads this
    {
      if leftoverPos <= |leftover| then leftover[leftoverPos..] else []
    }

    constructor (h: Hub, channel: nat)
      requires h.Valid() && channel < |h.channels|
      ensures Valid() && hub == h && rx == channel && Rest() == WavHeader()
    {
      hub, rx, leftover, leftoverPos := h, channel, WavHeader(), 0;
    }

    // `refused`: the gate was due and does not admit the client any more. An empty
    // channel is one from which nothing comes in time.
    method Read(buf: array<Byte>, refused: bool) returns (n: nat)
      requires Valid()
      modifies this`leftover, this`leftoverPos, hub`channels, buf
      ensures Valid() && n <= buf.Length && |hub.channels| == |old(hub.channels)|
      ensures var (out, rest, queue) := Reading(old(Rest()), old(hub.channels)[rx].queue, buf.Length, refused);
        buf[..n] == out && Rest() == rest && hub.channels[rx].queue == queue
      ensures buf[n..] == old(buf[n..])
      ensures hub.channels == old(hub.channels)[rx := old(hub.channels)[rx].(queue := hub.channels[rx].queue)]
    {
      if leftoverPos >= |leftover| {
        if refused || hub.channels[rx].queue == [] {
          return 0;
        }
        leftover := hub.channels[rx].queue[0];
        leftoverPos := 0;
        hub.channels := hub.channels[rx := hub.channels[rx].(queue := hub.channels[rx].queue[1..])];
        assert leftover[0..] == leftover;
      }
      var available := |leftover| - leftoverPos;
      n := if buf.Length < available then buf.Length else available;
      forall i | 0 <= i < n {
        buf[i] := leftover[leftoverPos + i];
      }
      assert buf[..n] == leftover[leftoverPos..][..n];
      assert leftover[leftoverPos + n..] == leftover[leftoverPos..][n..];
      leftoverPos := leftoverPos + n;
    }
  }
}
