/** The invariant of IoctlModel holds in every run, and what follows from it. */
module IoctlProof {
  import opened Common
  import opened BoundedQueue
  import opened Packets
  import opened IoctlModel

  // ----- one completion more -----

  lemma HeardMore(done: seq<AudioDone>, c: AudioDone, since: nat)
    requires since <= |done|
    ensures Heard((done + [c])[since..]) == Heard(done[since..]) + HeardOne(c)
    ensures DoneIds(done + [c]) == DoneIds(done) + multiset{c.id}
  {
    hide HeardOne;
    var l := (done + [c])[since..];
    assert l[..|l| - 1] == done[since..];
    assert (done + [c])[..|done|] == done;
  }

  lemma {:induction false} IdsMore(audio: seq<AudioRequest>, r: AudioRequest)
    ensures Ids(audio + [r]) == Ids(audio) + multiset{r.id}
  {
    if audio == [] {
      assert audio + [r] == [r];
    } else {
      IdsMore(audio[1..], r);
      assert (audio + [r])[1..] == audio[1..] + [r];
    }
  }

  lemma {:induction false} IdsWithout(audio: seq<AudioRequest>, k: nat)
    requires k < |audio|
    ensures Ids(audio) == multiset{audio[k].id} + Ids(audio[..k] + audio[k + 1..])
  {
    if k == 0 {
      assert audio[..0] + audio[1..] == audio[1..];
    } else {
      IdsWithout(audio[1..], k - 1);
      var rest := audio[..k] + audio[k + 1..];
      assert rest[1..] == audio[1..][..k - 1] + audio[1..][k..];
    }
  }

  // The request at place k is completed, and the ring has given up what it carries.
  lemma CompletedOk(d: Dev, k: nat, c: AudioDone, ring: Queue<Byte>, restart: bool)
    requires DoneOk(d) && k < |d.audio| && c.id == d.audio[k].id && Readable(c)
    requires Samples(ring.out) == Samples(d.ring.out) + HeardOne(c)
    ensures DoneOk(d.(audio := d.audio[..k] + d.audio[k + 1..], audioDone := d.audioDone + [c],
                        ring := ring, restart := restart))
  {
    hide Samples, Heard, HeardOne, Ids, DoneIds, Readable;
    IdsWithout(d.audio, k);
    HeardMore(d.audioDone, c, d.since);
    SinceKept(d.audioDone, c, d.since);
  }

  // A request completed without data.
  lemma FinishedOk(d: Dev, k: nat, status: Status)
    requires DoneOk(d) && k < |d.audio|
    ensures DoneOk(FinishAudio(d.(audio := d.audio[..k] + d.audio[k + 1..]), d.audio[k], status))
  {
    hide Samples, Heard, HeardOne, Ids, DoneIds, Readable, DoneOk;
    var c := AudioDone(d.audio[k].id, status, 0, d.audio[k].before);
    ZeroReadable(c);
    CompletedOk(d, k, c, d.ring, d.restart);
  }

  lemma ZeroReadable(c: AudioDone)
    requires c.information == 0
    ensures Readable(c) && HeardOne(c) == []
  {
  }

  lemma SinceKept(done: seq<AudioDone>, c: AudioDone, since: nat)
    requires since <= |done|
    requires forall k :: 0 <= k < |done| ==> Readable(done[k])
    requires Readable(c)
    ensures since <= |done + [c]|
    ensures forall k :: 0 <= k < |done + [c]| ==> Readable((done + [c])[k])
  {
  }

  lemma HeadIs(audio: seq<AudioRequest>)
    requires audio != []
    ensures audio[..0] + audio[1..] == audio[1..]
  {
  }

  // ----- serving -----

  lemma ServeRing(d: Dev, clock: nat -> nat)
    requires Admitted(d.audio) && d.audio != [] && |d.ring.items| >= FRAME_BYTES
    requires RingOk(d)
    ensures RingOk(Serve(d, clock))
  {
    hide Filled, PacketHeader, RingOk;
    var r := d.audio[0];
    if r.stillMapped {
      ReadOk(d, PcmCap(|r.before|));
      SameRingOk(d.(ring := Step(RING_BYTES, d.ring, Read(PcmCap(|r.before|))), restart := false), Serve(d, clock));
    } else {
      SameRingOk(d, Serve(d, clock));
    }
  }

  lemma ReadOk(d: Dev, cap: nat)
    requires RingOk(d) && |d.ring.items| >= FRAME_BYTES && cap >= FRAME_BYTES && cap % FRAME_BYTES == 0
    ensures RingOk(d.(ring := Step(RING_BYTES, d.ring, Read(cap)), restart := false))
  {
    hide Thinned;
    StepThinned(RING_BYTES, d.ring, Read(cap), d.fed);
    assert d.fed + Fed(Read(cap)) == d.fed;
  }

  lemma SameRingOk(d: Dev, e: Dev)
    requires RingOk(d) && e.ring == d.ring && e.fed == d.fed && e.position == d.position
    requires e.restart == d.restart && e.started == d.started
    ensures RingOk(e)
  {
    hide Thinned;
  }

  // The completion of a request with PCM.
  function Packed(r: AudioRequest, pcm: seq<Byte>, restart: bool, qpc: nat, position: nat): AudioDone
    requires HEADER_BYTES + |pcm| <= |r.before|
  {
    AudioDone(r.id, Success, HEADER_BYTES + |pcm|, Filled(r.before, PacketHeader(pcm, restart, qpc, position), pcm))
  }

  lemma ServeIs(d: Dev, clock: nat -> nat)
    requires Admitted(d.audio) && d.audio != [] && |d.ring.items| >= FRAME_BYTES
    ensures var r := d.audio[0];
      |r.before| >= HEADER_BYTES + FRAME_BYTES
      && var cap := PcmCap(|r.before|);
         var pcm := d.ring.items[..Taken(d.ring.items, cap)];
         Serve(d, clock) ==
           if !r.stillMapped then FinishAudio(d.(audio := d.audio[1..]), r, InsufficientResources)
           else
             d.(audio := d.audio[1..], ring := Step(RING_BYTES, d.ring, Read(cap)), restart := false,
                audioDone := d.audioDone + [Packed(r, pcm, d.restart, clock(|d.audioDone|), d.position)])
  {
    hide Filled, PacketHeader;
  }

  lemma ServeDone(d: Dev, clock: nat -> nat)
    requires DoneOk(d) && d.audio != [] && |d.ring.items| >= FRAME_BYTES && |d.ring.items| % FRAME_BYTES == 0
    requires |d.ring.out| % FRAME_BYTES == 0
    ensures DoneOk(Serve(d, clock))
  {
    hide Serve, Packed, PcmCap, Samples, Heard, HeardOne, Ids, DoneIds, Readable, DoneOk;
    AudioAdmitted(d);
    ServeIs(d, clock);
    var r := d.audio[0];
    HeadIs(d.audio);
    if !r.stillMapped {
      FinishedOk(d, 0, InsufficientResources);
    } else {
      var cap := PcmCap(|r.before|);
      var pcm := d.ring.items[..Taken(d.ring.items, cap)];
      PackedHeard(r, pcm, d.restart, clock(|d.audioDone|), d.position);
      SamplesConcat(d.ring.out, pcm);
      CompletedOk(d, 0, Packed(r, pcm, d.restart, clock(|d.audioDone|), d.position),
        Step(RING_BYTES, d.ring, Read(cap)), false);
    }
  }

  lemma PackedHeard(r: AudioRequest, pcm: seq<Byte>, restart: bool, qpc: nat, position: nat)
    requires HEADER_BYTES + |pcm| <= |r.before| && |pcm| <= MAX_PACKET_BYTES
    ensures var c := Packed(r, pcm, restart, qpc, position); c.id == r.id && Readable(c) && HeardOne(c) == Samples(pcm)
  {
    hide Filled, Receive, Samples;
    PacketRoundTrip(r.before, pcm, restart, qpc, position);
  }

  // The drain ends with no frame beside a request.
  lemma {:induction false} DeliverOk(d: Dev, clock: nat -> nat)
    requires RingOk(d) && DoneOk(d)
    ensures var e := Deliver(d, clock);
      && RingOk(e) && DoneOk(e) && Quiet(e)
      && e.events == d.events && e.posted == d.posted && e.waiting == d.waiting && e.closing == d.closing
      && (d.audio == [] ==> e.audio == [])
    decreases |d.audio|
  {
    hide Serve, Thinned, Heard, Ids, DoneIds, Readable, Samples;
    if |d.ring.items| >= FRAME_BYTES && d.audio != [] {
      ServeRing(d, clock);
      ServeDone(d, clock);
      ServeElse(d, clock);
      DeliverOk(Serve(d, clock), clock);
    }
  }

  lemma ServeElse(d: Dev, clock: nat -> nat)
    requires Admitted(d.audio) && d.audio != [] && d.ring.items != []
    ensures var e := Serve(d, clock);
      && e.audio == d.audio[1..] && Admitted(e.audio)
      && e.events == d.events && e.posted == d.posted && e.waiting == d.waiting && e.closing == d.closing
  {
  }

  // ----- the calls -----

  lemma ProduceOk(d: Dev, pcm: seq<Byte>, clock: nat -> nat)
    requires Inv(d) && |pcm| % FRAME_BYTES == 0
    ensures Inv(Produce(d, pcm, clock))
  {
    hide RingOk, DoneOk, Step;
    assert Admitted(d.audio) by { AudioAdmitted(d); }
    if pcm != [] {
      WriteOk(d, pcm);
      DeliverOk(d.(ring := Step(RING_BYTES, d.ring, Write(pcm)), fed := d.fed + pcm,
                   position := (d.position + |pcm| / FRAME_BYTES) % U64), clock);
    }
  }

  lemma AudioAdmitted(d: Dev)
    requires DoneOk(d)
    ensures Admitted(d.audio)
  {
  }

  lemma WriteOk(d: Dev, pcm: seq<Byte>)
    requires RingOk(d) && DoneOk(d) && |pcm| % FRAME_BYTES == 0
    ensures var e := d.(ring := Step(RING_BYTES, d.ring, Write(pcm)), fed := d.fed + pcm,
                        position := (d.position + |pcm| / FRAME_BYTES) % U64);
      RingOk(e) && DoneOk(e)
  {
    hide Thinned, Heard, Ids, DoneIds, Readable, Samples, Newest;
    StepThinned(RING_BYTES, d.ring, Write(pcm), d.fed);
    NewestFrames(d.ring.items + pcm);
    WholeFramesAdd(|d.fed|, |pcm|);
    WrapAdds(|d.fed| / FRAME_BYTES, |pcm| / FRAME_BYTES);
  }

  lemma NewestFrames(items: seq<Byte>)
    requires |items| % FRAME_BYTES == 0
    ensures |Newest(items, RING_BYTES)| % FRAME_BYTES == 0
  {
  }

  lemma WholeFramesAdd(a: nat, b: nat)
    requires a % FRAME_BYTES == 0 && b % FRAME_BYTES == 0
    ensures (a + b) % FRAME_BYTES == 0 && (a + b) / FRAME_BYTES == a / FRAME_BYTES + b / FRAME_BYTES
  {
  }

  lemma WrapAdds(a: nat, b: nat)
    ensures (a % U64 + b) % U64 == (a + b) % U64
  {
  }

  lemma GetAudioOk(d: Dev, r: AudioRequest, clock: nat -> nat)
    requires Inv(d)
    ensures Inv(GetAudio(d, r, clock))
  {
    hide Thinned, Heard, Ids, DoneIds, Readable, Samples;
    IdsMore(d.audio, r);
    var e := d.(issued := d.issued + multiset{r.id}, audio := d.audio + [r]);
    if |r.before| >= HEADER_BYTES + FRAME_BYTES && r.mdl && r.mapped && !d.closing {
      DeliverOk(e, clock);
    } else {
      Refused(d, r, BufferTooSmall);
      Refused(d, r, InvalidParameter);
      Refused(d, r, InsufficientResources);
      Refused(d, r, NotReady);
    }
  }

  lemma Refused(d: Dev, r: AudioRequest, status: Status)
    requires DoneOk(d)
    ensures DoneOk(FinishAudio(d.(issued := d.issued + multiset{r.id}), r, status))
  {
    hide Receive, Samples;
    var c := AudioDone(r.id, status, 0, r.before);
    HeardMore(d.audioDone, c, d.since);
    ZeroReadable(c);
    SinceKept(d.audioDone, c, d.since);
  }

  lemma {:induction false} FinishAllOk(d: Dev, status: Status)
    requires DoneOk(d)
    ensures var e := FinishAllAudio(d, status);
      DoneOk(e) && e == d.(audio := [], audioDone := e.audioDone)
    decreases |d.audio|
  {
    hide DoneOk, Samples, Heard, HeardOne, Ids, DoneIds, Readable;
    if d.audio != [] {
      FinishedOk(d, 0, status);
      HeadIs(d.audio);
      FinishAllOk(FinishAudio(d.(audio := d.audio[1..]), d.audio[0], status), status);
    }
  }

  lemma PostOk(d: Dev, event: ControlEvent)
    requires EventsOk(d)
    ensures var e := Post(d, event);
      && EventsOk(e)
      && e == d.(events := e.events, posted := e.posted, waiting := e.waiting, eventDone := e.eventDone)
      && (d.waiting == [] ==> e.waiting == [])
  {
    hide Thinned;
    StepThinned(EVENT_QUEUE_DEPTH - 1, d.events, Write([event]), d.posted);
    if d.waiting != [] {
      assert Thinned(d.events.out + d.events.items, d.posted);
      ThinnedAppend(d.events.out + d.events.items, d.posted, [event]);
      var all := d.events.out + d.events.items + [event];
      assert all == d.events.out + [event] + [];
      ThinnedCut(all, d.posted + [event], |d.events.out|, |all|);
      assert all[..|d.events.out|] + all[|all|..] == d.events.out + d.events.items;
    }
  }

  lemma GetEventOk(d: Dev, r: EventRequest)
    requires EventsOk(d)
    ensures var e := GetEvent(d, r);
      && EventsOk(e)
      && e == d.(events := e.events, waiting := e.waiting, eventDone := e.eventDone)
      && (d.closing ==> e.waiting == d.waiting)
  {
    hide Thinned;
    StepThinned(EVENT_QUEUE_DEPTH - 1, d.events, Read(1), d.posted);
    assert d.posted + Fed<ControlEvent>(Read(1)) == d.posted;
    var all := d.events.out + d.events.items;
    if d.events.items != [] {
      ThinnedCut(all, d.posted, |d.events.out|, |d.events.out| + 1);
      assert all[..|d.events.out|] + all[|d.events.out| + 1..] == d.events.out + d.events.items[1..];
    }
  }

  lemma {:induction false} FinishAllEventsOk(d: Dev, status: Status)
    ensures var e := FinishAllEvents(d, status); e == d.(waiting := [], eventDone := e.eventDone)
    decreases |d.waiting|
  {
    if d.waiting != [] {
      FinishAllEventsOk(FinishEvent(d.(waiting := d.waiting[1..]), d.waiting[0], status, None), status);
    }
  }

  lemma StartOk(d: Dev)
    requires Inv(d)
    ensures Inv(OnStreamStart(d))
  {
    hide Post, Thinned, Readable, Receive, Ids, DoneIds;
    var e := d.(ring := Empty(), fed := [], since := |d.audioDone|, started := true, position := 0, restart := true);
    ThinnedSelf(e.fed);
    assert e.ring.out + e.ring.items == e.fed;
    assert d.audioDone[|d.audioDone|..] == [];
    assert Samples(e.ring.out) == [];
    PostOk(e, ControlEvent(EVENT_STREAM_START, 0));
  }

  lemma StopOk(d: Dev)
    requires Inv(d)
    ensures Inv(OnStreamStop(d)) && OnStreamStop(d).audio == []
  {
    hide Thinned, Heard, Ids, DoneIds, Readable, Samples, Post;
    FinishAllOk(d, Success);
    PostOk(FinishAllAudio(d, Success), ControlEvent(EVENT_STREAM_STOP, 0));
  }

  lemma CloseOk(d: Dev)
    requires Inv(d)
    ensures Inv(BeginClose(d))
  {
    hide Thinned, Heard, Ids, DoneIds, Readable, Samples;
    var e := d.(closing := true);
    FinishAllOk(e, Cancelled);
    FinishAllEventsOk(FinishAllAudio(e, Cancelled), Cancelled);
  }

  lemma CancelAudioOk(d: Dev, k: nat)
    requires Inv(d) && k < |d.audio|
    ensures Inv(CancelAudio(d, k))
  {
    hide RingOk, EventsOk, DoneOk;
    FinishedOk(d, k, Cancelled);
    SameRing(d, CancelAudio(d, k));
    SameEvents(d, CancelAudio(d, k));
  }

  lemma CancelEventOk(d: Dev, k: nat)
    requires Inv(d) && k < |d.waiting|
    ensures Inv(CancelEvent(d, k))
  {
    hide Thinned;
    SameRing(d, CancelEvent(d, k));
  }

  lemma {:induction false} CancelFileOk(d: Dev, k: nat, file: nat)
    requires Inv(d)
    ensures k <= |d.audio| ==> Inv(CancelFileAudio(d, k, file))
    ensures k <= |d.waiting| ==> Inv(CancelFileEvents(d, k, file))
    decreases |d.audio| + |d.waiting| + 1 - k
  {
    hide Inv;
    if k < |d.audio| {
      if d.audio[k].file == file {
        CancelAudioOk(d, k);
        CancelFileOk(CancelAudio(d, k), k, file);
      } else {
        CancelFileOk(d, k + 1, file);
      }
    }
    if k < |d.waiting| {
      if d.waiting[k].file == file {
        CancelEventOk(d, k);
        CancelFileOk(CancelEvent(d, k), k, file);
      } else {
        CancelFileOk(d, k + 1, file);
      }
    }
  }

  // Handle cleanup leaves exactly the audio requests of the other handles, in their order.
  lemma {:induction false} FileGone(d: Dev, k: nat, file: nat)
    requires k <= |d.audio|
    ensures var e := CancelFileAudio(d, k, file);
      e.audio == d.audio[..k] + Others(d.audio[k..], file) && e.waiting == d.waiting
    decreases |d.audio| - k
  {
    if k < |d.audio| {
      if d.audio[k].file == file {
        FileGone(CancelAudio(d, k), k, file);
        assert CancelAudio(d, k).audio[k..] == d.audio[k..][1..];
        assert CancelAudio(d, k).audio[..k] == d.audio[..k];
        assert [] + Others(d.audio[k..][1..], file) == Others(d.audio[k..][1..], file);
      } else {
        FileGone(d, k + 1, file);
        assert d.audio[k + 1..] == d.audio[k..][1..];
        assert d.audio[..k + 1] == d.audio[..k] + [d.audio[k]];
        Regroup(d.audio[..k], [d.audio[k]], Others(d.audio[k + 1..], file));
      }
    } else {
      assert d.audio[..k] == d.audio;
    }
  }

  lemma Regroup<T>(a: seq<T>, b: seq<T>, c: seq<T>)
    ensures a + (b + c) == (a + b) + c
  {
  }

  function Others(audio: seq<AudioRequest>, file: nat): seq<AudioRequest> {
    if audio == [] then []
    else (if audio[0].file == file then [] else [audio[0]]) + Others(audio[1..], file)
  }

  // Every call keeps the invariant.
  lemma ApplyOk(d: Dev, call: Call)
    requires Inv(d) && Possible(d, call)
    ensures Inv(Apply(d, call))
  {
    hide RingOk, EventsOk, Produce, GetAudio, Post, GetEvent, OnStreamStart, OnStreamStop, BeginClose, Heard;
    hide Ids, DoneIds, Readable, Samples;
    match call
    case AudioProduce(pcm, clock) => ProduceOk(d, pcm, clock);
    case HandleGetAudio(r, clock) => GetAudioOk(d, r, clock);
    case PostEvent(e) => PostOk(d, e); assert Inv(Post(d, e)) by { SameRing(d, Post(d, e)); }
    case HandleGetEvent(r) => GetEventOk(d, r); assert Inv(GetEvent(d, r)) by { SameRing(d, GetEvent(d, r)); }
    case StreamStart => StartOk(d);
    case StreamStop => StopOk(d);
    case Close => CloseOk(d);
    case CancelledAudio(k) => CancelAudioOk(d, k);
    case CancelledEvent(k) => CancelEventOk(d, k);
    case FileClosed(file) =>
      CancelFileOk(d, 0, file);
      CancelFileOk(CancelFileAudio(d, 0, file), 0, file);
  }

  lemma SameRing(d: Dev, e: Dev)
    requires RingOk(d) && e.ring == d.ring && e.fed == d.fed && e.position == d.position && e.restart == d.restart
    requires e.started == d.started
    ensures RingOk(e)
  {
  }

  lemma SameEvents(d: Dev, e: Dev)
    requires EventsOk(d) && e.events == d.events && e.posted == d.posted && e.waiting == d.waiting
    ensures EventsOk(e)
  {
  }

  lemma {:induction false} RunOk(d: Dev, calls: seq<Call>, d': Dev)
    requires Inv(d) && Leads(d, calls, d')
    ensures Inv(d')
    decreases |calls|
  {
    hide Inv, Apply, Possible;
    if calls != [] {
      ApplyOk(d, calls[0]);
      RunOk(Apply(d, calls[0]), calls[1..], d');
    }
  }

  ghost predicate Reached(d: Dev) {
    exists calls :: Leads(FRESH, calls, d)
  }

  lemma FreshOk()
    ensures Inv(FRESH)
  {
    hide RingOk, DoneOk, EventsOk, Samples;
    assert RingOk(FRESH) by { NothingFed(FRESH); }
    assert DoneOk(FRESH) by { NothingDone(FRESH); }
    assert EventsOk(FRESH) by { NothingPosted(FRESH); }
  }

  lemma NothingFed(d: Dev)
    requires d.ring == Empty() && d.fed == [] && d.position == 0 && !d.started && !d.restart
    ensures RingOk(d)
  {
    ThinnedSelf(d.fed);
    assert d.ring.out + d.ring.items == d.fed;
  }

  lemma NothingDone(d: Dev)
    requires d.audio == [] && d.audioDone == [] && d.since == 0 && d.issued == multiset{} && d.ring == Empty()
    ensures DoneOk(d)
  {
    hide Heard, DoneIds, Ids, Samples;
    NothingHeard();
    assert d.audioDone[d.since..] == [];
  }

  lemma NothingHeard()
    ensures Heard([]) == [] && DoneIds([]) == multiset{} && Ids([]) == multiset{} && Samples([]) == []
  {
  }

  lemma NothingPosted(d: Dev)
    requires d.events == Empty() && d.posted == [] && d.waiting == []
    ensures EventsOk(d)
  {
    ThinnedSelf(d.posted);
    assert d.events.out + d.events.items == d.posted;
  }

  lemma ReachedInv(d: Dev)
    requires Reached(d)
    ensures Inv(d)
  {
    hide Inv;
    FreshOk();
    var calls :| Leads(FRESH, calls, d);
    RunOk(FRESH, calls, d);
  }

  // ----- the theorems -----

  // Every byte produced since the stream start was delivered, was overwritten
  // or is in the ring, in whole frames, and the stream position counts them.
  lemma AudioConserved(d: Dev)
    requires Reached(d)
    ensures |d.ring.out| + d.ring.lost + |d.ring.items| == |d.fed|
    ensures d.position == |d.fed| / FRAME_BYTES % U64 && |d.fed| % FRAME_BYTES == 0
    ensures |d.ring.out| % FRAME_BYTES == 0 && |d.ring.items| % FRAME_BYTES == 0
  {
    ReachedInv(d);
  }

  // The service decodes every successful request, and hears, since the stream
  // start, samples of the produced stream in their order, none twice; all of
  // them when nothing was overwritten.
  lemma ServiceHears(d: Dev)
    requires Reached(d)
    ensures d.since <= |d.audioDone| && Heard(d.audioDone[d.since..]) == Samples(d.ring.out)
    ensures Thinned(d.ring.out + d.ring.items, d.fed)
    ensures d.ring.lost == 0 ==> d.ring.out + d.ring.items == d.fed
    ensures forall k :: 0 <= k < |d.audioDone| && d.audioDone[k].status == Success ==>
              d.audioDone[k].information <= |d.audioDone[k].buffer|
                && Receive(d.audioDone[k].buffer, d.audioDone[k].information).Ok?
  {
    hide Receive;
    ReachedInv(d);
    forall k | 0 <= k < |d.audioDone| && d.audioDone[k].status == Success
      ensures d.audioDone[k].information <= |d.audioDone[k].buffer|
      ensures Receive(d.audioDone[k].buffer, d.audioDone[k].information).Ok?
    {
      assert Readable(d.audioDone[k]);
    }
    if d.ring.lost == 0 {
      var at :| Picks(d.ring.out + d.ring.items, d.fed, at);
      PicksAll(at, |d.fed|);
    }
  }

  // No request is lost or completed twice: those pending and those completed
  // are the ones issued.
  lemma RequestsConserved(d: Dev)
    requires Reached(d)
    ensures Ids(d.audio) + DoneIds(d.audioDone) == d.issued
  {
    ReachedInv(d);
  }

  // Between calls, no frame waits beside a request, and no event beside an
  // event request; a closed context holds no request.
  lemma NothingWaits(d: Dev)
    requires Reached(d)
    ensures |d.ring.items| == 0 || d.audio == []
    ensures d.events.items == [] || d.waiting == []
    ensures d.closing ==> d.audio == [] && d.waiting == []
  {
    hide Thinned, Heard, Ids, DoneIds, Readable, Samples, DoneOk;
    ReachedInv(d);
  }

  // Events are handed out in the order they were posted; every event is handed
  // out, queued, or counted lost, and at most 15 are queued.
  lemma EventsInOrder(d: Dev)
    requires Reached(d)
    ensures Thinned(d.events.out + d.events.items, d.posted)
    ensures |d.events.out| + |d.events.items| + d.events.lost == |d.posted| && |d.events.items| <= 15
    ensures d.events.lost == 0 ==> d.events.out + d.events.items == d.posted
  {
    ReachedInv(d);
    if d.events.lost == 0 {
      var at :| Picks(d.events.out + d.events.items, d.posted, at);
      PicksAll(at, |d.posted|);
    }
  }

  // The packet served next is marked as a restart if and only if it is the
  // first since the stream start, and its position is the frame count so far.
  lemma RestartMarksFirst(d: Dev, clock: nat -> nat)
    requires RingOk(d) && DoneOk(d) && d.started
    requires d.audio != [] && |d.ring.items| >= FRAME_BYTES && d.audio[0].stillMapped
    ensures var c := Serve(d, clock).audioDone[|d.audioDone|];
      && c.information <= |c.buffer| && Receive(c.buffer, c.information).Ok?
      && var p := Receive(c.buffer, c.information).value;
         && (p.flags == FLAG_STREAM_RESTART <==> d.ring.out == [])
         && p.streamPosition == |d.fed| / FRAME_BYTES % U64
         && 0 < 2 * |p.samples| <= |d.ring.items|
  {
    hide Receive, Filled;
    var r := d.audio[0];
    var pcm := d.ring.items[..Taken(d.ring.items, PcmCap(|r.before|))];
    PacketRoundTrip(r.before, pcm, d.restart, clock(|d.audioDone|), d.position);
  }
}
