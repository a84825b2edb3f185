/** The driver's device context, updated in place; each call does what IoctlModel says. */
module IoctlCtx {
  import opened Common
  import opened BoundedQueue
  import opened Packets
  import opened IoctlModel
  import opened IoctlProof
  import opened RingBuffer

  // The events of the circular array, from head up to tail.
  function Between(a: seq<ControlEvent>, head: nat, tail: nat): seq<ControlEvent>
    requires head < |a| && tail < |a|
  {
    if head <= tail then a[head..tail] else a[head..] + a[..tail]
  }

  class Ctx {
    const AudioRing: Ring
    const EventQueue: array<ControlEvent>
    var EventHead: nat
    var EventTail: nat
    var AudioIrpList: seq<AudioRequest>
    var EventIrpList: seq<EventRequest>
    var StreamPositionFrames: nat
    var PendingStreamRestart: bool
    var Closing: bool
    // What the completed requests carried.
    var audioDone: seq<AudioDone>
    var eventDone: seq<EventDone>
    ghost var model: Dev

    // The fields hold what the model says.
    ghost predicate Coupled()
      reads this, AudioRing, AudioRing.Buffer, EventQueue
    {
      && AudioRing.Valid() && AudioRing.Buffer != null && AudioRing.Capacity == RING_BYTES
      && EventQueue.Length == EVENT_QUEUE_DEPTH && EventHead < EVENT_QUEUE_DEPTH && EventTail < EVENT_QUEUE_DEPTH
      && model.ring.items == AudioRing.Contents()
      && model.events.items == Between(EventQueue[..], EventHead, EventTail)
      && model.audio == AudioIrpList && model.waiting == EventIrpList
      && model.position == StreamPositionFrames && model.restart == PendingStreamRestart
      && model.closing == Closing && model.audioDone == audioDone && model.eventDone == eventDone
    }

    ghost predicate Valid()
      reads this, AudioRing, AudioRing.Buffer, EventQueue
    {
      Coupled() && Inv(model)
    }

    // IoctlCtxInit with its allocation successful.
    constructor ()
      ensures Valid() && model == FRESH
      ensures fresh(AudioRing) && fresh(AudioRing.Buffer) && fresh(EventQueue)
    {
      var ring := new Ring();
      RingIsPow2();
      var status := ring.Init(RING_BYTES, true);
      AudioRing := ring;
      EventQueue := new ControlEvent[EVENT_QUEUE_DEPTH](_ => ControlEvent(0, 0));
      EventHead, EventTail := 0, 0;
      AudioIrpList, EventIrpList := [], [];
      StreamPositionFrames, PendingStreamRestart, Closing := 0, false, false;
      audioDone, eventDone := [], [];
      model := FRESH;
      new;
      hide Inv, Ring.Contents, Ring.Valid, Between;
      FreshOk();
      Unqueued(EventQueue[..], EventHead, EventTail);
    }

    // DequeueAudioIrp, with no cancellation under way.
    method DequeueAudioIrp() returns (irp: Option<AudioRequest>)
      modifies this`AudioIrpList
      ensures irp == if old(AudioIrpList) == [] then None else Some(old(AudioIrpList)[0])
      ensures AudioIrpList == if old(AudioIrpList) == [] then [] else old(AudioIrpList)[1..]
    {
      if |AudioIrpList| > 0 {
        irp := Some(AudioIrpList[0]);
        AudioIrpList := AudioIrpList[1..];
      } else {
        irp := None;
      }
    }

    // Fills the buffer of a request from the ring.
    method FillPacket(r: AudioRequest, qpc: nat) returns (done: AudioDone)
      requires AudioRing.Valid() && |AudioRing.Contents()| >= FRAME_BYTES
      requires |r.before| >= HEADER_BYTES + FRAME_BYTES
      modifies this`PendingStreamRestart, AudioRing`Head
      ensures AudioRing.Valid() && !PendingStreamRestart
      ensures var queued := old(AudioRing.Contents());
        var n := Taken(queued, PcmCap(|r.before|));
        && AudioRing.Contents() == queued[n..]
        && done == Packed(r, queued[..n], old(PendingStreamRestart), qpc, StreamPositionFrames)
    {
      hide Filled, Ring.Contents, Ring.Valid;
      var pcmCap := |r.before| - HEADER_BYTES;
      if pcmCap > MAX_PACKET_BYTES {
        pcmCap := MAX_PACKET_BYTES;
      }
      pcmCap := pcmCap - pcmCap % FRAME_BYTES;
      var pcmOut := new Byte[pcmCap](_ => 0);
      var copied := AudioRing.Read(pcmOut, pcmCap);
      if copied == 0 {
        assert false; // nobody else drains the ring, so the requeue cannot be reached
      }
      var flags := 0;
      if PendingStreamRestart {
        flags := FLAG_STREAM_RESTART;
      }
      PendingStreamRestart := false;
      var hdr := Header(SAMPLE_RATE, BITS_PER_SAMPLE, CHANNELS, copied / FRAME_BYTES, copied, flags,
                        qpc % U64, StreamPositionFrames % U64);
      done := AudioDone(r.id, Success, HEADER_BYTES + copied, Filled(r.before, hdr, pcmOut[..copied]));
    }

    // One round of the drain loop: false if there is no request.
    method ServeOne(clock: nat -> nat) returns (served: bool)
      requires Coupled() && Admitted(model.audio) && |model.ring.items| >= FRAME_BYTES
      modifies this`AudioIrpList, this`PendingStreamRestart, this`audioDone, this`model, AudioRing`Head
      ensures served <==> old(AudioIrpList) != []
      ensures served ==> model == Serve(old(model), clock)
      ensures !served ==> model == old(model)
      ensures Coupled() && |AudioIrpList| == |old(AudioIrpList)| - (if served then 1 else 0)
    {
      hide Serve, Packed, Between, Ring.Contents, Ring.Valid, PcmCap;
      var irp := DequeueAudioIrp();
      if irp == None {
        return false;
      }
      var r := irp.value;
      ghost var d := model;
      ServeIs(d, clock);
      model := Serve(d, clock);
      if r.stillMapped {
        var done := FillPacket(r, clock(|audioDone|));
        audioDone := audioDone + [done];
      } else {
        audioDone := audioDone + [AudioDone(r.id, InsufficientResources, 0, r.before)];
      }
      return true;
    }

    // The drain loop: each round takes one request off the list, so it ends.
    method TryCompleteAudio(clock: nat -> nat)
      requires Coupled() && RingOk(model) && DoneOk(model)
      modifies this`AudioIrpList, this`PendingStreamRestart, this`audioDone, this`model, AudioRing`Head
      ensures Coupled() && model == Deliver(old(model), clock)
    {
      hide RingOk, DoneOk, Serve, Ring.Contents, Ring.Valid, Between;
      AudioAdmitted(model);
      while true
        invariant Coupled() && RingOk(model) && DoneOk(model) && Admitted(model.audio)
        invariant Deliver(model, clock) == Deliver(old(model), clock)
        decreases |AudioIrpList|
      {
        var avail := AudioRing.Available();
        if avail < FRAME_BYTES {
          return;
        }
        ghost var d := model;
        if d.audio != [] { Served(d, clock); }
        var served := ServeOne(clock);
        if !served {
          return;
        }
      }
    }

    method AudioProduce(pcm: seq<Byte>, clock: nat -> nat)
      requires Valid() && |pcm| % FRAME_BYTES == 0
      modifies this, AudioRing`Head, AudioRing`Tail, AudioRing.Buffer
      ensures Valid() && model == Produce(old(model), pcm, clock)
    {
      hide Inv, Ring.Contents, Ring.Valid, Between, Newest, RingOk, DoneOk, EventsOk, Deliver;
      if |pcm| == 0 {
        return;
      }
      ghost var d := model;
      ProduceOk(d, pcm, clock);
      InvParts(d);
      WriteOk(d, pcm);
      var lost := AudioRing.Write(pcm);
      StreamPositionFrames := (StreamPositionFrames + |pcm| / FRAME_BYTES) % U64;
      model := d.(ring := Step(RING_BYTES, d.ring, Write(pcm)), fed := d.fed + pcm,
                  position := (d.position + |pcm| / FRAME_BYTES) % U64);
      TryCompleteAudio(clock);
    }

    method HandleGetAudio(r: AudioRequest, clock: nat -> nat)
      requires Valid()
      modifies this, AudioRing`Head
      ensures Valid() && model == GetAudio(old(model), r, clock)
    {
      hide Inv, Ring.Contents, Ring.Valid, Between, RingOk, DoneOk, EventsOk, Deliver;
      ghost var d := model;
      GetAudioOk(d, r, clock);
      InvParts(d);
      ghost var e := d.(issued := d.issued + multiset{r.id});
      if |r.before| < HEADER_BYTES + FRAME_BYTES {
        audioDone := audioDone + [AudioDone(r.id, BufferTooSmall, 0, r.before)];
        model := FinishAudio(e, r, BufferTooSmall);
        return;
      }
      if !r.mdl {
        audioDone := audioDone + [AudioDone(r.id, InvalidParameter, 0, r.before)];
        model := FinishAudio(e, r, InvalidParameter);
        return;
      }
      if !r.mapped {
        audioDone := audioDone + [AudioDone(r.id, InsufficientResources, 0, r.before)];
        model := FinishAudio(e, r, InsufficientResources);
        return;
      }
      if Closing {
        audioDone := audioDone + [AudioDone(r.id, NotReady, 0, r.before)];
        model := FinishAudio(e, r, NotReady);
        return;
      }
      Accepted(d, r);
      AudioIrpList := AudioIrpList + [r];
      model := e.(audio := d.audio + [r]);
      TryCompleteAudio(clock);
    }

    // ----- control events -----

    method PostEvent(event: ControlEvent)
      requires Coupled() && EventsOk(model)
      modifies this`EventHead, this`EventTail, this`EventIrpList, this`eventDone, this`model, EventQueue
      ensures Coupled() && model == Post(old(model), event)
    {
      hide Ring.Contents, Ring.Valid, Thinned, Between, Newest;
      ghost var d := model;
      model := Post(d, event);
      if |EventIrpList| > 0 {
        var irp := EventIrpList[0];
        EventIrpList := EventIrpList[1..];
        if irp.buffer && irp.length >= CONTROL_EVENT_BYTES {
          eventDone := eventDone + [EventDone(irp.id, Success, Some(event))];
        } else {
          eventDone := eventDone + [EventDone(irp.id, BufferTooSmall, None)];
        }
        return;
      }
      ghost var was := EventQueue[..];
      ghost var head := EventHead;
      var nextTail := (EventTail + 1) % EVENT_QUEUE_DEPTH;
      if nextTail == EventHead {
        EventHead := (EventHead + 1) % EVENT_QUEUE_DEPTH;
      }
      EventQueue[EventTail] := event;
      Queued(was, head, EventTail, event);
      assert EventQueue[..] == was[EventTail := event];
      EventTail := nextTail;
    }

    method HandleGetEvent(r: EventRequest)
      requires Coupled()
      modifies this`EventHead, this`EventIrpList, this`eventDone, this`model
      ensures Coupled() && model == GetEvent(old(model), r)
    {
      hide Ring.Contents, Ring.Valid, Between;
      Unqueued(EventQueue[..], EventHead, EventTail);
      ghost var d := model;
      model := GetEvent(d, r);
      if r.length < CONTROL_EVENT_BYTES {
        eventDone := eventDone + [EventDone(r.id, BufferTooSmall, None)];
        return;
      }
      if EventHead != EventTail {
        var ev := EventQueue[EventHead];
        EventHead := (EventHead + 1) % EVENT_QUEUE_DEPTH;
        if !r.buffer {
          eventDone := eventDone + [EventDone(r.id, InvalidParameter, None)];
          return;
        }
        eventDone := eventDone + [EventDone(r.id, Success, Some(ev))];
        return;
      }
      if Closing {
        eventDone := eventDone + [EventDone(r.id, NotReady, None)];
        return;
      }
      EventIrpList := EventIrpList + [r];
    }

    // ----- stream lifecycle and closing -----

    method OnStreamStart()
      requires Valid()
      modifies this, AudioRing`Head, EventQueue
      ensures Valid() && model == IoctlModel.OnStreamStart(old(model))
    {
      hide Inv, Ring.Contents, Ring.Valid, Between, Post, RingOk, DoneOk, EventsOk;
      ghost var d := model;
      StartOk(d);
      InvParts(d);
      AudioRing.Reset();
      StreamPositionFrames := 0;
      PendingStreamRestart := true;
      model := d.(ring := Empty(), fed := [], since := |d.audioDone|, started := true, position := 0, restart := true);
      SameEvents(d, model);
      PostEvent(ControlEvent(EVENT_STREAM_START, 0));
    }

    // Completes every queued audio request without data.
    method FinishAudioList(status: Status)
      requires Coupled()
      modifies this`AudioIrpList, this`audioDone, this`model
      ensures Coupled() && model == FinishAllAudio(old(model), status)
    {
      hide Ring.Contents, Ring.Valid, Between;
      while true
        invariant Coupled() && FinishAllAudio(model, status) == FinishAllAudio(old(model), status)
        decreases |AudioIrpList|
      {
        ghost var d := model;
        var irp := DequeueAudioIrp();
        if irp == None {
          break;
        }
        audioDone := audioDone + [AudioDone(irp.value.id, status, 0, irp.value.before)];
        model := FinishAudio(d.(audio := d.audio[1..]), d.audio[0], status);
      }
    }

    method FinishEventList(status: Status)
      requires Coupled()
      modifies this`EventIrpList, this`eventDone, this`model
      ensures Coupled() && model == FinishAllEvents(old(model), status)
    {
      hide Ring.Contents, Ring.Valid, Between;
      while |EventIrpList| > 0
        invariant Coupled() && FinishAllEvents(model, status) == FinishAllEvents(old(model), status)
        decreases |EventIrpList|
      {
        ghost var d := model;
        eventDone := eventDone + [EventDone(EventIrpList[0].id, status, None)];
        EventIrpList := EventIrpList[1..];
        model := FinishEvent(d.(waiting := d.waiting[1..]), d.waiting[0], status, None);
      }
    }

    method OnStreamStop()
      requires Valid()
      modifies this, EventQueue
      ensures Valid() && model == IoctlModel.OnStreamStop(old(model))
    {
      hide Inv, Ring.Contents, Between, Post;
      StopOk(model);
      InvParts(model);
      FinishAllOk(model, Success);
      FinishAudioList(Success);
      PostEvent(ControlEvent(EVENT_STREAM_STOP, 0));
    }

    // IoctlCancelFileIrps: walks each list, taking out the requests of the handle.
    method CancelFileIrps(file: nat)
      requires Valid()
      modifies this
      ensures Valid() && model == CancelFile(old(model), file)
    {
      hide Inv, Ring.Contents, Ring.Valid, Between;
      CancelFileOk(model, 0, file);
      CancelFileOk(CancelFileAudio(model, 0, file), 0, file);
      var k := 0;
      while k < |AudioIrpList|
        invariant k <= |AudioIrpList| && Coupled()
        invariant CancelFileAudio(model, k, file) == CancelFileAudio(old(model), 0, file)
        decreases |AudioIrpList| - k
      {
        var irp := AudioIrpList[k];
        if irp.file == file {
          model := CancelAudio(model, k);
          AudioIrpList := AudioIrpList[..k] + AudioIrpList[k + 1..];
          audioDone := audioDone + [AudioDone(irp.id, Cancelled, 0, irp.before)];
        } else {
          k := k + 1;
        }
      }
      CancelFileEventIrps(file);
    }

    method CancelFileEventIrps(file: nat)
      requires Coupled()
      modifies this`EventIrpList, this`eventDone, this`model
      ensures Coupled() && model == CancelFileEvents(old(model), 0, file)
    {
      hide Ring.Contents, Ring.Valid, Between;
      var k := 0;
      while k < |EventIrpList|
        invariant k <= |EventIrpList| && Coupled()
        invariant CancelFileEvents(model, k, file) == CancelFileEvents(old(model), 0, file)
        decreases |EventIrpList| - k
      {
        var irp := EventIrpList[k];
        if irp.file == file {
          model := CancelEvent(model, k);
          EventIrpList := EventIrpList[..k] + EventIrpList[k + 1..];
          eventDone := eventDone + [EventDone(irp.id, Cancelled, None)];
        } else {
          k := k + 1;
        }
      }
    }

    method BeginClose()
      requires Valid()
      modifies this
      ensures Valid() && model == IoctlModel.BeginClose(old(model))
    {
      hide Inv, Ring.Contents, Between;
      CloseOk(model);
      Closing := true;
      model := model.(closing := true);
      FinishAudioList(Cancelled);
      FinishEventList(Cancelled);
    }
  }

  // ----- facts about the model that the methods use, with the invariant folded -----

  lemma InvParts(d: Dev)
    requires Inv(d)
    ensures RingOk(d) && DoneOk(d) && EventsOk(d) && Admitted(d.audio)
  {
  }

  lemma Accepted(d: Dev, r: AudioRequest)
    requires RingOk(d) && DoneOk(d) && |r.before| >= HEADER_BYTES + FRAME_BYTES
    ensures var e := d.(issued := d.issued + multiset{r.id}, audio := d.audio + [r]);
      RingOk(e) && DoneOk(e)
  {
    hide Heard, Ids, DoneIds, Readable, Samples, Thinned;
    IdsMore(d.audio, r);
  }

  lemma Served(d: Dev, clock: nat -> nat)
    requires RingOk(d) && DoneOk(d) && d.audio != [] && |d.ring.items| >= FRAME_BYTES
    ensures Admitted(d.audio)
    ensures RingOk(Serve(d, clock)) && DoneOk(Serve(d, clock)) && Admitted(Serve(d, clock).audio)
  {
    hide Thinned, Heard, Ids, DoneIds, Readable, Samples;
    ServeRing(d, clock);
    ServeDone(d, clock);
  }

  // ----- the circular array -----

  function After(place: nat): nat {
    if place == EVENT_QUEUE_DEPTH - 1 then 0 else place + 1
  }

  lemma QueuedWithRoom(a: seq<ControlEvent>, head: nat, tail: nat, event: ControlEvent)
    requires |a| == EVENT_QUEUE_DEPTH && head < |a| && tail < |a| && After(tail) != head
    ensures Between(a[tail := event], head, After(tail)) == Between(a, head, tail) + [event]
    ensures |Between(a, head, tail)| < EVENT_QUEUE_DEPTH - 1
  {
  }

  lemma QueuedWhenFull(a: seq<ControlEvent>, head: nat, tail: nat, event: ControlEvent)
    requires |a| == EVENT_QUEUE_DEPTH && head < |a| && tail < |a| && After(tail) == head
    ensures |Between(a, head, tail)| == EVENT_QUEUE_DEPTH - 1
    ensures Between(a[tail := event], After(head), After(tail)) == Between(a, head, tail)[1..] + [event]
  {
  }

  lemma Queued(a: seq<ControlEvent>, head: nat, tail: nat, event: ControlEvent)
    requires |a| == EVENT_QUEUE_DEPTH && head < |a| && tail < |a|
    ensures var next := (tail + 1) % |a|;
      var newHead := if next == head then (head + 1) % |a| else head;
      Between(a[tail := event], newHead, next) == Newest(Between(a, head, tail) + [event], EVENT_QUEUE_DEPTH - 1)
  {
    assert (tail + 1) % |a| == After(tail) && (head + 1) % |a| == After(head);
    hide Between, After;
    if After(tail) == head {
      QueuedWhenFull(a, head, tail, event);
      assert (Between(a, head, tail) + [event])[1..] == Between(a, head, tail)[1..] + [event];
    } else {
      QueuedWithRoom(a, head, tail, event);
    }
  }

  lemma Unqueued(a: seq<ControlEvent>, head: nat, tail: nat)
    requires |a| == EVENT_QUEUE_DEPTH && head < |a| && tail < |a|
    ensures Between(a, head, tail) == [] <==> head == tail
    ensures head != tail ==> Between(a, head, tail)[0] == a[head]
    ensures head != tail ==> Between(a, (head + 1) % |a|, tail) == Between(a, head, tail)[1..]
  {
    assert (head + 1) % |a| == if head == 15 then 0 else head + 1;
  }

  lemma RingIsPow2()
    ensures Bits.IsPow2(RING_BYTES)
  {
    assert Bits.Pow2(5) == 32;
    assert Bits.Pow2(10) == 1024;
    assert Bits.Pow2(15) == RING_BYTES;
  }
}
