/**
 What one device context of the driver does, one whole call at a time: audio
 goes through the ring into user requests, control events into theirs. The
 interleaving of calls is the subject of IrpMachine.

 Fields marked "auxiliary" are history.
 */
module IoctlModel {
  import opened Common
  import opened BoundedQueue
  import opened Packets

  const RING_BYTES: nat := 32768
  const EVENT_QUEUE_DEPTH: nat := 16
  const CONTROL_EVENT_BYTES: nat := 24
  const EVENT_STREAM_START := 3
  const EVENT_STREAM_STOP := 4

  datatype ControlEvent = ControlEvent(eventType: nat, data: int)

  // A GET_AUDIO_PACKET request: its buffer as the user left it, whether an MDL
  // describes it, and whether that can be mapped when the request arrives and
  // when it is served.
  datatype AudioRequest = AudioRequest(
    id: nat, file: nat, before: seq<Byte>, mdl: bool, mapped: bool, stillMapped: bool)

  // The request when it is completed: `information` bytes of `buffer` go back.
  datatype AudioDone = AudioDone(id: nat, status: Status, information: nat, buffer: seq<Byte>)

  // A GET_CONTROL_EVENT request; `buffer` is false when it has no system buffer.
  datatype EventRequest = EventRequest(id: nat, file: nat, length: nat, buffer: bool)

  datatype EventDone = EventDone(id: nat, status: Status, event: Option<ControlEvent>)

  datatype Dev = Dev(
    ring: Queue<Byte>,             // the ring; auxiliary: what left it since the last stream start
    fed: seq<Byte>,                // auxiliary: the PCM produced since the last stream start
    audio: seq<AudioRequest>,      // AudioIrpList
    audioDone: seq<AudioDone>,
    since: nat,                    // auxiliary: |audioDone| at the last stream start
    started: bool,                 // auxiliary: there was a stream start
    position: nat,                 // StreamPositionFrames, a UINT64
    restart: bool,                 // PendingStreamRestart
    events: Queue<ControlEvent>,   // EventQueue; auxiliary: the events handed out
    posted: seq<ControlEvent>,     // auxiliary: all events posted
    waiting: seq<EventRequest>,    // EventIrpList
    eventDone: seq<EventDone>,
    closing: bool,
    issued: multiset<nat>)         // auxiliary: the ids of all audio requests

  const FRESH := Dev(Empty<Byte>(), [], [], [], 0, false, 0, false, Empty<ControlEvent>(), [], [], [], false,
    multiset{})

  // Every queued request has room for a header and a frame.
  predicate Admitted(audio: seq<AudioRequest>) {
    forall k :: 0 <= k < |audio| ==> |audio[k].before| >= HEADER_BYTES + FRAME_BYTES
  }

  // ----- audio -----

  function PcmCap(length: nat): (cap: nat)
    requires length >= HEADER_BYTES + FRAME_BYTES
    ensures FRAME_BYTES <= cap <= MAX_PACKET_BYTES && cap % FRAME_BYTES == 0 && HEADER_BYTES + cap <= length
  {
    var cap := if length - HEADER_BYTES > MAX_PACKET_BYTES then MAX_PACKET_BYTES else length - HEADER_BYTES;
    cap - cap % FRAME_BYTES
  }

  function FinishAudio(d: Dev, r: AudioRequest, status: Status): Dev {
    d.(audioDone := d.audioDone + [AudioDone(r.id, status, 0, r.before)])
  }

  // The first queued request is served. clock(k) is the performance counter
  // when the k-th request is completed.
  function Serve(d: Dev, clock: nat -> nat): Dev
    requires Admitted(d.audio) && d.audio != [] && d.ring.items != []
  {
    var r := d.audio[0];
    var e := d.(audio := d.audio[1..]);
    if !r.stillMapped then FinishAudio(e, r, InsufficientResources)
    else
      var cap := PcmCap(|r.before|);
      var pcm := d.ring.items[..Taken(d.ring.items, cap)];
      var h := PacketHeader(pcm, d.restart, clock(|d.audioDone|), d.position);
      e.(ring := Step(RING_BYTES, d.ring, Read(cap)),
         restart := false,
         audioDone := d.audioDone + [AudioDone(r.id, Success, HEADER_BYTES + |pcm|, Filled(r.before, h, pcm))])
  }

  // IoctlTryCompleteAudio
  function Deliver(d: Dev, clock: nat -> nat): Dev
    requires Admitted(d.audio)
    decreases |d.audio|
  {
    if |d.ring.items| < FRAME_BYTES || d.audio == [] then d else Deliver(Serve(d, clock), clock)
  }

  // IoctlAudioProduce
  function Produce(d: Dev, pcm: seq<Byte>, clock: nat -> nat): Dev
    requires Admitted(d.audio)
  {
    if pcm == [] then d
    else
      Deliver(d.(ring := Step(RING_BYTES, d.ring, Write(pcm)), fed := d.fed + pcm,
                 position := (d.position + |pcm| / FRAME_BYTES) % U64), clock)
  }

  // Ioctl_HandleGetAudio
  function GetAudio(d: Dev, r: AudioRequest, clock: nat -> nat): Dev
    requires Admitted(d.audio)
  {
    var e := d.(issued := d.issued + multiset{r.id});
    if |r.before| < HEADER_BYTES + FRAME_BYTES then FinishAudio(e, r, BufferTooSmall)
    else if !r.mdl then FinishAudio(e, r, InvalidParameter)
    else if !r.mapped then FinishAudio(e, r, InsufficientResources)
    else if d.closing then FinishAudio(e, r, NotReady)
    else Deliver(e.(audio := d.audio + [r]), clock)
  }

  function FinishAllAudio(d: Dev, status: Status): Dev
    decreases |d.audio|
  {
    if d.audio == [] then d
    else FinishAllAudio(FinishAudio(d.(audio := d.audio[1..]), d.audio[0], status), status)
  }

  // ----- control events -----

  function FinishEvent(d: Dev, r: EventRequest, status: Status, event: Option<ControlEvent>): Dev {
    d.(eventDone := d.eventDone + [EventDone(r.id, status, event)])
  }

  // IoctlPostEvent
  function Post(d: Dev, event: ControlEvent): Dev {
    var e := d.(posted := d.posted + [event]);
    if d.waiting != [] then
      var r, f := d.waiting[0], e.(waiting := d.waiting[1..]);
      if r.buffer && r.length >= CONTROL_EVENT_BYTES then
        FinishEvent(f.(events := d.events.(out := d.events.out + [event])), r, Success, Some(event))
      else
        FinishEvent(f.(events := d.events.(lost := d.events.lost + 1)), r, BufferTooSmall, None)
    else e.(events := Step(EVENT_QUEUE_DEPTH - 1, d.events, Write([event])))
  }

  // Ioctl_HandleGetEvent
  function GetEvent(d: Dev, r: EventRequest): Dev {
    if r.length < CONTROL_EVENT_BYTES then FinishEvent(d, r, BufferTooSmall, None)
    else if d.events.items != [] then
      if r.buffer then
        FinishEvent(d.(events := Step(EVENT_QUEUE_DEPTH - 1, d.events, Read(1))), r, Success, Some(d.events.items[0]))
      else
        FinishEvent(d.(events := d.events.(items := d.events.items[1..], lost := d.events.lost + 1)), r,
          InvalidParameter, None)
    else if d.closing then FinishEvent(d, r, NotReady, None)
    else d.(waiting := d.waiting + [r])
  }

  function FinishAllEvents(d: Dev, status: Status): Dev
    decreases |d.waiting|
  {
    if d.waiting == [] then d
    else FinishAllEvents(FinishEvent(d.(waiting := d.waiting[1..]), d.waiting[0], status, None), status)
  }

  // ----- stream and handle lifecycle -----

  // IoctlOnStreamStart
  function OnStreamStart(d: Dev): Dev {
    Post(d.(ring := Empty(), fed := [], since := |d.audioDone|, started := true, position := 0, restart := true),
         ControlEvent(EVENT_STREAM_START, 0))
  }

  // IoctlOnStreamStop
  function OnStreamStop(d: Dev): Dev {
    Post(FinishAllAudio(d, Success), ControlEvent(EVENT_STREAM_STOP, 0))
  }

  // IoctlBeginClose
  function BeginClose(d: Dev): Dev {
    FinishAllEvents(FinishAllAudio(d.(closing := true), Cancelled), Cancelled)
  }

  // The cancel routine of the audio request at place k of the list.
  function CancelAudio(d: Dev, k: nat): Dev
    requires k < |d.audio|
  {
    FinishAudio(d.(audio := d.audio[..k] + d.audio[k + 1..]), d.audio[k], Cancelled)
  }

  function CancelEvent(d: Dev, k: nat): Dev
    requires k < |d.waiting|
  {
    FinishEvent(d.(waiting := d.waiting[..k] + d.waiting[k + 1..]), d.waiting[k], Cancelled, None)
  }

  // IoctlCancelFileIrps: the requests of one handle, from place k of each list on.
  function CancelFileAudio(d: Dev, k: nat, file: nat): Dev
    requires k <= |d.audio|
    decreases |d.audio| - k
  {
    if k == |d.audio| then d
    else if d.audio[k].file == file then CancelFileAudio(CancelAudio(d, k), k, file)
    else CancelFileAudio(d, k + 1, file)
  }

  function CancelFileEvents(d: Dev, k: nat, file: nat): Dev
    requires k <= |d.waiting|
    decreases |d.waiting| - k
  {
    if k == |d.waiting| then d
    else if d.waiting[k].file == file then CancelFileEvents(CancelEvent(d, k), k, file)
    else CancelFileEvents(d, k + 1, file)
  }

  function CancelFile(d: Dev, file: nat): Dev {
    CancelFileEvents(CancelFileAudio(d, 0, file), 0, file)
  }

  // ----- runs -----

  datatype Call =
    | AudioProduce(pcm: seq<Byte>, clock: nat -> nat)
    | HandleGetAudio(audio: AudioRequest, clock: nat -> nat)
    | PostEvent(event: ControlEvent)
    | HandleGetEvent(request: EventRequest)
    | StreamStart
    | StreamStop
    | Close
    | CancelledAudio(k: nat)
    | CancelledEvent(k: nat)
    | FileClosed(file: nat)

  // The WaveRT side hands over whole frames; only a queued request is cancelled.
  predicate Possible(d: Dev, call: Call) {
    match call
    case AudioProduce(pcm, _) => |pcm| % FRAME_BYTES == 0
    case CancelledAudio(k) => k < |d.audio|
    case CancelledEvent(k) => k < |d.waiting|
    case _ => true
  }

  function Apply(d: Dev, call: Call): Dev
    requires Admitted(d.audio) && Possible(d, call)
  {
    match call
    case AudioProduce(pcm, clock) => Produce(d, pcm, clock)
    case HandleGetAudio(r, clock) => GetAudio(d, r, clock)
    case PostEvent(e) => Post(d, e)
    case HandleGetEvent(r) => GetEvent(d, r)
    case StreamStart => OnStreamStart(d)
    case StreamStop => OnStreamStop(d)
    case Close => BeginClose(d)
    case CancelledAudio(k) => CancelAudio(d, k)
    case CancelledEvent(k) => CancelEvent(d, k)
    case FileClosed(file) => CancelFile(d, file)
  }

  ghost predicate Leads(d: Dev, calls: seq<Call>, d': Dev)
    decreases |calls|
  {
    if calls == [] then d' == d
    else Admitted(d.audio) && Possible(d, calls[0]) && Leads(Apply(d, calls[0]), calls[1..], d')
  }

  // ----- the invariant -----

  // The samples that the service gets out of the completed requests.
  function HeardOne(c: AudioDone): seq<int> {
    if c.status != Success || c.information == 0 || c.information > |c.buffer| then []
    else
      match Receive(c.buffer, c.information)
      case Ok(p) => p.samples
      case Err(_) => []
  }

  function Heard(done: seq<AudioDone>): seq<int> {
    if done == [] then [] else Heard(done[..|done| - 1]) + HeardOne(done[|done| - 1])
  }

  // The service accepts every request that succeeded.
  predicate Readable(c: AudioDone) {
    c.status == Success ==> c.information <= |c.buffer| && Receive(c.buffer, c.information).Ok?
  }

  function Ids(audio: seq<AudioRequest>): multiset<nat> {
    if audio == [] then multiset{} else multiset{audio[0].id} + Ids(audio[1..])
  }

  function DoneIds(done: seq<AudioDone>): multiset<nat> {
    if done == [] then multiset{} else DoneIds(done[..|done| - 1]) + multiset{done[|done| - 1].id}
  }

  // The ring: whole frames, and every byte fed is read, overwritten or still there.
  ghost predicate RingOk(d: Dev) {
    && |d.ring.items| <= RING_BYTES
    && |d.ring.items| % FRAME_BYTES == 0 && |d.ring.out| % FRAME_BYTES == 0 && |d.fed| % FRAME_BYTES == 0
    && |d.ring.out| + |d.ring.items| + d.ring.lost == |d.fed|
    && d.position == |d.fed| / FRAME_BYTES % U64
    && Thinned(d.ring.out + d.ring.items, d.fed)
    && (d.restart ==> d.started)
    && (d.started ==> (d.restart <==> d.ring.out == []))
  }

  // The completed requests: each readable, and what is heard is what left the ring.
  predicate DoneOk(d: Dev) {
    && Admitted(d.audio)
    && d.since <= |d.audioDone|
    && (forall k :: 0 <= k < |d.audioDone| ==> Readable(d.audioDone[k]))
    && Heard(d.audioDone[d.since..]) == Samples(d.ring.out)
    && Ids(d.audio) + DoneIds(d.audioDone) == d.issued
  }

  // No frame waits beside a request.
  predicate Quiet(d: Dev) {
    |d.ring.items| < FRAME_BYTES || d.audio == []
  }

  ghost predicate EventsOk(d: Dev) {
    && (d.events.items == [] || d.waiting == [])
    && |d.events.items| < EVENT_QUEUE_DEPTH
    && |d.events.out| + |d.events.items| + d.events.lost == |d.posted|
    && Thinned(d.events.out + d.events.items, d.posted)
  }

  ghost predicate Inv(d: Dev) {
    && RingOk(d) && DoneOk(d) && Quiet(d) && EventsOk(d)
    && (d.closing ==> d.audio == [] && d.waiting == [])
  }
}
