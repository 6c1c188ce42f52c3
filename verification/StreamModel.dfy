/** The state of one pipeline (a readable request stream, up to eight writable request streams and
    the buffers pool they share) as a value, and each operation of the library as a function on it.

    The classes of module AsyncStreams do the same work in place and are proved to agree with these
    functions; module StreamProofs proves what the library promises about them. */
module StreamModel {

  import opened Wrappers

  type Bytes = string
  type ID = nat

  const MAX_SINKS := 8
  const NUM_SLOTS := 16 // MaxTransforms + MaxSinks

  datatype ReadState =
    | Stopped | CanRead | Reading | SyncPushing | SyncReadMore | AsyncReading | AsyncPushing
    | Pausing | Paused | Ended | Destroying | Errored

  datatype WriteState = Stopped | Writing | Ending | Ended | Destroying | Errored

  datatype RequestState = Free | Active | Cancelling

  /** The release assertions of the code; `Sys.failed` collects those that did not hold. */
  datatype Assertion =
    | UnrefOfFreeBuffer | PendingSlot | RequestInUse | NotWriting | FinishListener | NoSource | NotDestroying

  /** A writable, reusable pool entry: its memory, the readable prefix of it and its reference count. */
  datatype Buffer = Buffer(refs: int, store: Bytes, length: nat)

  datatype Source = Source(
    state: ReadState, destroyed: bool, autoDestroy: bool,
    queue: seq<ID>, capacity: nat,
    request: RequestState, bufferID: Option<ID>)

  /** `listening` says that afterSinkEnd is registered on eventFinish. */
  datatype Sink = Sink(
    state: WriteState, destroyed: bool, autoDestroy: bool,
    queue: seq<ID>, capacity: nat,
    writing: Option<ID>, listening: bool)

  datatype PendingWrite = PendingWrite(sink: nat, buffer: ID)

  /** The last three are history variables: the bytes of every buffer that push has queued, of every
      buffer that dispatchToPipes has handed to the sinks, and of every write each sink has completed.
      `piped` is true while the pipeline listens to the events of its source. */
  datatype Sys = Sys(
    buffers: seq<Buffer>,
    source: Source,
    sinks: seq<Sink>,
    slots: seq<Option<PendingWrite>>,
    shouldEndWhenDrained: bool, endingPipes: bool, piped: bool,
    failed: set<Assertion>,
    accepted: seq<Bytes>, dispatched: seq<Bytes>, written: seq<seq<Bytes>>)

  /** No operation adds or removes a buffer or a sink, or resizes the read queue. */
  predicate SameShape(s: Sys, r: Sys)
  {
    && |r.buffers| == |s.buffers| && |r.sinks| == |s.sinks| && |r.written| == |s.written|
    && r.source.capacity == s.source.capacity
  }

  /** What only push and the completion of a write may change. */
  predicate Steady(s: Sys, r: Sys)
  {
    r.accepted == s.accepted && r.written == s.written && SameShape(s, r)
  }

  function Check(s: Sys, condition: bool, assertion: Assertion): (r: Sys)
    ensures r == s.(failed := r.failed)
  {
    if condition then s else s.(failed := s.failed + {assertion})
  }

  // ------------------------------------------------------------------ AsyncBuffersPool

  /** The bytes a reader of the buffer sees. */
  function Content(buffers: seq<Buffer>, b: ID): Bytes
  {
    if b < |buffers| && buffers[b].length <= |buffers[b].store| then buffers[b].store[..buffers[b].length] else []
  }

  function Ref(s: Sys, b: ID): (r: Sys)
    ensures r == s.(buffers := r.buffers) && |r.buffers| == |s.buffers|
  {
    if b < |s.buffers| then s.(buffers := s.buffers[b := s.buffers[b].(refs := s.buffers[b].refs + 1)]) else s
  }

  /** A reusable buffer whose count reaches zero gets its full length back. */
  function Unref(s: Sys, b: ID): (r: Sys)
    ensures r == s.(buffers := r.buffers, failed := r.failed) && |r.buffers| == |s.buffers|
  {
    if b < |s.buffers| && s.buffers[b].refs != 0 then
      var buffer := s.buffers[b];
      s.(buffers := s.buffers[b := buffer.(refs := buffer.refs - 1,
                                           length := if buffer.refs == 1 then |buffer.store| else buffer.length)])
    else
      Check(s, false, UnrefOfFreeBuffer)
  }

  /** The first buffer nobody holds. */
  function FirstFree(buffers: seq<Buffer>, from: nat := 0): (r: Option<ID>)
    ensures r.Some? ==> from <= r.value < |buffers| && buffers[r.value].refs == 0
    ensures forall b :: from <= b < |buffers| && (r.Some? ==> b < r.value) ==> buffers[b].refs != 0
    decreases |buffers| - from
  {
    if from >= |buffers| then None
    else if buffers[from].refs == 0 then Some(from)
    else FirstFree(buffers, from + 1)
  }

  /** requestNewBuffer(0): takes the first free buffer with one reference and its full length. */
  function Request(s: Sys, b: ID): Sys
    requires b < |s.buffers|
  {
    s.(buffers := s.buffers[b := Buffer(1, s.buffers[b].store, |s.buffers[b].store|)])
  }

  /** The kernel (or any producer) stores bytes at the start of the buffer. */
  function Fill(s: Sys, b: ID, data: Bytes): (r: Sys)
    ensures r == s.(buffers := r.buffers) && |r.buffers| == |s.buffers|
  {
    if b < |s.buffers| && |data| <= |s.buffers[b].store| then
      s.(buffers := s.buffers[b := s.buffers[b].(store := data + s.buffers[b].store[|data|..])])
    else s
  }

  function SetSize(s: Sys, b: ID, size: nat): (r: Sys)
    ensures r == s.(buffers := r.buffers) && |r.buffers| == |s.buffers|
  {
    if b < |s.buffers| && size <= |s.buffers[b].store| then
      s.(buffers := s.buffers[b := s.buffers[b].(length := size)])
    else s
  }

  // ------------------------------------------------------------------ AsyncWritableStream

  predicate StillWriting(k: Sink)
  {
    k.state == Writing || k.state == Ending
  }

  predicate CanAcceptWrite(k: Sink)
  {
    (k.state == WriteState.Stopped || k.state == Writing) && |k.queue| < k.capacity
  }

  function SetSink(s: Sys, i: nat, k: Sink): Sys
    requires i < |s.sinks|
  {
    s.(sinks := s.sinks[i := k])
  }

  /** AsyncRequestWritableStream::asyncWrite with a request that starts; `k` is the sink at that moment. */
  function AsyncWrite(s: Sys, i: nat, k: Sink, b: ID): (r: Sys)
    requires i < |s.sinks|
    ensures r == s.(buffers := r.buffers, sinks := r.sinks) && Steady(s, r)
  {
    Ref(SetSink(s, i, k.(writing := Some(b))), b)
  }

  /** Starts the write at the front of the queue: the queue's reference is dropped once asyncWrite holds its own. */
  function StartFront(s: Sys, i: nat, k: Sink): (r: Sys)
    requires i < |s.sinks| && k.queue != []
    ensures r == s.(buffers := r.buffers, sinks := r.sinks, failed := r.failed) && Steady(s, r)
  {
    Unref(AsyncWrite(s, i, k.(queue := k.queue[1..]), k.queue[0]), k.queue[0])
  }

  function ResumeWriting(s: Sys, i: nat, k: Sink): (r: Sys)
    requires i < |s.sinks|
    ensures r == s.(buffers := r.buffers, sinks := r.sinks, failed := r.failed) && Steady(s, r)
  {
    match k.state
    case Stopped =>
      if k.queue == [] then SetSink(s, i, k) else StartFront(s, i, k.(state := Writing))
    case Ending =>
      if k.writing.None? then AutoDestroySink(SetSink(s, i, k.(state := WriteState.Ended)), i) else SetSink(s, i, k)
    case _ => SetSink(s, i, k)
  }

  function Write(s: Sys, i: nat, b: ID): (r: (Sys, bool))
    requires i < |s.sinks|
    ensures r.0 == s.(buffers := r.0.buffers, sinks := r.0.sinks, failed := r.0.failed) && Steady(s, r.0)
  {
    var k := s.sinks[i];
    if k.state == WriteState.Ended || k.state == Ending || |k.queue| >= k.capacity then (s, false)
    else (ResumeWriting(Ref(s, b), i, k.(queue := k.queue + [b])), true)
  }

  function UnrefAll(s: Sys, ids: seq<ID>): (r: Sys)
    ensures r == s.(buffers := r.buffers, failed := r.failed) && |r.buffers| == |s.buffers|
    decreases |ids|
  {
    if ids == [] then s else UnrefAll(Unref(s, ids[0]), ids[1..])
  }

  /** AsyncWritableStream::destroy. With a free request the destruction finishes at once. */
  function DestroySink(s: Sys, i: nat): (r: Sys)
    requires i < |s.sinks|
    ensures r == s.(buffers := r.buffers, sinks := r.sinks, failed := r.failed) && Steady(s, r)
  {
    var k := s.sinks[i];
    var s1 := UnrefAll(s.(sinks := s.sinks[i := k.(queue := [])]), k.queue);
    if k.state == WriteState.Destroying || k.state == WriteState.Errored then s1
    else if k.writing.None? then
      s1.(sinks := s1.sinks[i := s1.sinks[i].(state := WriteState.Ended, destroyed := true)])
    else
      s1.(sinks := s1.sinks[i := s1.sinks[i].(state := WriteState.Destroying)])
  }

  function AutoDestroySink(s: Sys, i: nat): (r: Sys)
    requires i < |s.sinks|
    ensures r == s.(buffers := r.buffers, sinks := r.sinks, failed := r.failed) && Steady(s, r)
  {
    if s.sinks[i].autoDestroy then DestroySink(s, i) else s
  }

  /** eventFinish, then the automatic destroy. */
  function Finish(s: Sys, i: nat): (r: Sys)
    requires i < |s.sinks|
    ensures Steady(s, r)
  {
    AutoDestroySink(if s.sinks[i].listening then AfterSinkEnd(s) else s, i)
  }

  /** AsyncWritableStream::end. */
  function EndSink(s: Sys, i: nat): (r: Sys)
    requires i < |s.sinks|
    ensures Steady(s, r)
  {
    var k := s.sinks[i];
    match k.state
    case Stopped =>
      if k.writing.None? then Finish(s.(sinks := s.sinks[i := k.(state := WriteState.Ended)]), i)
      else s.(sinks := s.sinks[i := k.(state := Ending)])
    case Writing => s.(sinks := s.sinks[i := k.(state := Ending)])
    case _ => s
  }

  // ------------------------------------------------------------------ AsyncReadableStream

  /** A source that is none of these answers with an error and keeps its state. */
  function Pause(s: Sys): Sys
  {
    match s.source.state
    case Reading | AsyncReading | SyncPushing | AsyncPushing => s.(source := s.source.(state := Pausing))
    case _ => s
  }

  function Unshift(s: Sys, b: ID): Sys
  {
    if |s.source.queue| < s.source.capacity then
      Ref(s.(source := s.source.(queue := [b] + s.source.queue)), b)
    else s
  }

  /** The states in which the stream runs emitOnData. */
  predicate Emitting(state: ReadState)
  {
    || state == Reading || state == SyncPushing || state == AsyncReading || state == AsyncPushing
    || state == Pausing || state == ReadState.Ended
  }

  /** The loop of emitOnData. */
  function EmitLoop(s: Sys): (r: Sys)
    requires Emitting(s.source.state)
    ensures Steady(s, r)
    ensures Emitting(r.source.state) && (s.source.state == ReadState.Ended <==> r.source.state == ReadState.Ended)
    ensures r.source == s.source.(state := r.source.state, queue := r.source.queue)
    decreases |s.source.queue|
  {
    if s.source.queue == [] then s
    else
      var b := s.source.queue[0];
      var s1 := Unref(Dispatch(s.(source := s.source.(queue := s.source.queue[1..])), b), b);
      if s1.source.state == Pausing || s1.source.state == Paused ||
          (s1.source.state == ReadState.Ended && s1.source.queue != [])
      then s1 else EmitLoop(s1)
  }

  function EmitOnData(s: Sys): (r: Sys)
    requires Emitting(s.source.state)
    ensures Steady(s, r)
    decreases if s.source.destroyed then 0 else 1, 3
  {
    MaybeDestroyEnded(EmitLoop(s))
  }

  function MaybeDestroyEnded(s: Sys): (r: Sys)
    ensures Steady(s, r)
    decreases if s.source.destroyed then 0 else 1, 2
  {
    if s.source.state == ReadState.Ended && s.source.autoDestroy && !s.source.destroyed && s.source.queue == []
    then DestroySource(s) else s
  }

  /** AsyncReadableStream::destroy with AsyncRequestReadableStream::asyncDestroyReadable. */
  function DestroySource(s: Sys): (r: Sys)
    requires !s.source.destroyed
    ensures Steady(s, r)
    decreases if s.source.destroyed then 0 else 1, 1
  {
    var s1 := UnrefAll(s.(source := s.source.(queue := [])), s.source.queue);
    if s.source.state == ReadState.Destroying || s.source.state == ReadState.Errored then s1
    else
      var s2 := s1.(source := s1.source.(state := ReadState.Destroying));
      if s2.source.request == Free then FinalizeDestruction(s2)
      else s2.(source := s2.source.(request := Cancelling))
  }

  /** finalizeReadableDestruction: drop the buffer of the read, then emit eventClose. */
  function FinalizeDestruction(s: Sys): (r: Sys)
    requires !s.source.destroyed
    ensures Steady(s, r)
    decreases if s.source.destroyed then 0 else 1, 0
  {
    var s1 := ReleaseBufferID(s);
    if s1.source.state != ReadState.Destroying then Check(s1, false, NotDestroying)
    else
      var s2 := s1.(source := s1.source.(state := ReadState.Ended, destroyed := true, request := Free));
      if s2.piped then EndPipes(s2) else s2
  }

  function ReleaseBufferID(s: Sys): (r: Sys)
    ensures r.source == s.source.(bufferID := None) && Steady(s, r)
  {
    match s.source.bufferID
    case None => s
    case Some(b) => Unref(s.(source := s.source.(bufferID := None)), b)
  }

  /** AsyncRequestReadableStream::asyncRead with a request that starts. */
  function AsyncRead(s: Sys): (r: Sys)
    ensures Steady(s, r)
  {
    var s1 := Check(s, s.source.request == Free, RequestInUse);
    match FirstFree(s1.buffers)
    case None => Pause(s1)
    case Some(b) => Request(s1, b).(source := s1.source.(bufferID := Some(b), request := Active))
  }

  /** executeRead: this asyncRead never pushes synchronously, so its loop runs at most once. */
  function ExecuteRead(s: Sys): (r: Sys)
    ensures Steady(s, r)
    decreases if s.source.destroyed then 0 else 1, 4
  {
    var s1 := s.(source := s.source.(state := Reading));
    var s2 := if s1.source.queue != [] then EmitOnData(s1) else s1;
    if s2.source.state == Reading then
      var s3 := AsyncRead(s2);
      if s3.source.state == Reading then s3.(source := s3.source.(state := AsyncReading)) else s3
    else s2
  }

  function ResumeReading(s: Sys): (r: Sys)
    ensures Steady(s, r)
    decreases if s.source.destroyed then 0 else 1, 5
  {
    match s.source.state
    case Pausing | Paused | CanRead => ExecuteRead(s)
    case Ended => if s.source.queue != [] then EmitOnData(s) else MaybeDestroyEnded(s)
    case _ => s
  }

  function PushEnd(s: Sys): (r: Sys)
    ensures Steady(s, r)
  {
    if !(s.source.state in {ReadState.Stopped, ReadState.Ended, ReadState.Destroying, ReadState.Errored}) then
      var s1 := s.(source := s.source.(state := ReadState.Ended));
      MaybeDestroyEnded(if s1.piped then EndPipes(s1) else s1)
    else s
  }

  function Push(s: Sys, b: ID, size: nat): (r: (Sys, bool))
    ensures SameShape(s, r.0)
  {
    if size == 0 then (s, false)
    else
      var s1 := SetSize(s, b, size);
      if |s1.source.queue| >= s1.source.capacity then (s1.(source := s1.source.(state := ReadState.Errored)), false)
      else
        var s2 := Ref(s1.(source := s1.source.(queue := s1.source.queue + [b])), b);
        var s3 := PushQueued(s2.(accepted := s2.accepted + [Content(s2.buffers, b)]));
        (s3, s3.source.state == AsyncPushing || s3.source.state == SyncPushing)
  }

  /** The second half of push: what happens to the queue in each state. */
  function PushQueued(s: Sys): (r: Sys)
    ensures Steady(s, r)
  {
    match s.source.state
    case SyncPushing | Reading =>
      var s1 := EmitOnData(s);
      s1.(source := s1.source.(state := SyncPushing))
    case AsyncPushing | AsyncReading =>
      var s1 := EmitOnData(s);
      if s1.source.state == AsyncReading then s1.(source := s1.source.(state := AsyncPushing)) else s1
    case Pausing => EmitOnData(s)
    case _ => s
  }

  // ------------------------------------------------------------------ AsyncPipeline

  predicate HasPendingWrites(s: Sys)
  {
    exists j :: 0 <= j < |s.slots| && s.slots[j].Some?
  }

  /** findPendingWrite: the slot of this sink, or else the first empty one. */
  function FindSlot(slots: seq<Option<PendingWrite>>, i: nat, from: nat := 0, empty: Option<nat> := None): Option<nat>
    decreases |slots| - from
  {
    if from >= |slots| then empty
    else match slots[from]
      case Some(p) => if p.sink == i then Some(from) else FindSlot(slots, i, from + 1, empty)
      case None => FindSlot(slots, i, from + 1, if empty.None? then Some(from) else empty)
  }

  /** The write waits in a slot until its sink has room; the first one to wait pauses the source. */
  function Postpone(s: Sys, b: ID, i: nat): (r: Sys)
    requires i < |s.sinks|
    ensures Steady(s, r)
    ensures r.source == s.source || r.source == Pause(s).source
  {
    match FindSlot(s.slots, i)
    case None => Check(s, false, PendingSlot)
    case Some(j) =>
      if j >= |s.slots| || s.slots[j].Some? then Check(s, false, PendingSlot)
      else
        var s1 := s.(slots := s.slots[j := Some(PendingWrite(i, b))]);
        if HasPendingWrites(s) then s1 else Pause(s1)
  }

  function AsyncWriteWritable(s: Sys, b: ID, i: nat): (r: Sys)
    requires i < |s.sinks|
    ensures Steady(s, r)
    ensures r.source == s.source || r.source == Pause(s).source
  {
    var s1 := Ref(s, b);
    if !CanAcceptWrite(s1.sinks[i]) then Postpone(s1, b, i)
    else
      var (s2, ok) := Write(s1, i, b);
      if ok then s2 else Unref(s2, b)
  }

  function DispatchFrom(s: Sys, b: ID, i: nat): (r: Sys)
    requires i <= |s.sinks|
    ensures Steady(s, r)
    ensures r.source == s.source || r.source == Pause(s).source
    decreases |s.sinks| - i
  {
    if i == |s.sinks| then s else DispatchFrom(AsyncWriteWritable(s, b, i), b, i + 1)
  }

  /** eventData: dispatchToPipes while the pipeline listens, nothing otherwise. */
  function Dispatch(s: Sys, b: ID): (r: Sys)
    ensures Steady(s, r)
    ensures r.source == s.source.(state := r.source.state, queue := r.source.queue)
    ensures r.source.state == s.source.state || r.source.state == Pause(s).source.state
    ensures r.source.queue == s.source.queue ||
            (r.source.queue == [b] + s.source.queue && r.source.state == Pause(s).source.state)
  {
    if !s.piped then s
    else if HasPendingWrites(s) then Unshift(Pause(s), b)
    else DispatchFrom(s.(dispatched := s.dispatched + [Content(s.buffers, b)]), b, 0)
  }

  /** retryPendingWrites, from slot j on. */
  function Retry(s: Sys, j: nat): (r: Sys)
    ensures Steady(s, r)
    ensures |r.slots| == |s.slots| && r.source == s.source
    decreases |s.slots| - j
  {
    if j >= |s.slots| then s
    else match s.slots[j]
      case None => Retry(s, j + 1)
      case Some(p) =>
        if p.sink >= |s.sinks| || !CanAcceptWrite(s.sinks[p.sink]) then Retry(s, j + 1)
        else
          var (s1, ok) := Write(s, p.sink, p.buffer);
          var s2 := if ok then s1 else Unref(s1, p.buffer);
          Retry(s2.(slots := s2.slots[j := None]), j + 1)
  }

  /** The callback of each write the pipeline has made. */
  function AfterWrite(s: Sys, b: ID): (r: Sys)
    ensures Steady(s, r)
  {
    var s1 := Retry(Unref(Check(s, s.piped, NoSource), b), 0);
    if HasPendingWrites(s1) then s1
    else if s1.shouldEndWhenDrained then
      if s1.source.queue != [] then ResumeReading(s1)
      else EndPipes(s1.(shouldEndWhenDrained := false))
    else ResumeReading(s1)
  }

  function EndPipes(s: Sys): (r: Sys)
    ensures Steady(s, r)
    decreases if s.source.destroyed then 0 else 1, 6
  {
    if s.endingPipes then s
    else if HasPendingWrites(s) || s.source.queue != [] then
      var s1 := s.(shouldEndWhenDrained := true);
      if !HasPendingWrites(s1) then ResumeReading(s1) else s1
    else
      var (s1, allEnded) := EndSinks(s.(endingPipes := true), 0);
      if allEnded then Unpipe(s1) else s1
  }

  /** The loop of endPipes over the sinks; the flag says that none was still writing. */
  function EndSinks(s: Sys, i: nat): (r: (Sys, bool))
    requires i <= |s.sinks|
    ensures Steady(s, r.0)
    decreases |s.sinks| - i
  {
    if i == |s.sinks| then (s, true)
    else
      var k := s.sinks[i];
      var s1 := if StillWriting(k) then s.(sinks := s.sinks[i := k.(listening := true)]) else s;
      var (s2, rest) := EndSinks(EndSink(s1, i), i + 1);
      (s2, rest && !StillWriting(k))
  }

  /** The listener of eventFinish: removeListener on a sink without one is a failed assertion. */
  function AfterSinkEnd(s: Sys): (r: Sys)
    ensures Steady(s, r)
  {
    if !s.piped then s
    else
      var s1 := RemoveListeners(s, 0);
      if exists i :: 0 <= i < |s.sinks| && StillWriting(s.sinks[i]) then s1 else Unpipe(s1)
  }

  function RemoveListeners(s: Sys, i: nat): (r: Sys)
    requires i <= |s.sinks|
    ensures Steady(s, r)
    decreases |s.sinks| - i
  {
    if i == |s.sinks| then s
    else
      var k := s.sinks[i];
      if StillWriting(k) then RemoveListeners(s, i + 1)
      else RemoveListeners(Check(s.(sinks := s.sinks[i := k.(listening := false)]), k.listening, FinishListener), i + 1)
  }

  /** unpipe: releases the pending writes and stops listening to the source. */
  function Unpipe(s: Sys): (r: Sys)
    ensures Steady(s, r)
    ensures r.sinks == s.sinks && r.source == s.source
  {
    ReleaseSlots(s, 0).(shouldEndWhenDrained := false, endingPipes := false, piped := false)
  }

  function ReleaseSlots(s: Sys, j: nat): (r: Sys)
    ensures Steady(s, r)
    ensures r.sinks == s.sinks && r.source == s.source
    decreases |s.slots| - j
  {
    if j >= |s.slots| then s
    else match s.slots[j]
      case None => ReleaseSlots(s, j + 1)
      case Some(p) =>
        var s1 := Unref(s, p.buffer);
        ReleaseSlots(s1.(slots := s1.slots[j := None]), j + 1)
  }

  // ------------------------------------------------------------------ The environment

  /** AsyncRequestWritableStream::afterWrite, then finishedWriting. */
  function CompleteWrite(s: Sys, i: nat): (r: Sys)
    requires i < |s.sinks| == |s.written| && s.sinks[i].writing.Some?
    ensures SameShape(s, r)
  {
    var b := s.sinks[i].writing.value;
    var s1 := SetSink(s, i, s.sinks[i].(writing := None)).(
                written := s.written[i := s.written[i] + [Content(s.buffers, b)]]);
    FinishedWriting(Unref(s1, b), i, b)
  }

  function FinishedWriting(s: Sys, i: nat, b: ID): (r: Sys)
    requires i < |s.sinks|
    ensures Steady(s, r)
  {
    var s1 := AfterWrite(StartNext(Check(s, StillWriting(s.sinks[i]), NotWriting), i), b);
    if i < |s1.sinks| && s1.sinks[i].state == WriteState.Ended then Finish(s1, i) else s1
  }

  /** The first half of finishedWriting: the next queued write, or the end, or idle again. */
  function StartNext(s: Sys, i: nat): (r: Sys)
    requires i < |s.sinks|
    ensures Steady(s, r)
  {
    var k := s.sinks[i];
    if k.queue != [] then StartFront(s, i, k)
    else if k.state == Ending then
      (if k.writing.None? then SetSink(s, i, k.(state := WriteState.Ended)) else s)
    else SetSink(s, i, k.(state := WriteState.Stopped))
  }

  /** AsyncRequestReadableStream::afterRead with data. */
  function CompleteRead(s: Sys, data: Bytes): (r: Sys)
    requires s.source.bufferID.Some?
    ensures SameShape(s, r)
  {
    var b := s.source.bufferID.value;
    var s1 := Fill(s, b, data).(source := s.source.(request := Free));
    var (s2, more) := Push(s1, b, |data|);
    var s3 := if s2.source.destroyed then s2 else ReleaseBufferID(s2);
    if more then
      match FirstFree(s3.buffers)
      case None => Pause(s3)
      case Some(n) => Request(s3, n).(source := s3.source.(bufferID := Some(n), request := Active))
    else s3
  }

  datatype Event =
    | Start                     // AsyncPipeline::start, or resumeReading on the source
    | ReadData(data: Bytes)     // the read completes
    | ReadEnd                   // the read reports the end
    | ReadError                 // the read fails
    | ReadCancelled             // the cancelled read is released
    | Produce(data: Bytes)      // its owner pushes one more buffer while the source is pausing
    | EndNow                    // its owner calls pushEnd
    | WriteDone(sink: nat)      // a write completes, successfully or not

  /** When the environment can take a step. A caller of pushEnd that keeps the stream after its end
      must do so without a read in flight. */
  predicate Enabled(s: Sys, e: Event)
  {
    match e
    case Start => s.piped
    case ReadData(data) => s.source.request == Active && s.source.bufferID.Some? &&
                           s.source.bufferID.value < |s.buffers| && |data| <= |s.buffers[s.source.bufferID.value].store|
    case ReadEnd => s.source.request == Active
    case ReadError => s.source.request == Active
    case ReadCancelled => s.source.request == Cancelling && !s.source.destroyed
    case Produce(data) => s.source.state == Pausing && s.source.request == Free &&
                          var f := FirstFree(s.buffers); f.Some? && |data| <= |s.buffers[f.value].store|
    case EndNow => s.source.autoDestroy || s.source.request == Free
    case WriteDone(i) => i < |s.sinks| == |s.written| && s.sinks[i].writing.Some?
  }

  function Step(s: Sys, e: Event): (r: Sys)
    ensures SameShape(s, r)
  {
    if !Enabled(s, e) then s
    else match e
      case Start => ResumeReading(s)
      case ReadData(data) => CompleteRead(s, data)
      case ReadEnd => PushEnd(ReleaseBufferID(s.(source := s.source.(request := Free))))
      case ReadError => ReleaseBufferID(s.(source := s.source.(request := Free)))
      case ReadCancelled => FinalizeDestruction(s)
      case Produce(data) =>
        var b := FirstFree(s.buffers).value;
        Unref(Push(Fill(Request(s, b), b, data), b, |data|).0, b)
      case EndNow => PushEnd(s)
      case WriteDone(i) => CompleteWrite(s, i)
  }

  function Run(s: Sys, events: seq<Event>): (r: Sys)
    ensures SameShape(s, r)
    decreases |events|
  {
    if events == [] then s else Run(Step(s, events[0]), events[1..])
  }

  /** After init, pipe and before start. */
  predicate Initial(s: Sys)
  {
    && (forall b :: 0 <= b < |s.buffers| ==> s.buffers[b].refs == 0 && s.buffers[b].length == |s.buffers[b].store|)
    && s.source.state == CanRead && !s.source.destroyed && s.source.queue == []
    && s.source.request == Free && s.source.bufferID.None?
    && 1 <= |s.sinks| <= MAX_SINKS
    && (forall i :: 0 <= i < |s.sinks| ==>
          var k := s.sinks[i];
          k.state == WriteState.Stopped && !k.destroyed && k.queue == [] && k.writing.None? && !k.listening)
    && |s.slots| == NUM_SLOTS && (forall j :: 0 <= j < |s.slots| ==> s.slots[j].None?)
    && !s.shouldEndWhenDrained && !s.endingPipes && s.piped && s.failed == {}
    && s.accepted == [] && s.dispatched == []
    && |s.written| == |s.sinks| && (forall i :: 0 <= i < |s.written| ==> s.written[i] == [])
  }
}
