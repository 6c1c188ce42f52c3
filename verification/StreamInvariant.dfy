/** What holds of a pipeline between two steps of its environment. */
module StreamInvariant {

  import opened Wrappers
  import opened StreamModel

  // ------------------------------------------------------------------ Who holds which buffer

  function Opt(o: Option<ID>): seq<ID>
  {
    match o
    case None => []
    case Some(b) => [b]
  }

  /** The buffers a sink still has to write, in the order in which it will write them. */
  function SinkIds(k: Sink): seq<ID>
  {
    Opt(k.writing) + k.queue
  }

  function Count(ids: seq<ID>, b: ID): nat
  {
    if ids == [] then 0 else (if ids[0] == b then 1 else 0) + Count(ids[1..], b)
  }

  /** Two references for each buffer in a sink: the stream's own and the one of the pipeline's callback. */
  function SinkHeld(sinks: seq<Sink>, b: ID): nat
  {
    if sinks == [] then 0 else 2 * Count(SinkIds(sinks[0]), b) + SinkHeld(sinks[1..], b)
  }

  function SlotHeld(slots: seq<Option<PendingWrite>>, b: ID): nat
  {
    if slots == [] then 0
    else (if slots[0].Some? && slots[0].value.buffer == b then 1 else 0) + SlotHeld(slots[1..], b)
  }

  /** The references for data on its way: in the read queue, in a pending slot, in a sink. */
  function Stored(s: Sys, b: ID): nat
  {
    Count(s.source.queue, b) + SlotHeld(s.slots, b) + SinkHeld(s.sinks, b)
  }

  /** All references that the holders of buffer b account for: the reader's and those for data. */
  function Held(s: Sys, b: ID): nat
  {
    Count(Opt(s.source.bufferID), b) + Stored(s, b)
  }

  // ------------------------------------------------------------------ What a sink has been given

  function Contents(buffers: seq<Buffer>, ids: seq<ID>): seq<Bytes>
  {
    if ids == [] then [] else [Content(buffers, ids[0])] + Contents(buffers, ids[1..])
  }

  /** The buffer waiting in a pending slot for sink i, if any. */
  function PendingOf(slots: seq<Option<PendingWrite>>, i: nat): seq<ID>
  {
    if slots == [] then []
    else (if slots[0].Some? && slots[0].value.sink == i then [slots[0].value.buffer] else []) + PendingOf(slots[1..], i)
  }

  /** Everything sink i has received: written, being written, queued, pending. */
  function Log(s: Sys, i: nat): seq<Bytes>
    requires i < |s.sinks|
  {
    (if i < |s.written| then s.written[i] else []) + Contents(s.buffers, SinkIds(s.sinks[i]) + PendingOf(s.slots, i))
  }

  // ------------------------------------------------------------------ The invariant

  predicate SinkOk(k: Sink)
  {
    && k.state != WriteState.Destroying && k.state != WriteState.Errored
    && (StillWriting(k) <==> k.writing.Some?)
    && (!StillWriting(k) ==> k.queue == [])
    && |k.queue| <= k.capacity
  }

  /** The pipeline has not begun to end this sink. */
  predicate Open(k: Sink)
  {
    (k.state == WriteState.Stopped || k.state == Writing) && !k.listening
  }

  predicate SlotFree(s: Sys, i: nat)
  {
    forall j :: 0 <= j < |s.slots| && s.slots[j].Some? ==> s.slots[j].value.sink != i
  }

  /** No two slots wait for the same sink. */
  predicate SlotsDistinct(s: Sys)
  {
    && (forall j :: 0 <= j < |s.slots| && s.slots[j].Some? ==> s.slots[j].value.sink < |s.sinks|)
    && (forall j, l :: 0 <= j < l < |s.slots| && s.slots[j].Some? && s.slots[l].Some? ==>
          s.slots[j].value.sink != s.slots[l].value.sink)
  }

  /** A write is pending only while its sink cannot take it. */
  predicate SlotsBlocked(s: Sys)
    requires SlotsDistinct(s)
  {
    forall j :: 0 <= j < |s.slots| && s.slots[j].Some? ==>
      var k := s.sinks[s.slots[j].value.sink];
      Open(k) && !CanAcceptWrite(k)
  }

  predicate SlotsOk(s: Sys)
  {
    SlotsDistinct(s) && SlotsBlocked(s)
  }

  /** Reference counts are exact, up to the references `extra` of the operation under way. */
  ghost predicate RefsExact(s: Sys, extra: multiset<ID>)
  {
    forall b: ID {:trigger Held(s, b)} ::
      if b < |s.buffers| then s.buffers[b].refs == Held(s, b) + extra[b] else Held(s, b) + extra[b] == 0
  }

  /** Everything but SlotsBlocked, which fails while a completed write has not been answered yet. */
  ghost predicate Sound(s: Sys, extra: multiset<ID>)
  {
    && 1 <= |s.sinks| <= MAX_SINKS && |s.written| == |s.sinks| && |s.slots| == NUM_SLOTS
    && (forall b :: 0 <= b < |s.buffers| ==> s.buffers[b].length <= |s.buffers[b].store|)
    && (forall i :: 0 <= i < |s.sinks| ==> SinkOk(s.sinks[i]))
    && SlotsDistinct(s)
    && RefsExact(s, extra)
    && (forall a :: a in s.failed ==> a == FinishListener)
    && (s.source.request != Free ==>
          s.source.bufferID.Some? && s.source.bufferID.value < |s.buffers| &&
          s.buffers[s.source.bufferID.value].refs == 1)
  }

  ghost predicate Shape(s: Sys, extra: multiset<ID>)
  {
    Sound(s, extra) && SlotsBlocked(s)
  }

  /** Sinks below `upto` have received everything dispatched, the others all of it but `tail`. */
  predicate Logs(s: Sys, upto: nat, tail: seq<Bytes>)
  {
    forall i :: 0 <= i < |s.sinks| ==> Log(s, i) + (if i < upto then [] else tail) == s.dispatched
  }

  /** Dispatched, then `mid`, then what is still queued is what push accepted. */
  predicate Accounted(s: Sys, mid: seq<Bytes>)
  {
    s.dispatched + mid + Contents(s.buffers, s.source.queue) == s.accepted
  }
}
