/** What the operations of streams and pool do in every state, also in those that a pipeline on its own does not get
    into: callers may write, destroy and resume streams as they like. */
module StreamOperations {

  import opened Wrappers
  import opened StreamModel
  import opened StreamInvariant
  import opened StreamProofs

  // ------------------------------------------------------------------ The pool

  /** A reference that is given back. The last one makes the buffer whole again; a buffer that nobody holds fails the
      assertion, and nothing else happens. */
  lemma UnrefExactly(s: Sys, b: ID)
    ensures var r := Unref(s, b);
            && r == s.(buffers := r.buffers, failed := r.failed) && |r.buffers| == |s.buffers|
            && (forall c :: 0 <= c < |s.buffers| && c != b ==> r.buffers[c] == s.buffers[c])
            && if b < |s.buffers| && s.buffers[b].refs != 0 then
                 && r.failed == s.failed && r.buffers[b].refs == s.buffers[b].refs - 1
                 && r.buffers[b].store == s.buffers[b].store
                 && (if r.buffers[b].refs == 0 then r.buffers[b].length == |s.buffers[b].store|
                     else r.buffers[b].length == s.buffers[b].length)
               else r.buffers == s.buffers && r.failed == s.failed + {UnrefOfFreeBuffer}
  {
  }

  /** As many references are held as these buffers occur in the list. */
  predicate Referenced(buffers: seq<Buffer>, ids: seq<ID>)
  {
    forall b :: b in ids ==> b < |buffers| && buffers[b].refs >= Count(ids, b)
  }

  lemma {:induction false} UnrefsExactly(s: Sys, ids: seq<ID>)
    requires Referenced(s.buffers, ids)
    ensures var r := UnrefAll(s, ids);
            && r == s.(buffers := r.buffers) && |r.buffers| == |s.buffers|
            && forall b: ID {:trigger r.buffers[b]} :: b < |s.buffers| ==>
               r.buffers[b].refs == s.buffers[b].refs - Count(ids, b)
    decreases |ids|
  {
    if ids != [] {
      var s1 := Unref(s, ids[0]);
      assert ids[0] in ids && Count(ids, ids[0]) == 1 + Count(ids[1..], ids[0]);
      UnrefExactly(s, ids[0]);
      hide Unref;
      forall b | b in ids[1..] ensures b < |s1.buffers| && s1.buffers[b].refs >= Count(ids[1..], b) {
        assert b in ids && Count(ids, b) == (if ids[0] == b then 1 else 0) + Count(ids[1..], b);
      }
      UnrefsExactly(s1, ids[1..]);
    }
  }

  // ------------------------------------------------------------------ Writing

  /** A write is accepted if and only if the sink has not begun to end and its queue has room. One that is not changes
      nothing; one that is becomes the last of what the sink has to write, and the sink gets one more reference for
          it. */
  lemma WritesExactly(s: Sys, i: nat, b: ID)
    requires i < |s.sinks| && b < |s.buffers| && s.buffers[b].refs > 0
    requires SinkOk(s.sinks[i])
    ensures var (r, ok) := Write(s, i, b);
            var k := s.sinks[i];
            && (ok <==> k.state != WriteState.Ended && k.state != Ending && |k.queue| < k.capacity)
            && (!ok ==> r == s)
            && (ok ==>
                  && SinkIds(r.sinks[i]) == SinkIds(k) + [b] && StillWriting(r.sinks[i]) && SinkOk(r.sinks[i])
                  && r == s.(buffers := AddRef(s.buffers, b), sinks := s.sinks[i := r.sinks[i]]))
  {
    if CanAcceptWrite(s.sinks[i]) {
      WriteForm(s, i, b);
      AcceptIds(s.sinks[i], b);
      hide Write;
    }
  }

  /** resumeWriting on a sink that is ending: it has ended if nothing is in flight, and is destroyed then exactly if
      that is automatic; otherwise it goes on waiting. */
  lemma ResumesEnding(s: Sys, i: nat)
    requires i < |s.sinks| && s.sinks[i].state == Ending && s.sinks[i].queue == []
    ensures var k, r := s.sinks[i], ResumeWriting(s, i, s.sinks[i]);
            r == s.(sinks := s.sinks[i :=
                   if k.writing.None? then k.(state := WriteState.Ended, destroyed := k.destroyed || k.autoDestroy)
                   else k])
  {
    assert s.sinks[i := s.sinks[i]] == s.sinks;
    if s.sinks[i].writing.None? {
      var s1 := SetSink(s, i, s.sinks[i].(state := WriteState.Ended));
      assert s1.sinks[i].queue == [] && s1.sinks[i := s1.sinks[i].(queue := [])] == s1.sinks;
    }
  }

  /** end on a sink, in every state: an idle one has ended, and is destroyed then exactly if that is automatic; one with
      a write under way ends when that has completed; in any other state nothing happens. */
  lemma EndsSinkExactly(s: Sys, i: nat)
    requires i < |s.sinks|
    requires s.sinks[i].state == WriteState.Stopped ==> s.sinks[i].queue == [] && !s.sinks[i].listening
    ensures var k := s.sinks[i];
            EndSink(s, i) == s.(sinks := s.sinks[i :=
              if k.state == WriteState.Stopped && k.writing.None? then
                k.(state := WriteState.Ended, destroyed := k.destroyed || k.autoDestroy)
              else if k.state == WriteState.Stopped || k.state == Writing then k.(state := Ending)
              else k])
  {
    assert s.sinks[i := s.sinks[i]] == s.sinks;
    if s.sinks[i].state == WriteState.Stopped && s.sinks[i].writing.None? {
      var s1 := SetSink(s, i, s.sinks[i].(state := WriteState.Ended));
      assert s1.sinks[i].queue == [] && s1.sinks[i := s1.sinks[i].(queue := [])] == s1.sinks;
    }
  }

  /** destroy on a sink: the reference of every queued write is given back, and nothing is queued any more. With nothing
      in flight the sink has ended and is destroyed at once; otherwise it is on its way; and a sink that was on its way
      or had failed stays so. */
  lemma DestroysSinkExactly(s: Sys, i: nat)
    requires i < |s.sinks| && Referenced(s.buffers, s.sinks[i].queue)
    ensures var k, r := s.sinks[i], DestroySink(s, i);
            && |r.sinks| == |s.sinks| && r == s.(buffers := r.buffers, sinks := s.sinks[i := r.sinks[i]])
            && (forall b: ID {:trigger r.buffers[b]} :: b < |s.buffers| ==>
                  r.buffers[b].refs == s.buffers[b].refs - Count(k.queue, b))
            && r.sinks[i] ==
               (if k.state == WriteState.Destroying || k.state == WriteState.Errored then k.(queue := [])
                else if k.writing.None? then k.(queue := [], state := WriteState.Ended, destroyed := true)
                else k.(queue := [], state := WriteState.Destroying))
  {
    UnrefsExactly(s.(sinks := s.sinks[i := s.sinks[i].(queue := [])]), s.sinks[i].queue);
    hide UnrefAll;
  }

  // ------------------------------------------------------------------ Reading

  /** unshift puts the buffer before everything that is queued and takes a reference, if and only if there is room for
      it; otherwise nothing changes. */
  lemma UnshiftsExactly(s: Sys, b: ID)
    requires b < |s.buffers|
    ensures var r := Unshift(s, b);
            && (r.source.queue != s.source.queue <==> |s.source.queue| < s.source.capacity)
            && (r != s ==> r == s.(buffers := AddRef(s.buffers, b), source := s.source.(queue := [b] + s.source.queue)))
  {
    assert |[b] + s.source.queue| == 1 + |s.source.queue|;
  }

  /** destroy on a source that is not being destroyed and has not failed: the references of its queue are given back; a
      read in flight is cancelled first. */
  lemma DestroysSourceExactly(s: Sys)
    requires !s.source.destroyed && Referenced(s.buffers, s.source.queue)
    requires s.source.state != ReadState.Destroying && s.source.state != ReadState.Errored && s.source.request != Free
    ensures var r := DestroySource(s);
            && r == s.(buffers := r.buffers,
                       source := s.source.(queue := [], state := ReadState.Destroying, request := Cancelling))
            && |r.buffers| == |s.buffers|
            && forall b: ID {:trigger r.buffers[b]} :: b < |s.buffers| ==>
                 r.buffers[b].refs == s.buffers[b].refs - Count(s.source.queue, b)
  {
    UnrefsExactly(s.(source := s.source.(queue := [])), s.source.queue);
    hide UnrefAll, FinalizeDestruction;
  }

  /** A source that is being destroyed already, or has failed, gives up what it has queued and stays what it is. */
  lemma DestroysAgain(s: Sys)
    requires !s.source.destroyed && Referenced(s.buffers, s.source.queue)
    requires s.source.state == ReadState.Destroying || s.source.state == ReadState.Errored
    ensures var r := DestroySource(s);
            r == s.(buffers := r.buffers, source := s.source.(queue := []))
  {
    UnrefsExactly(s.(source := s.source.(queue := [])), s.source.queue);
    hide UnrefAll, FinalizeDestruction;
  }

  /** pause has an effect exactly while the source is reading or pushing, and then only on its state. */
  lemma PausesExactly(s: Sys)
    ensures var c := Pause(s).source;
            && Pause(s) == s.(source := s.source.(state := c.state))
            && (c.state != s.source.state <==>
                  s.source.state in {Reading, SyncPushing, AsyncReading, AsyncPushing})
            && (c.state != s.source.state ==> c.state == Pausing)
  {
  }

  /** A source that the pipeline has left gives what it has queued to nobody: every queued buffer gives its reference
      back, and nothing else changes. */
  lemma {:induction false} UnpipedDrains(s: Sys)
    requires !s.piped && s.source.state in {Reading, SyncPushing, AsyncReading, AsyncPushing}
    ensures EmitLoop(s) == UnrefAll(s.(source := s.source.(queue := [])), s.source.queue)
    decreases |s.source.queue|
  {
    if s.source.queue != [] {
      var b := s.source.queue[0];
      var s1 := Unref(s.(source := s.source.(queue := s.source.queue[1..])), b);
      assert s1.(source := s1.source.(queue := [])) == Unref(s.(source := s.source.(queue := [])), b);
      hide Unref, DispatchFrom, HasPendingWrites;
      UnpipedDrains(s1);
    }
  }

  /** What push does in each state that runs the queue: a read that pushes before it returns leaves the source pushing
      whatever a listener does, one that pushes later only if no listener has paused it. */
  lemma PushesExactly(s: Sys)
    requires Emitting(s.source.state) && s.source.state != ReadState.Ended
    ensures var emitted, r := EmitOnData(s).source.state, PushQueued(s).source.state;
            && PushQueued(s) == EmitOnData(s).(source := EmitOnData(s).source.(state := r))
            && (s.source.state in {Reading, SyncPushing} ==> r == SyncPushing)
            && (s.source.state in {AsyncReading, AsyncPushing} ==>
                  r == if emitted == AsyncReading then AsyncPushing else emitted)
            && (s.source.state == Pausing ==> r == emitted)
  {
    hide EmitOnData;
  }

  /** A completed write: the next queued one is in flight, with the reference of the queue; with nothing queued the sink
      has ended if it was ending and nothing is in flight, goes on ending if something is, and is idle otherwise. */
  lemma StartsNextExactly(s: Sys, i: nat)
    requires i < |s.sinks|
    requires s.sinks[i].queue != [] ==> s.sinks[i].queue[0] < |s.buffers| && s.buffers[s.sinks[i].queue[0]].refs > 0
    ensures var k, r := s.sinks[i], StartNext(s, i);
            r == s.(sinks := s.sinks[i :=
              if k.queue != [] then k.(queue := k.queue[1..], writing := Some(k.queue[0]))
              else if k.state != Ending then k.(state := WriteState.Stopped)
              else if k.writing.None? then k.(state := WriteState.Ended)
              else k])
  {
    assert s.sinks[i := s.sinks[i]] == s.sinks;
    if s.sinks[i].queue != [] {
      var b := s.sinks[i].queue[0];
      var one := AddRef(s.buffers, b);
      assert one[b := s.buffers[b]] == s.buffers;
    }
  }

  // ------------------------------------------------------------------ The pipeline

  /** Every pending write from slot j on has a reference on its buffer. */
  predicate SlotsReferenced(s: Sys, j: nat)
    requires j <= |s.slots|
  {
    forall l :: j <= l < |s.slots| && s.slots[l].Some? ==>
      var b := s.slots[l].value.buffer; b < |s.buffers| && s.buffers[b].refs >= SlotHeld(s.slots[j..], b)
  }

  lemma {:induction false} ReleasesExactly(s: Sys, j: nat)
    requires j <= |s.slots| && SlotsReferenced(s, j)
    ensures var r := ReleaseSlots(s, j);
            && r == s.(buffers := r.buffers, slots := r.slots) && |r.slots| == |s.slots|
            && |r.buffers| == |s.buffers|
            && (forall l :: 0 <= l < |s.slots| ==> r.slots[l] == if l < j then s.slots[l] else None)
            && forall b: ID {:trigger r.buffers[b]} :: b < |s.buffers| ==>
                 r.buffers[b].refs == s.buffers[b].refs - SlotHeld(s.slots[j..], b)
    decreases |s.slots| - j
  {
    if j < |s.slots| {
      assert s.slots[j..][0] == s.slots[j] && s.slots[j..][1..] == s.slots[j + 1..];
      match s.slots[j]
      case None => ReleasesExactly(s, j + 1);
      case Some(p) =>
        UnrefExactly(s, p.buffer);
        hide Unref;
        var s1 := Unref(s, p.buffer);
        var s2 := s1.(slots := s1.slots[j := None]);
        assert s2.slots[j + 1..] == s.slots[j + 1..];
        ReleasesExactly(s2, j + 1);
    }
  }

  /** unpipe at any time: nothing is pending any more, each pending write has given its reference back, and the pipeline
      no longer listens or ends; sinks and source stay as they are. */
  lemma UnpipesExactly(s: Sys)
    requires SlotsReferenced(s, 0)
    ensures var r := Unpipe(s);
            && r == s.(buffers := r.buffers, slots := r.slots,
                       shouldEndWhenDrained := false, endingPipes := false, piped := false)
            && !HasPendingWrites(r) && |r.slots| == |s.slots| && |r.buffers| == |s.buffers|
            && forall b: ID {:trigger r.buffers[b]} :: b < |s.buffers| ==>
                 r.buffers[b].refs == s.buffers[b].refs - SlotHeld(s.slots, b)
  {
    ReleasesExactly(s, 0);
    assert s.slots[0..] == s.slots;
    hide ReleaseSlots;
  }

  predicate Waits(slots: seq<Option<PendingWrite>>, i: nat, from: nat := 0)
  {
    exists j :: from <= j < |slots| && slots[j].Some? && slots[j].value.sink == i
  }

  lemma {:induction false} FindsSlot(slots: seq<Option<PendingWrite>>, i: nat, from: nat, empty: Option<nat>)
    requires from <= |slots|
    ensures var r := FindSlot(slots, i, from, empty);
            if Waits(slots, i, from) then
              r.Some? && from <= r.value < |slots| && slots[r.value].Some? && slots[r.value].value.sink == i
            else if empty.Some? then r == empty
            else
              && (r.Some? ==> from <= r.value < |slots| && slots[r.value].None?)
              && forall j :: from <= j < (if r.Some? then r.value else |slots|) ==> slots[j].Some?
    decreases |slots| - from
  {
    if from < |slots| {
      match slots[from]
      case Some(p) => if p.sink != i { FindsSlot(slots, i, from + 1, empty); }
      case None => FindsSlot(slots, i, from + 1, if empty.None? then Some(from) else empty);
    }
  }

  /** The assertion on a slot holds if and only if no write is pending for the sink and some slot is empty. The write
      then waits in the first empty one, and the source is paused exactly if nothing was pending. */
  lemma PostponesExactly(s: Sys, b: ID, i: nat)
    requires i < |s.sinks|
    ensures var r := Postpone(s, b, i);
            if Waits(s.slots, i) || (forall j :: 0 <= j < |s.slots| ==> s.slots[j].Some?) then
              r == s.(failed := s.failed + {PendingSlot})
            else
              exists j: nat ::
                && j < |s.slots| && s.slots[j].None? && (forall l :: 0 <= l < j ==> s.slots[l].Some?)
                && r == (if HasPendingWrites(s) then s else Pause(s)).(slots := s.slots[j := Some(PendingWrite(i, b))])
  {
    FindsSlot(s.slots, i, 0, None);
    hide FindSlot;
  }

  /** The end of the source reaches the sinks at once if and only if nothing is pending or queued. With a write
      pending it
      waits for that; with only data queued, what is queued is handed on first, also by a source that has ended. */
  lemma EndWaits(s: Sys)
    requires !s.endingPipes && (HasPendingWrites(s) || s.source.queue != [])
    ensures var r, waiting := EndPipes(s), s.(shouldEndWhenDrained := true);
            && (HasPendingWrites(s) ==> r == waiting)
            && (!HasPendingWrites(s) && s.source.state == ReadState.Ended ==> r == EmitOnData(waiting))
            && (!HasPendingWrites(s) && s.source.state in {CanRead, Pausing, Paused} ==> r == ExecuteRead(waiting))
  {
    hide EmitOnData, ExecuteRead;
    assert HasPendingWrites(s.(shouldEndWhenDrained := true)) == HasPendingWrites(s);
  }
}
