/** Lemmas about the end of a stream: endPipes, destroy, and the invariant kept between steps. */
module StreamEnd {

  import opened Wrappers
  import opened StreamModel
  import opened StreamInvariant
  import opened StreamProofs
  import opened StreamDispatch

  /** The sinks have been told to end, and those still writing will tell the pipeline when they finish. */
  ghost predicate Closing(s: Sys)
  {
    && s.piped && s.endingPipes
    && (forall i :: 0 <= i < |s.sinks| ==>
          s.sinks[i].state == WriteState.Ended || (s.sinks[i].state == Ending && s.sinks[i].listening))
  }

  /** While the pipeline is ending, some sink still writes; a sink that has ended has no listener left. */
  ghost predicate EndingFlies(s: Sys)
  {
    && (s.endingPipes ==> InFlight(s))
    && (forall i :: 0 <= i < |s.sinks| && s.sinks[i].state == WriteState.Ended ==> !s.sinks[i].listening)
  }

  /** Every sink has ended and the pipeline listens no more. */
  ghost predicate Closed(s: Sys)
  {
    && !s.piped && !s.endingPipes
    && (forall i :: 0 <= i < |s.sinks| ==> s.sinks[i].state == WriteState.Ended)
  }

  /** Data handed to the sinks is complete: nothing is left on the source's side. */
  ghost predicate Over(s: Sys, extra: multiset<ID>)
  {
    && Shape(s, extra) && Logs(s, 0, []) && Accounted(s, [])
    && s.source.queue == [] && !HasPendingWrites(s)
    && (Closing(s) || Closed(s))
  }

  // ------------------------------------------------------------------ endPipes

  function EndOf(k: Sink): Sink
  {
    if k.state == Writing then k.(state := Ending, listening := true)
    else k.(state := WriteState.Ended, destroyed := k.destroyed || k.autoDestroy)
  }

  lemma EndSinkForm(s: Sys, i: nat)
    requires i < |s.sinks| && SinkOk(s.sinks[i]) && Open(s.sinks[i])
    ensures var k := s.sinks[i];
            EndSink(if StillWriting(k) then SetSink(s, i, k.(listening := true)) else s, i) == SetSink(s, i, EndOf(k))
  {
    var k := s.sinks[i];
    if k.state == Writing {
      Overwrite(s.sinks, i, k.(listening := true), EndOf(k));
    } else {
      var done := k.(state := WriteState.Ended);
      assert done.(queue := []) == done;
      Overwrite(s.sinks, i, done, done);
      Overwrite(s.sinks, i, done, EndOf(k));
    }
  }

  lemma {:induction false} EndSinksForm(s: Sys, i: nat)
    requires i <= |s.sinks| && forall l :: i <= l < |s.sinks| ==> SinkOk(s.sinks[l]) && Open(s.sinks[l])
    ensures var r := EndSinks(s, i);
            && r.0 == s.(sinks := r.0.sinks) && |r.0.sinks| == |s.sinks|
            && (forall l :: 0 <= l < |s.sinks| ==> r.0.sinks[l] == if l < i then s.sinks[l] else EndOf(s.sinks[l]))
            && (r.1 <==> forall l :: i <= l < |s.sinks| ==> !StillWriting(s.sinks[l]))
    decreases |s.sinks| - i
  {
    if i < |s.sinks| {
      EndSinkForm(s, i);
      hide EndSink, SinkOk, Open, EndOf, StillWriting;
      EndSinksForm(SetSink(s, i, EndOf(s.sinks[i])), i + 1);
    }
  }

  lemma {:induction false} SinkHeldSame(sinks: seq<Sink>, sinks': seq<Sink>, b: ID)
    requires |sinks| == |sinks'| && forall i :: 0 <= i < |sinks| ==> SinkIds(sinks[i]) == SinkIds(sinks'[i])
    ensures SinkHeld(sinks, b) == SinkHeld(sinks', b)
  {
    if sinks != [] {
      assert SinkIds(sinks[0]) == SinkIds(sinks'[0]);
      SinkHeldSame(sinks[1..], sinks'[1..], b);
    }
  }

  /** The sinks hold the same buffers and have written the same bytes. */
  ghost predicate SameLoad(s: Sys, s': Sys)
  {
    && s'.buffers == s.buffers && s'.slots == s.slots && s'.accepted == s.accepted && s'.dispatched == s.dispatched &&
       s'.written == s.written
    && s'.source.queue == s.source.queue && |s'.sinks| == |s.sinks|
    && forall i :: 0 <= i < |s.sinks| ==>
         SinkIds(s'.sinks[i]) == SinkIds(s.sinks[i]) && SinkOk(s'.sinks[i])
  }

  lemma SinksReplaced(s: Sys, s': Sys, extra: multiset<ID>)
    requires Shape(s, extra) && Logs(s, 0, []) && Accounted(s, []) && !HasPendingWrites(s)
    requires SameLoad(s, s') && s'.source.request == s.source.request && s'.source.bufferID == s.source.bufferID
    requires forall a :: a in s'.failed ==> a == FinishListener
    ensures Shape(s', extra) && Logs(s', 0, []) && Accounted(s', []) && !HasPendingWrites(s')
  {
    forall x: ID ensures Held(s', x) == Held(s, x) {
      SinkHeldSame(s.sinks, s'.sinks, x);
    }
    forall i | 0 <= i < |s.sinks| ensures Log(s', i) == Log(s, i) {
      LogSame(s, s', i);
    }
  }

  lemma ReleaseNothing(s: Sys, j: nat)
    requires j <= |s.slots| && !HasPendingWrites(s)
    ensures ReleaseSlots(s, j) == s
    decreases |s.slots| - j
  {
    if j < |s.slots| {
      ReleaseNothing(s, j + 1);
    }
  }

  lemma UnpipeForm(s: Sys)
    requires !HasPendingWrites(s)
    ensures Unpipe(s) == s.(shouldEndWhenDrained := false, endingPipes := false, piped := false)
  {
    ReleaseNothing(s, 0);
  }

  /** endPipes with nothing queued or pending, in closed form. */
  ghost predicate HasEnded(s: Sys, s': Sys)
  {
    && |s'.sinks| == |s.sinks|
    && (forall i :: 0 <= i < |s.sinks| ==> s'.sinks[i] == EndOf(s.sinks[i]))
    && s' == if InFlight(s) then s.(sinks := s'.sinks, endingPipes := true)
             else s.(sinks := s'.sinks, endingPipes := false, piped := false, shouldEndWhenDrained := false)
  }

  lemma EndPipesForm(s: Sys)
    requires !HasPendingWrites(s) && s.source.queue == [] && !s.endingPipes
    ensures var (s1, allEnded) := EndSinks(s.(endingPipes := true), 0);
            EndPipes(s) == if allEnded then Unpipe(s1) else s1
  {
    hide EndSinks, Unpipe, HasPendingWrites, ResumeReading;
  }

  lemma EndsForm(s: Sys)
    requires !HasPendingWrites(s) && s.source.queue == [] && !s.endingPipes
    requires forall i :: 0 <= i < |s.sinks| ==> SinkOk(s.sinks[i]) && Open(s.sinks[i])
    ensures HasEnded(s, EndPipes(s))
  {
    hide EndSinks, EndPipes, Unpipe, SinkOk, Open, EndOf, StillWriting, HasPendingWrites, HasEnded;
    var s0 := s.(endingPipes := true);
    EndSinksForm(s0, 0);
    EndPipesForm(s);
    var (s1, allEnded) := EndSinks(s0, 0);
    SamePending(s, s1);
    UnpipeForm(s1);
    EndedForm(s, s1, EndPipes(s));
  }

  lemma EndedForm(s: Sys, s1: Sys, s': Sys)
    requires s1 == s.(endingPipes := true, sinks := s1.sinks) && |s1.sinks| == |s.sinks|
    requires forall i :: 0 <= i < |s.sinks| ==> s1.sinks[i] == EndOf(s.sinks[i])
    requires s' == if forall i :: 0 <= i < |s.sinks| ==> !StillWriting(s.sinks[i])
                   then s1.(shouldEndWhenDrained := false, endingPipes := false, piped := false) else s1
    ensures HasEnded(s, s')
  {
  }

  /** With nothing queued or pending, endPipes ends every sink, or lets it finish what it holds. */
  lemma Ends(s: Sys, extra: multiset<ID>)
    requires Going(s, extra, []) && !HasPendingWrites(s) && s.source.queue == []
    ensures var s' := EndPipes(s);
            HasEnded(s, s') && Over(s', extra) && EndingFlies(s') && Roomy(s) == Roomy(s')
  {
    EndsForm(s);
    var s' := EndPipes(s);
    EndsLoad(s, s', extra);
    EndsPhase(s, s');
    hide EndPipes, Shape, Logs, Accounted, HasPendingWrites, Closing, Closed, Open, EndOf, SameLoad, EndingFlies, Roomy;
    SinksReplaced(s, s', extra);
  }

  lemma EndsPhase(s: Sys, s': Sys)
    requires OpenSinks(s) && s.piped && HasEnded(s, s')
    ensures (Closing(s') || Closed(s')) && EndingFlies(s') && Roomy(s) == Roomy(s')
  {
    if InFlight(s) {
      var i :| 0 <= i < |s.sinks| && StillWriting(s.sinks[i]);
      assert StillWriting(s'.sinks[i]);
    }
  }

  lemma EndsLoad(s: Sys, s1: Sys, extra: multiset<ID>)
    requires Going(s, extra, []) && HasEnded(s, s1)
    ensures SameLoad(s, s1) && forall a :: a in s1.failed ==> a == FinishListener
  {
    forall i | 0 <= i < |s.sinks| ensures SinkIds(s1.sinks[i]) == SinkIds(s.sinks[i]) && SinkOk(s1.sinks[i]) {
      assert SinkOk(s.sinks[i]) && Open(s.sinks[i]);
    }
  }

  // ------------------------------------------------------------------ The invariant

  /** Data still flows, or the end has been deferred until it has drained. */
  ghost predicate Flowing(s: Sys)
  {
    OpenSinks(s) && s.piped && !s.endingPipes
  }

  predicate HasEndState(c: Source)
  {
    c.state == ReadState.Ended || c.state == ReadState.Destroying
  }

  /** The request has a buffer while it is in use, and only then. */
  ghost predicate SourceOk(c: Source)
  {
    && c.state != ReadState.Stopped && c.state != Reading && c.state != SyncPushing && c.state != SyncReadMore &&
       c.state != Paused
    && (c.request == Free <==> c.bufferID.None?)
    && (c.request == Cancelling <==> c.state == ReadState.Destroying)
    && (c.request == Active ==> c.state == AsyncReading || c.state == AsyncPushing)
    && (c.destroyed ==> c.state == ReadState.Ended)
    && (c.state != Pausing && c.state != ReadState.Errored && (c.state != ReadState.Ended || c.destroyed) ==>
          c.queue == [])
  }

  /** With room in the queues and at least one buffer, a pipeline that is paused, or has deferred its
      end, has a write in flight whose completion will resume it. */
  ghost predicate Progress(s: Sys)
  {
    Roomy(s) && s.buffers != [] && (s.source.state == Pausing || (HasEndState(s.source) && Flowing(s))) ==> InFlight(s)
  }

  ghost predicate Data(s: Sys, extra: multiset<ID>)
  {
    Shape(s, extra) && Logs(s, 0, []) && Accounted(s, []) && |s.source.queue| <= s.source.capacity
  }

  ghost predicate Phase(s: Sys)
  {
    if HasEndState(s.source) then (Flowing(s) && s.shouldEndWhenDrained) || Over(s, multiset{})
    else Flowing(s) && !s.shouldEndWhenDrained
  }

  /** The invariant, but for EndingFlies, which fails between the last write and the end of its sink. */
  ghost predicate Inv0(s: Sys)
  {
    && Data(s, multiset{}) && SourceOk(s.source) && Phase(s) && Progress(s)
    && (s.source.state == CanRead || s.source.state == AsyncPushing ==> !HasPendingWrites(s))
    && (s.source.state == Pausing && !HasPendingWrites(s) ==> s.source.queue == [])
  }

  ghost predicate Inv(s: Sys)
  {
    Inv0(s) && EndingFlies(s)
  }
}
