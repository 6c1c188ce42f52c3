/** While no read fails, the source of a pipeline always has a read in flight when its state says that it is reading. */
module StreamReading {

  import opened Wrappers
  import opened StreamModel
  import opened StreamInvariant
  import opened StreamDispatch
  import opened StreamEnd

  predicate IsReading(c: Source)
  {
    c.state == AsyncReading || c.state == AsyncPushing
  }

  predicate ReadFlies(c: Source)
  {
    IsReading(c) ==> c.request == Active
  }

  /** What an operation does to the reads of the source: no read gets lost, and a started source stays started. */
  predicate GoesOn(c: Source, c': Source)
  {
    (ReadFlies(c) ==> ReadFlies(c')) && (c.state != CanRead ==> c'.state != CanRead)
  }

  // ------------------------------------------------------------------ What leaves the source alone

  lemma {:induction false} RemovingStays(s: Sys, i: nat)
    requires i <= |s.sinks|
    ensures RemoveListeners(s, i).source == s.source
    decreases |s.sinks| - i
  {
    if i < |s.sinks| {
      var k := s.sinks[i];
      if StillWriting(k) {
        RemovingStays(s, i + 1);
      } else {
        var s1 := s.(sinks := s.sinks[i := k.(listening := false)]);
        RemovingStays(Check(s1, k.listening, FinishListener), i + 1);
      }
    }
  }

  lemma FinishStays(s: Sys, i: nat)
    requires i < |s.sinks|
    ensures Finish(s, i).source == s.source
  {
    RemovingStays(s, 0);
    hide RemoveListeners, Unpipe, DestroySink;
  }

  lemma EndStays(s: Sys, i: nat)
    requires i < |s.sinks|
    ensures EndSink(s, i).source == s.source
  {
    FinishStays(s.(sinks := s.sinks[i := s.sinks[i].(state := WriteState.Ended)]), i);
    hide Finish;
  }

  lemma {:induction false} EndingStays(s: Sys, i: nat)
    requires i <= |s.sinks|
    ensures EndSinks(s, i).0.source == s.source
    decreases |s.sinks| - i
  {
    hide EndSink;
    if i < |s.sinks| {
      var k := s.sinks[i];
      var s1 := if StillWriting(k) then s.(sinks := s.sinks[i := k.(listening := true)]) else s;
      EndStays(s1, i);
      EndingStays(EndSink(s1, i), i + 1);
    }
  }

  // ------------------------------------------------------------------ Emitting

  predicate Stops(c: Source)
  {
    c.state == Pausing || c.state == Paused || (c.state == ReadState.Ended && c.queue != [])
  }

  lemma OnePauses(s: Sys)
    requires Emitting(s.source.state) && s.source.queue != []
    ensures var c := EmitOne(s).source;
            && (c.state == s.source.state || c.state == Pause(s).source.state)
            && (!Stops(c) ==> Emitting(c.state) && |c.queue| < |s.source.queue|)
  {
    var s0 := s.(source := s.source.(queue := s.source.queue[1..]));
    var s1 := Dispatch(s0, s.source.queue[0]);
    assert s1.source.queue == s0.source.queue || s1.source.state == Pause(s0).source.state;
    hide Dispatch;
  }

  /** The events of the source can only pause it. */
  lemma {:induction false} EmitPauses(s: Sys)
    requires Emitting(s.source.state)
    ensures EmitLoop(s).source.state == s.source.state || EmitLoop(s).source.state == Pause(s).source.state
    decreases |s.source.queue|
  {
    if s.source.queue != [] {
      OnePauses(s);
      var s1 := EmitOne(s);
      assert EmitLoop(s) == if Stops(s1.source) then s1 else EmitLoop(s1);
      hide EmitOne, EmitLoop, Dispatch;
      if !Stops(s1.source) {
        EmitPauses(s1);
      }
    }
  }

  lemma EmitOnly(s: Sys)
    requires Emitting(s.source.state) && s.source.state != ReadState.Ended
    ensures EmitOnData(s) == EmitLoop(s)
    ensures EmitOnData(s).source.state == s.source.state || EmitOnData(s).source.state == Pausing
    ensures EmitOnData(s).source.request == s.source.request
  {
    EmitPauses(s);
    hide EmitLoop;
  }

  // ------------------------------------------------------------------ Resuming and ending

  /** executeRead ends with a read in flight or with a paused source. */
  lemma ExecuteFlies(s: Sys)
    ensures var c := ExecuteRead(s).source;
            (c.state == AsyncReading && c.request == Active) || c.state == Pausing
  {
    var s1 := s.(source := s.source.(state := Reading));
    EmitOnly(s1);
    hide EmitOnData, FirstFree;
  }

  lemma ResumeGoesOn(s: Sys)
    ensures GoesOn(s.source, ResumeReading(s).source)
    ensures s.source.state == CanRead ==> ResumeReading(s).source.state != CanRead
    decreases if s.source.destroyed then 0 else 1, 5
  {
    hide ExecuteRead, EmitLoop, MaybeDestroyEnded;
    if s.source.state == ReadState.Ended {
      MaybeGoesOn(s);
      if s.source.queue != [] {
        MaybeGoesOn(EmitLoop(s));
      }
    } else {
      ExecuteFlies(s);
    }
  }

  lemma MaybeGoesOn(s: Sys)
    ensures GoesOn(s.source, MaybeDestroyEnded(s).source)
    decreases if s.source.destroyed then 0 else 1, 2
  {
    hide DestroySource;
    if s.source.state == ReadState.Ended && s.source.autoDestroy && !s.source.destroyed && s.source.queue == [] {
      DestroyGoesOn(s);
    }
  }

  lemma DestroyGoesOn(s: Sys)
    requires !s.source.destroyed && s.source.state == ReadState.Ended
    ensures GoesOn(s.source, DestroySource(s).source)
    decreases if s.source.destroyed then 0 else 1, 1
  {
    hide FinalizeDestruction, UnrefAll;
    var s1 := UnrefAll(s.(source := s.source.(queue := [])), s.source.queue);
    FinalizeGoesOn(s1.(source := s1.source.(state := ReadState.Destroying)));
  }

  lemma FinalizeGoesOn(s: Sys)
    requires !s.source.destroyed
    ensures GoesOn(s.source, FinalizeDestruction(s).source)
    decreases if s.source.destroyed then 0 else 1, 0
  {
    hide EndPipes, ReleaseBufferID;
    var s1 := ReleaseBufferID(s);
    EndGoesOn(s1.(source := s1.source.(state := ReadState.Ended, destroyed := true, request := Free)));
  }

  lemma EndGoesOn(s: Sys)
    ensures GoesOn(s.source, EndPipes(s).source)
    decreases if s.source.destroyed then 0 else 1, 6
  {
    hide ResumeReading, EndSinks, Unpipe, HasPendingWrites;
    if !s.endingPipes {
      if HasPendingWrites(s) || s.source.queue != [] {
        ResumeGoesOn(s.(shouldEndWhenDrained := true));
      } else {
        EndingStays(s.(endingPipes := true), 0);
      }
    }
  }

  /** pushEnd ends the source, or the source had ended or failed before. */
  lemma PushEndGoesOn(s: Sys)
    ensures if s.source.state in {ReadState.Stopped, ReadState.Ended, ReadState.Destroying, ReadState.Errored}
            then PushEnd(s) == s
            else ReadFlies(PushEnd(s).source) && PushEnd(s).source.state != CanRead
  {
    hide EndPipes, MaybeDestroyEnded;
    if !(s.source.state in {ReadState.Stopped, ReadState.Ended, ReadState.Destroying, ReadState.Errored}) {
      var s1 := s.(source := s.source.(state := ReadState.Ended));
      EndGoesOn(s1);
      MaybeGoesOn(if s1.piped then EndPipes(s1) else s1);
    }
  }

  // ------------------------------------------------------------------ Reads

  /** push leaves a source that was reading pushing, paused or failed. */
  lemma PushLeaves(s: Sys, b: ID, size: nat)
    requires size != 0
    ensures Push(s, b, size).0.source.state != AsyncReading
    ensures IsReading(Push(s, b, size).0.source) ==> Push(s, b, size).1
    ensures s.source.state != CanRead ==> Push(s, b, size).0.source.state != CanRead
    ensures s.source.state == Pausing ==> !IsReading(Push(s, b, size).0.source)
  {
    var s1 := SetSize(s, b, size);
    if |s1.source.queue| < s1.source.capacity {
      var s2 := Ref(s1.(source := s1.source.(queue := s1.source.queue + [b])), b);
      var s3 := s2.(accepted := s2.accepted + [Content(s2.buffers, b)]);
      hide Ref, SetSize, Content;
      QueuedLeaves(s3);
      hide PushQueued;
    }
  }

  lemma QueuedLeaves(s: Sys)
    ensures PushQueued(s).source.state != AsyncReading
    ensures s.source.state != CanRead ==> PushQueued(s).source.state != CanRead
    ensures s.source.state == Pausing ==> !IsReading(PushQueued(s).source)
  {
    hide EmitOnData, EmitLoop;
    if Emitting(s.source.state) && s.source.state != ReadState.Ended {
      EmitOnly(s);
      assert EmitOnData(s).source.state == s.source.state || EmitOnData(s).source.state == Pausing;
    }
  }

  lemma RearmFlies(s: Sys, more: bool)
    requires IsReading(s.source) ==> more && s.source.state != AsyncReading
    ensures var r := if more then
                       match FirstFree(s.buffers)
                       case None => Pause(s)
                       case Some(n) => Request(s, n).(source := s.source.(bufferID := Some(n), request := Active))
                     else s;
            ReadFlies(r.source) && (s.source.state != CanRead ==> r.source.state != CanRead)
  {
    hide FirstFree;
  }

  /** A read that brings data is followed by another one, or by a pause, or it does not fit. */
  lemma ReadGoesOn(s: Sys, data: Bytes)
    requires s.source.bufferID.Some? && data != []
    ensures ReadFlies(CompleteRead(s, data).source)
    ensures s.source.state != CanRead ==> CompleteRead(s, data).source.state != CanRead
  {
    var b := s.source.bufferID.value;
    var s1 := Fill(s, b, data).(source := s.source.(request := Free));
    hide Push, Fill;
    PushLeaves(s1, b, |data|);
    var (s2, more) := Push(s1, b, |data|);
    RearmFlies(if s2.source.destroyed then s2 else ReleaseBufferID(s2), more);
    hide FirstFree, ReleaseBufferID, Request, Pause, ReadFlies, IsReading;
  }

  /** A read without data is followed by none. */
  lemma EmptyReadStalls(s: Sys)
    requires s.source.bufferID.Some? && IsReading(s.source)
    ensures !ReadFlies(CompleteRead(s, []).source)
    ensures CompleteRead(s, []).source.state == s.source.state
  {
    hide Fill, FirstFree;
  }

  lemma ProduceGoesOn(s: Sys, data: Bytes)
    requires Enabled(s, Produce(data))
    ensures ReadFlies(Step(s, Produce(data)).source)
    ensures Step(s, Produce(data)).source.state != CanRead
  {
    var b := FirstFree(s.buffers).value;
    var s1 := Fill(Request(s, b), b, data);
    hide Push, Fill, FirstFree;
    if data != [] {
      PushLeaves(s1, b, |data|);
    } else {
      assert Push(s1, b, 0).0 == s1 by { PushNothing(s1, b); }
    }
  }

  lemma PushNothing(s: Sys, b: ID)
    ensures Push(s, b, 0) == (s, false)
  {
  }

  // ------------------------------------------------------------------ Writes

  lemma AfterGoesOn(s: Sys, b: ID)
    ensures GoesOn(s.source, AfterWrite(s, b).source)
  {
    var s1 := Retry(Unref(Check(s, s.piped, NoSource), b), 0);
    hide Retry, EndPipes, ResumeReading, HasPendingWrites;
    ResumeGoesOn(s1);
    EndGoesOn(s1.(shouldEndWhenDrained := false));
  }

  lemma WriteGoesOn(s: Sys, i: nat)
    requires i < |s.sinks| == |s.written| && s.sinks[i].writing.Some?
    ensures GoesOn(s.source, CompleteWrite(s, i).source)
  {
    var b := s.sinks[i].writing.value;
    var s1 := SetSink(s, i, s.sinks[i].(writing := None)).(
                written := s.written[i := s.written[i] + [Content(s.buffers, b)]]);
    FinishedGoesOn(Unref(s1, b), i, b);
    hide FinishedWriting, Content;
  }

  lemma FinishedGoesOn(s: Sys, i: nat, b: ID)
    requires i < |s.sinks|
    ensures GoesOn(s.source, FinishedWriting(s, i, b).source)
  {
    var s0 := StartNext(Check(s, StillWriting(s.sinks[i]), NotWriting), i);
    hide AfterWrite, Finish, StartFront;
    AfterGoesOn(s0, b);
    var s1 := AfterWrite(s0, b);
    if i < |s1.sinks| && s1.sinks[i].state == WriteState.Ended {
      FinishStays(s1, i);
    }
  }

  // ------------------------------------------------------------------ Steps and runs

  /** The read comes back with an error or without data. */
  predicate ComesBackEmpty(e: Event)
  {
    e.ReadError? || e == ReadData([])
  }

  lemma StepGoesOn(s: Sys, e: Event)
    requires Inv(s) && ReadFlies(s.source) && !(Enabled(s, e) && ComesBackEmpty(e))
    ensures ReadFlies(Step(s, e).source)
    ensures s.source.state != CanRead ==> Step(s, e).source.state != CanRead
  {
    hide Inv, CompleteRead, CompleteWrite, FinalizeDestruction, ResumeReading, PushEnd, ReleaseBufferID;
    if Enabled(s, e) {
      match e {
        case Start => ResumeGoesOn(s);
        case ReadData(data) => ReadGoesOn(s, data);
        case ReadEnd => PushEndGoesOn(ReleaseBufferID(s.(source := s.source.(request := Free))));
        case ReadCancelled => FinalizeGoesOn(s);
        case Produce(data) => ProduceGoesOn(s, data);
        case EndNow => PushEndGoesOn(s);
        case WriteDone(i) => WriteGoesOn(s, i);
        case ReadError =>
      }
    }
  }

  /** A source that is started has ended or will not be waiting to be started any more. */
  lemma StartStarts(s: Sys)
    requires Inv(s)
    ensures Step(s, Start).source.state != CanRead
  {
    assert HasEndState(s.source) || s.piped;
    hide ResumeReading, Inv;
    ResumeGoesOn(s);
  }

  lemma ActiveReads(s: Sys)
    requires Inv(s) && s.source.request == Active
    ensures IsReading(s.source)
  {
    assert SourceOk(s.source);
  }

  lemma StepStalls(s: Sys, e: Event)
    requires Inv(s) && Enabled(s, e) && ComesBackEmpty(e)
    ensures !ReadFlies(Step(s, e).source)
  {
    ActiveReads(s);
    hide Inv, CompleteRead, ReleaseBufferID;
    if e.ReadData? {
      EmptyReadStalls(s);
    }
  }

  /** A step loses the read in flight if and only if the read comes back with an error or without data: nothing else
      leaves a source that is reading without a read. */
  lemma StallExact(s: Sys, e: Event)
    requires Inv(s) && ReadFlies(s.source)
    ensures ReadFlies(Step(s, e).source) <==> !(Enabled(s, e) && ComesBackEmpty(e))
  {
    hide Inv, Step, ReadFlies, Enabled;
    if Enabled(s, e) && ComesBackEmpty(e) {
      StepStalls(s, e);
    } else {
      StepGoesOn(s, e);
    }
  }
}
