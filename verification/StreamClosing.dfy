/** A source that has ended and holds no more data is destroyed if it is to be destroyed automatically, and only
    then. */
module StreamClosing {

  import opened Wrappers
  import opened StreamModel
  import opened StreamInvariant
  import opened StreamEnd
  import opened StreamReading
  import opened StreamTheorems

  /** What is being destroyed is to be. */
  predicate Owned(c: Source)
  {
    c.destroyed || c.state == ReadState.Destroying ==> c.autoDestroy
  }

  predicate ClosedRight(c: Source)
  {
    Owned(c) && (c.state == ReadState.Ended && c.queue == [] && c.autoDestroy ==> c.destroyed)
  }

  /** What an operation does to that. */
  predicate Closes(c: Source, c': Source)
  {
    && (ClosedRight(c) ==> ClosedRight(c')) && (Owned(c) ==> Owned(c'))
    && (c.destroyed ==> c'.destroyed) && c'.autoDestroy == c.autoDestroy
  }

  // ------------------------------------------------------------------ Ending and destroying

  lemma EmittedSame(s: Sys)
    requires Emitting(s.source.state) && s.source.state != ReadState.Ended
    ensures var c := EmitOnData(s).source; c.destroyed == s.source.destroyed && c.autoDestroy == s.source.autoDestroy
  {
    EmitOnly(s);
    hide EmitOnData;
  }

  lemma ExecuteCloses(s: Sys)
    ensures var c := ExecuteRead(s).source;
            c.state != ReadState.Ended && c.state != ReadState.Destroying && Closes(s.source, c)
  {
    ExecuteFlies(s);
    ExecuteSame(s);
    hide ExecuteRead;
  }

  lemma ExecuteSame(s: Sys)
    ensures var c := ExecuteRead(s).source; c.destroyed == s.source.destroyed && c.autoDestroy == s.source.autoDestroy
  {
    var s1 := s.(source := s.source.(state := Reading));
    EmittedSame(s1);
    hide EmitOnData, AsyncRead;
    ReadSame(if s1.source.queue != [] then EmitOnData(s1) else s1);
  }

  lemma ReadSame(s: Sys)
    ensures var c := AsyncRead(s).source; c.destroyed == s.source.destroyed && c.autoDestroy == s.source.autoDestroy
  {
    hide FirstFree;
  }

  lemma ResumeCloses(s: Sys)
    ensures Closes(s.source, ResumeReading(s).source)
    decreases if s.source.destroyed then 0 else 1, 5
  {
    hide ExecuteRead, EmitLoop, MaybeDestroyEnded;
    if s.source.state == ReadState.Ended {
      MaybeCloses(s);
      if s.source.queue != [] {
        MaybeCloses(EmitLoop(s));
      }
    } else {
      ExecuteCloses(s);
    }
  }

  /** maybeDestroyEnded makes it right, whatever it was before. */
  lemma MaybeCloses(s: Sys)
    ensures var c := MaybeDestroyEnded(s).source;
            Closes(s.source, c) && (Owned(s.source) ==> ClosedRight(c))
    decreases if s.source.destroyed then 0 else 1, 2
  {
    hide DestroySource;
    if s.source.state == ReadState.Ended && s.source.autoDestroy && !s.source.destroyed && s.source.queue == [] {
      DestroyCloses(s);
    }
  }

  lemma DestroyCloses(s: Sys)
    requires !s.source.destroyed && s.source.state == ReadState.Ended && s.source.autoDestroy
    ensures var c := DestroySource(s).source; ClosedRight(c) && c.autoDestroy
    decreases if s.source.destroyed then 0 else 1, 1
  {
    hide FinalizeDestruction, UnrefAll;
    var s1 := UnrefAll(s.(source := s.source.(queue := [])), s.source.queue);
    FinalizeCloses(s1.(source := s1.source.(state := ReadState.Destroying)));
  }

  lemma FinalizeCloses(s: Sys)
    requires !s.source.destroyed
    ensures Closes(s.source, FinalizeDestruction(s).source)
    ensures s.source.state == ReadState.Destroying ==> FinalizeDestruction(s).source.destroyed
    decreases if s.source.destroyed then 0 else 1, 0
  {
    hide EndPipes, ReleaseBufferID;
    var s1 := ReleaseBufferID(s);
    EndCloses(s1.(source := s1.source.(state := ReadState.Ended, destroyed := true, request := Free)));
  }

  lemma EndCloses(s: Sys)
    ensures Closes(s.source, EndPipes(s).source)
    decreases if s.source.destroyed then 0 else 1, 6
  {
    hide ResumeReading, EndSinks, Unpipe, HasPendingWrites;
    if !s.endingPipes {
      if HasPendingWrites(s) || s.source.queue != [] {
        ResumeCloses(s.(shouldEndWhenDrained := true));
      } else {
        EndingStays(s.(endingPipes := true), 0);
      }
    }
  }

  lemma PushEndCloses(s: Sys)
    requires ClosedRight(s.source)
    ensures ClosedRight(PushEnd(s).source)
  {
    hide EndPipes, MaybeDestroyEnded;
    var s1 := s.(source := s.source.(state := ReadState.Ended));
    EndCloses(s1);
    MaybeCloses(if s1.piped then EndPipes(s1) else s1);
  }

  // ------------------------------------------------------------------ Reads and writes

  lemma QueuedCloses(s: Sys)
    requires s.source.state == AsyncReading || s.source.state == AsyncPushing || s.source.state == Pausing
    ensures var c := PushQueued(s).source;
            c.state != ReadState.Ended && c.state != ReadState.Destroying && Closes(s.source, c)
  {
    hide EmitOnData, EmitLoop;
    EmitOnly(s);
    EmittedSame(s);
  }

  lemma PushCloses(s: Sys, b: ID, size: nat)
    requires s.source.state == AsyncReading || s.source.state == AsyncPushing || s.source.state == Pausing
    ensures var c := Push(s, b, size).0.source;
            c.state != ReadState.Ended && c.state != ReadState.Destroying && Closes(s.source, c)
  {
    var s1 := SetSize(s, b, size);
    if |s1.source.queue| < s1.source.capacity {
      var s2 := Ref(s1.(source := s1.source.(queue := s1.source.queue + [b])), b);
      var s3 := s2.(accepted := s2.accepted + [Content(s2.buffers, b)]);
      hide Ref, SetSize, Content;
      QueuedCloses(s3);
      hide PushQueued;
    }
  }

  lemma ReadCloses(s: Sys, data: Bytes)
    requires s.source.bufferID.Some? && IsReading(s.source)
    ensures Closes(s.source, CompleteRead(s, data).source)
  {
    var b := s.source.bufferID.value;
    var s1 := Fill(s, b, data).(source := s.source.(request := Free));
    hide Push, Fill;
    PushCloses(s1, b, |data|);
    var (s2, more) := Push(s1, b, |data|);
    RearmSame(if s2.source.destroyed then s2 else ReleaseBufferID(s2), more);
    hide FirstFree, ReleaseBufferID, Request, Pause;
  }

  lemma RearmSame(s: Sys, more: bool)
    requires s.source.state != ReadState.Ended && s.source.state != ReadState.Destroying
    ensures var r := if more then
                       match FirstFree(s.buffers)
                       case None => Pause(s)
                       case Some(n) => Request(s, n).(source := s.source.(bufferID := Some(n), request := Active))
                     else s;
            && r.source.state != ReadState.Ended && r.source.state != ReadState.Destroying
            && r.source.destroyed == s.source.destroyed && r.source.autoDestroy == s.source.autoDestroy
  {
    hide FirstFree;
  }

  lemma ProduceCloses(s: Sys, data: Bytes)
    requires Enabled(s, Produce(data))
    ensures Closes(s.source, Step(s, Produce(data)).source)
  {
    var b := FirstFree(s.buffers).value;
    PushCloses(Fill(Request(s, b), b, data), b, |data|);
    hide Push, Fill, FirstFree;
  }

  lemma AfterCloses(s: Sys, b: ID)
    ensures Closes(s.source, AfterWrite(s, b).source)
  {
    var s1 := Retry(Unref(Check(s, s.piped, NoSource), b), 0);
    hide Retry, EndPipes, ResumeReading, HasPendingWrites;
    ResumeCloses(s1);
    EndCloses(s1.(shouldEndWhenDrained := false));
  }

  lemma WriteCloses(s: Sys, i: nat)
    requires i < |s.sinks| == |s.written| && s.sinks[i].writing.Some?
    ensures Closes(s.source, CompleteWrite(s, i).source)
  {
    var b := s.sinks[i].writing.value;
    var s1 := SetSink(s, i, s.sinks[i].(writing := None)).(
                written := s.written[i := s.written[i] + [Content(s.buffers, b)]]);
    FinishedCloses(Unref(s1, b), i, b);
    hide FinishedWriting, Content;
  }

  lemma FinishedCloses(s: Sys, i: nat, b: ID)
    requires i < |s.sinks|
    ensures Closes(s.source, FinishedWriting(s, i, b).source)
  {
    var s0 := StartNext(Check(s, StillWriting(s.sinks[i]), NotWriting), i);
    hide AfterWrite, Finish, StartFront;
    AfterCloses(s0, b);
    var s1 := AfterWrite(s0, b);
    if i < |s1.sinks| && s1.sinks[i].state == WriteState.Ended {
      FinishStays(s1, i);
    }
  }

  // ------------------------------------------------------------------ Steps and runs

  lemma StepCloses(s: Sys, e: Event)
    requires Inv(s) && ClosedRight(s.source)
    ensures ClosedRight(Step(s, e).source)
  {
    if Enabled(s, e) && s.source.request == Active {
      ActiveReads(s);
    }
    hide Inv, CompleteRead, CompleteWrite, FinalizeDestruction, ResumeReading, PushEnd, ReleaseBufferID, Push;
    if Enabled(s, e) {
      match e {
        case Start => ResumeCloses(s);
        case ReadData(data) => ReadCloses(s, data);
        case ReadEnd => PushEndCloses(ReleaseBufferID(s.(source := s.source.(request := Free))));
        case ReadCancelled => FinalizeCloses(s);
        case Produce(data) => ProduceCloses(s, data);
        case EndNow => PushEndCloses(s);
        case WriteDone(i) => WriteCloses(s, i);
        case ReadError =>
      }
    }
  }

  lemma {:induction false} RunCloses(s: Sys, events: seq<Event>)
    requires Inv(s) && ClosedRight(s.source)
    ensures ClosedRight(Run(s, events).source)
    decreases |events|
  {
    hide Inv, Step, ClosedRight;
    if events != [] {
      StepKeeps(s, events[0]);
      StepCloses(s, events[0]);
      RunCloses(Step(s, events[0]), events[1..]);
    }
  }

  /** Over every run: a source that has ended, and whose data is all gone, has been destroyed if and only if it is to be
      destroyed automatically; and no other is ever destroyed. */
  lemma EndedIsDestroyed(s: Sys, events: seq<Event>)
    requires Initial(s)
    ensures var c := Run(s, events).source;
            && (c.state == ReadState.Ended && c.queue == [] ==> (c.destroyed <==> c.autoDestroy))
            && (c.destroyed || c.state == ReadState.Destroying ==> c.autoDestroy)
  {
    StartsInvariant(s);
    hide Run, Inv;
    RunCloses(s, events);
  }
}
