/** Where a promise of the library needs a condition, and where an assertion of it fails. */
module StreamLimits {

  import opened Wrappers
  import opened StreamModel
  import opened StreamInvariant
  import opened StreamProofs
  import opened StreamDispatch
  import opened StreamEnd
  import opened StreamSteps
  import opened StreamWrites
  import opened StreamReads
  import opened StreamTheorems

  // ------------------------------------------------------------------ The listener of eventFinish

  /** Some sink other than i has stopped writing. */
  predicate OtherDone(s: Sys, i: nat)
  {
    exists l :: 0 <= l < |s.sinks| && l != i && !StillWriting(s.sinks[l])
  }

  lemma HeardFails(s: Sys, i: nat)
    requires i < |s.sinks| && JustFinished(s, i) && Closing(s) && !HasPendingWrites(s)
    ensures AfterSinkEnd(s).failed == s.failed + (if OtherDone(s, i) then {FinishListener} else {})
    ensures AfterSinkEnd(s).sinks[i].state == WriteState.Ended
  {
    RemoveForm(s, 0);
    var r := RemoveListeners(s, 0);
    SamePending(s, r);
    UnpipeForm(r);
    hide RemoveListeners, Unpipe, HasPendingWrites;
  }

  lemma FinishFails(s: Sys, i: nat)
    requires i < |s.sinks| && JustFinished(s, i) && Closing(s) && !HasPendingWrites(s) && SinkOk(s.sinks[i])
    ensures Finish(s, i).failed == s.failed + (if OtherDone(s, i) then {FinishListener} else {})
    ensures Finish(s, i).piped == Finish(s, i).endingPipes == InFlight(s)
  {
    HeardFails(s, i);
    HeardForm(s);
    hide AfterSinkEnd, HasPendingWrites, AutoDestroySink, InFlight, OtherDone;
    AutoDestroyForm(AfterSinkEnd(s), i);
  }

  /** The last write of sink i is about to complete after the pipeline has told it to end. */
  predicate LastWrite(s: Sys, i: nat)
    requires i < |s.sinks|
  {
    s.sinks[i].state == Ending && s.sinks[i].queue == []
  }

  lemma LastWriteFinishes(s: Sys, r: Sys, i: nat)
    requires Inv(s) && i < |s.sinks| && s.sinks[i].writing.Some? && Completed(s, r, i)
    requires LastWrite(s, i)
    ensures JustFinished(r, i) && Over(r, multiset{}) && Closing(r) && s.endingPipes
    ensures OtherDone(r, i) == OtherDone(s, i)
  {
    assert !Open(s.sinks[i]) && !Open(Next(s.sinks[i]));
    OverStays(s, r, i);
    hide Shape, HasPendingWrites, Logs, Accounted, Contents;
  }

  lemma NotLastWrite(s: Sys, r: Sys, i: nat)
    requires i < |s.sinks| && Completed(s, r, i) && !LastWrite(s, i) && s.sinks[i].writing.Some? && SinkOk(s.sinks[i])
    ensures r.sinks[i].state != WriteState.Ended
  {
  }

  /** Exactly when the completion of a write breaks the assertion of afterSinkEnd, or closes the pipeline. */
  lemma DoneFails(s: Sys, i: nat)
    requires Inv(s) && i < |s.sinks| && s.sinks[i].writing.Some?
    ensures var s' := CompleteWrite(s, i);
            && s'.failed == s.failed + (if LastWrite(s, i) && OtherDone(s, i) then {FinishListener} else {})
            && (s.endingPipes ==> s'.piped == s'.endingPipes)
            && (s.endingPipes && !s'.piped ==>
                  LastWrite(s, i) && !exists l :: 0 <= l < |s.sinks| && l != i && StillWriting(s.sinks[l]))
  {
    var b := s.sinks[i].writing.value;
    var r := Retry(Released(s, i, b), 0);
    Completes(s, i, b);
    CompletesPhase(s, r, i);
    Answers(r);
    FinishedForm(s, SetSink(s, i, s.sinks[i].(writing := None)).(written := Taken(s, i, b).written), i, b);
    hide Retry, Released, Answer, Inv, Inv0, FinishedWriting, EndingFlies, Roomy, Finish, Answerable, OtherDone,
        LastWrite, Completed;
    DoneFailsForm(s, r, Answer(r), i);
  }

  lemma DoneFailsForm(s: Sys, r: Sys, s3: Sys, i: nat)
    requires Inv(s) && i < |s.sinks| == |r.sinks| == |s3.sinks| && s.sinks[i].writing.Some? && Completed(s, r, i)
    requires Settled(r, s3) && (EndingFlies(r) || JustFinished(r, i))
    ensures var s' := if s3.sinks[i].state == WriteState.Ended then Finish(s3, i) else s3;
            && s'.failed == s.failed + (if LastWrite(s, i) && OtherDone(s, i) then {FinishListener} else {})
            && (s.endingPipes ==> s'.piped == s'.endingPipes)
            && (s.endingPipes && !s'.piped ==>
                  LastWrite(s, i) && !exists l :: 0 <= l < |s.sinks| && l != i && StillWriting(s.sinks[l]))
  {
    if LastWrite(s, i) {
      LastWriteFinishes(s, r, i);
      LastFails(s, r, s3, i);
    } else {
      assert SinkOk(s.sinks[i]);
      NotLastWrite(s, r, i);
      OthersFail(s, r, s3, i);
    }
  }

  lemma LastFails(s: Sys, r: Sys, s3: Sys, i: nat)
    requires i < |s.sinks| == |r.sinks| == |s3.sinks| && Completed(s, r, i) && Settled(r, s3)
    requires JustFinished(r, i) && Over(r, multiset{}) && OtherDone(r, i) == OtherDone(s, i)
    ensures s3.sinks[i].state == WriteState.Ended
    ensures Finish(s3, i).failed == s.failed + (if OtherDone(s, i) then {FinishListener} else {})
    ensures Finish(s3, i).piped == Finish(s3, i).endingPipes
    ensures !Finish(s3, i).piped ==> !exists l :: 0 <= l < |s.sinks| && l != i && StillWriting(s.sinks[l])
  {
    FinishedOver(s3, i);
    assert SinkOk(s3.sinks[i]);
    if l :| 0 <= l < |s.sinks| && l != i && StillWriting(s.sinks[l]) {
      assert StillWriting(s3.sinks[l]);
    }
    hide Shape, HasPendingWrites, Logs, Accounted, Finish, SinkOk, Progress, SourceOk;
    FinishFails(s3, i);
  }

  lemma OthersFail(s: Sys, r: Sys, s3: Sys, i: nat)
    requires Inv(s) && i < |s.sinks| == |r.sinks| == |s3.sinks| && Completed(s, r, i) && s.sinks[i].writing.Some?
    requires Settled(r, s3) && EndingFlies(r)
    ensures var s' := if s3.sinks[i].state == WriteState.Ended then Finish(s3, i) else s3;
            s'.failed == s.failed && (s.endingPipes ==> s'.piped && s'.endingPipes)
  {
    assert SinkOk(s.sinks[i]);
    OverFlows(s);
    if s.endingPipes { OverStays(s, r, i); }
    hide Over, Inv0, AutoDestroySink;
  }

  // ------------------------------------------------------------------ Which assertions hold

  /** In every reachable state every release assertion has held, except possibly the one that
      afterSinkEnd makes about its listeners. */
  lemma AssertionsHold(s: Sys, events: seq<Event>, a: Assertion)
    requires Initial(s) && a in Run(s, events).failed
    ensures a == FinishListener
  {
    RunInvariant(s, events);
    hide Run, Initial;
  }

  /** That one breaks exactly when a sink finishes its last write, after the pipeline has told it to end,
      while another sink has already stopped writing. */
  lemma ListenerAssertion(s: Sys, events: seq<Event>, e: Event)
    requires Initial(s)
    ensures var r := Run(s, events);
            FinishListener in Step(r, e).failed <==>
              || FinishListener in r.failed
              || (e.WriteDone? && Enabled(r, e) && LastWrite(r, e.sink) && OtherDone(r, e.sink))
  {
    RunInvariant(s, events);
    var r := Run(s, events);
    StepKeeps(r, e);
    hide Inv, Run, Initial, CompleteWrite, LastWrite, OtherDone;
    if e.WriteDone? && Enabled(r, e) {
      DoneFails(r, e.sink);
    }
  }

  lemma OneSinkAlone(s: Sys, i: nat)
    requires |s.sinks| == 1 && i < |s.sinks|
    ensures !OtherDone(s, i)
  {
  }

  /** A pipeline with one sink breaks none. */
  lemma {:induction false} OneSinkAsserts(s: Sys, events: seq<Event>)
    requires Inv(s) && |s.sinks| == 1
    ensures Run(s, events).failed == s.failed
    decreases |events|
  {
    if events != [] {
      OneSinkSteps(s, events[0]);
      hide Inv, Step;
      OneSinkAsserts(Step(s, events[0]), events[1..]);
    }
  }

  lemma OneSinkSteps(s: Sys, e: Event)
    requires Inv(s) && |s.sinks| == 1
    ensures Inv(Step(s, e)) && Step(s, e).failed == s.failed
  {
    hide Inv, CompleteWrite, LastWrite, OtherDone;
    StepKeeps(s, e);
    if e.WriteDone? && Enabled(s, e) {
      OneSinkAlone(s, e.sink);
      DoneFails(s, e.sink);
    }
  }

  lemma OneSinkIsSafe(s: Sys, events: seq<Event>)
    requires Initial(s) && |s.sinks| == 1
    ensures Run(s, events).failed == {}
  {
    StartsInvariant(s);
    hide Inv;
    OneSinkAsserts(s, events);
  }

  /** A pipeline with more that is ended while a write is in flight always breaks it, once its writes complete. */
  lemma FanOutBreaks(s: Sys, events: seq<Event>, completions: seq<Event>)
    requires Initial(s) && |s.sinks| >= 2 && Run(s, events).endingPipes
    requires CompletionsOnly(Run(s, events), completions) && !WriteInFlight(Run(Run(s, events), completions))
    ensures FinishListener in Run(Run(s, events), completions).failed
  {
    RunInvariant(s, events);
    hide Inv, Initial, CompletionsOnly, WriteInFlight;
    FanOutEnds(Run(s, events), completions);
  }

  lemma {:induction false} FanOutEnds(s: Sys, completions: seq<Event>)
    requires Inv(s) && |s.sinks| >= 2 && CompletionsOnly(s, completions) && !WriteInFlight(Run(s, completions))
    requires s.endingPipes || FinishListener in s.failed
    ensures FinishListener in Run(s, completions).failed
    decreases |completions|
  {
    if completions == [] {
      assert InFlight(s) || !s.endingPipes;
      FlyingWrites(s);
    } else {
      var i := completions[0].sink;
      StepKeeps(s, completions[0]);
      DoneFails(s, i);
      AllDone(s, i);
      hide Inv, CompleteWrite, LastWrite, OtherDone, WriteInFlight;
      FanOutEnds(Step(s, completions[0]), completions[1..]);
    }
  }

  lemma AllDone(s: Sys, i: nat)
    requires i < |s.sinks| && |s.sinks| >= 2
    ensures OtherDone(s, i) || exists l :: 0 <= l < |s.sinks| && l != i && StillWriting(s.sinks[l])
  {
    var l := if i == 0 then 1 else 0;
    assert !StillWriting(s.sinks[l]) || StillWriting(s.sinks[l]);
  }

  // ------------------------------------------------------------------ The first buffer of a run

  lemma WriteFrame(s: Sys, i: nat, b: ID)
    requires i < |s.sinks|
    ensures forall l :: 0 <= l < |s.sinks| && l != i ==> Write(s, i, b).0.sinks[l] == s.sinks[l]
  {
    hide CanAcceptWrite, Unref;
  }

  lemma {:induction false} DispatchSkips(s: Sys, b: ID, i: nat, l: nat)
    requires i <= |s.sinks| && l < |s.sinks| && s.sinks[l].capacity == 0
    ensures DispatchFrom(s, b, i).sinks[l] == s.sinks[l]
    decreases |s.sinks| - i
  {
    if i < |s.sinks| {
      WriteSkips(s, b, i, l);
      hide AsyncWriteWritable;
      DispatchSkips(AsyncWriteWritable(s, b, i), b, i + 1, l);
    }
  }

  lemma WriteSkips(s: Sys, b: ID, i: nat, l: nat)
    requires i < |s.sinks| && l < |s.sinks| && s.sinks[l].capacity == 0
    ensures AsyncWriteWritable(s, b, i).sinks[l] == s.sinks[l]
  {
    WriteFrame(Ref(s, b), i, b);
    hide FindSlot, HasPendingWrites, Write;
  }

  predicate AllAccept(s: Sys, i: nat)
  {
    forall l :: i <= l < |s.sinks| ==> CanAcceptWrite(s.sinks[l])
  }

  lemma {:induction false} DispatchFits(s: Sys, b: ID, i: nat)
    requires i <= |s.sinks| && AllAccept(s, i)
    ensures DispatchFrom(s, b, i).slots == s.slots
    decreases |s.sinks| - i
  {
    if i < |s.sinks| {
      WriteFits(s, b, i);
      hide AsyncWriteWritable;
      DispatchFits(AsyncWriteWritable(s, b, i), b, i + 1);
    }
  }

  lemma WriteFits(s: Sys, b: ID, i: nat)
    requires i < |s.sinks| && AllAccept(s, i)
    ensures var s' := AsyncWriteWritable(s, b, i); s'.slots == s.slots && AllAccept(s', i + 1)
  {
    WriteFrame(Ref(s, b), i, b);
    hide Write;
  }

  /** A single queued buffer is dispatched. */
  lemma EmitsSingle(s: Sys, extra: multiset<ID>)
    requires Going(s, extra, []) && |s.source.queue| == 1 && !HasPendingWrites(s)
    requires Emitting(s.source.state)
    ensures EmitLoop(s) == EmitOne(s) && EmitOne(s).source.queue == []
  {
    EmitsRound(s, extra);
    hide EmitOne, Going, HasPendingWrites;
    assert s.source.queue[1..] == [];
  }

  /** The sinks and the slots after the buffer has gone round. */
  lemma EmitOneForm(s: Sys)
    requires |s.source.queue| == 1 && !HasPendingWrites(s) && s.piped
    ensures var b := s.source.queue[0];
            var s0 := s.(source := s.source.(queue := s.source.queue[1..]),
                dispatched := s.dispatched + [Content(s.buffers, b)]);
            EmitOne(s).sinks == DispatchFrom(s0, b, 0).sinks && EmitOne(s).slots == DispatchFrom(s0, b, 0).slots
  {
    var s0 := s.(source := s.source.(queue := s.source.queue[1..]));
    SamePending(s, s0);
    hide HasPendingWrites, Content, DispatchFrom;
  }

  /** A pipeline that can take a first byte. */
  predicate CanBegin(s: Sys)
  {
    s.buffers != [] && |s.buffers[0].store| > 0 && s.source.capacity > 0
  }

  lemma StartForm(s: Sys)
    requires Initial(s) && CanBegin(s)
    ensures Step(s, Start) ==
            Request(s, 0).(source := s.source.(state := AsyncReading, bufferID := Some(0), request := Active))
  {
    assert s.buffers[0].refs == 0;
    var s1 := s.(source := s.source.(state := Reading));
    var s2 := Request(s1, 0).(source := s1.source.(bufferID := Some(0), request := Active));
    assert FirstFree(s1.buffers) == Some(0);
    assert AsyncRead(s1) == s2;
    hide AsyncRead, EmitOnData, Request;
    assert ExecuteRead(s) == s2.(source := s2.source.(state := AsyncReading));
  }

  /** The state in which emitOnData sends the first byte. */
  function FirstQueued(s: Sys): Sys
  {
    Queued(SetSize(Fill(s.(source := s.source.(request := Free)), 0, "x"), 0, 1), 0)
  }

  lemma FirstGoing(s: Sys)
    requires Inv(s) && Enabled(s, ReadData("x")) && s.source.bufferID == Some(0) && s.source.capacity > 0
    ensures var q := FirstQueued(s);
            && Data(q, multiset{}) && Flowing(q) && q.source == s.source.(request := Free, queue := [0])
            && q.sinks == s.sinks && q.slots == s.slots && q.piped == s.piped
  {
    var s0 := s.(source := s.source.(request := Free));
    ReadRests(s);
    Fills(s0, 0, "x", multiset{});
    var s1 := Fill(s0, 0, "x");
    hide Data, Flowing, Roomy, InFlight, HasPendingWrites, Fill, SetSize, Queued, Inv, Stored;
    RestedSame(s0, s1, multiset{}, multiset{});
    Sizes(s1, 0, 1, multiset{});
    Queues(SetSize(s1, 0, 1), 0, multiset{});
  }

  lemma FirstPushForm(s: Sys)
    requires s.source.bufferID == Some(0) && s.source.capacity > 0 && s.source.queue == []
    ensures Push(Fill(s.(source := s.source.(request := Free)), 0, "x"), 0, 1).0 == PushQueued(FirstQueued(s))
  {
    PushForm(Fill(s.(source := s.source.(request := Free)), 0, "x"), 0, 1);
    hide Push, PushQueued, Queued;
  }

  lemma ReleaseFrame(s: Sys)
    ensures ReleaseBufferID(s).sinks == s.sinks && ReleaseBufferID(s).slots == s.slots
    ensures var r := Rearm(s);
            && r.sinks == s.sinks && r.slots == s.slots && r.source.queue == s.source.queue
            && (r.source.state == s.source.state || r.source.state == Pause(s).source.state)
  {
  }

  lemma FirstRead(s: Sys)
    requires Inv(s) && Enabled(s, ReadData("x")) && s.source.bufferID == Some(0) && s.source.capacity > 0
    requires s.source.state == AsyncReading && !HasPendingWrites(s)
    ensures var r := CompleteRead(s, "x");
            var q := FirstQueued(s);
            && r.sinks == EmitOne(q).sinks && r.slots == EmitOne(q).slots && r.source.queue == []
            && (r.source.state == AsyncPushing || r.source.state == Pausing)
  {
    var q := FirstQueued(s);
    FirstGoing(s);
    GoingData(q, multiset{});
    SamePending(s, q);
    assert SourceOk(s.source);
    hide Data, Flowing, Going, HasPendingWrites, EmitLoop, Queued, Fill, SetSize, Inv, PushQueued, EmitOne,
        CompleteRead, Push;
    hide ReleaseBufferID, Rearm, FirstQueued;
    Emits(q, multiset{});
    EmitsSingle(q, multiset{});
    FirstEmitted(s, q);
  }

  lemma FirstEmitted(s: Sys, q: Sys)
    requires s.source.bufferID == Some(0) && s.source.capacity > 0 && s.source.queue == [] && !s.source.destroyed
    requires q == FirstQueued(s) && q.source == s.source.(request := Free, queue := [0]) &&
             s.source.state == AsyncReading
    requires EmitLoop(q) == EmitOne(q) && EmitOne(q).source.queue == [] && Emitted(q, EmitLoop(q), multiset{})
    ensures var r := CompleteRead(s, "x");
            && r.sinks == EmitOne(q).sinks && r.slots == EmitOne(q).slots && r.source.queue == []
            && (r.source.state == AsyncPushing || r.source.state == Pausing)
  {
    hide HasPendingWrites, EmitLoop, Queued, Fill, SetSize, CompleteRead, Push, Going, Rearm, ReleaseBufferID,
        FirstQueued, EmitOne;
    hide PushQueued, InFlight, Roomy, Emitted;
    FirstPushed(q);
    FirstPushForm(s);
    FirstTail(s, PushQueued(q));
  }

  lemma FirstPushed(q: Sys)
    requires q.source.queue == [0] && q.source.state == AsyncReading && !q.source.destroyed
    requires EmitLoop(q) == EmitOne(q) && EmitOne(q).source.queue == [] && Emitted(q, EmitLoop(q), multiset{})
    ensures var p := PushQueued(q);
            && p.sinks == EmitOne(q).sinks && p.slots == EmitOne(q).slots && p.source.queue == []
            && (p.source.state == AsyncPushing || p.source.state == Pausing) &&
                  p.source.destroyed == EmitOne(q).source.destroyed
  {
    PushQueuedForm(q);
    hide HasPendingWrites, EmitLoop, Going, EmitOne, PushQueued, InFlight, Roomy;
  }

  lemma FirstTail(s: Sys, p: Sys)
    requires s.source.bufferID == Some(0)
    requires Push(Fill(s.(source := s.source.(request := Free)), 0, "x"), 0, 1).0 == p && !p.source.destroyed
    requires p.source.queue == [] && (p.source.state == AsyncPushing || p.source.state == Pausing)
    ensures var r := CompleteRead(s, "x");
            && r.sinks == p.sinks && r.slots == p.slots && r.source.queue == []
            && (r.source.state == AsyncPushing || r.source.state == Pausing)
  {
    hide Fill, CompleteRead, Push, Rearm, ReleaseBufferID;
    ReadForm(s, "x");
    ReleaseFrame(p);
    ReleaseFrame(ReleaseBufferID(p));
  }

  /** The events that bring a first byte to the sinks. */
  const FIRST: seq<Event> := [Start, ReadData("x")]

  lemma RunTwo(s: Sys, e: Event, e': Event)
    ensures Run(s, [e, e']) == Step(Step(s, e), e')
  {
    RunAppend(s, [e], e');
    assert [e] + [e'] == [e, e'];
    RunAppend(s, [], e);
    assert [] + [e] == [e];
    hide Step;
  }

  lemma FirstHistory(s: Sys)
    requires Initial(s) && CanBegin(s)
    ensures var s1 := Step(s, Start);
            && Inv(s1) && Enabled(s1, ReadData("x")) && s1.source.bufferID == Some(0) && s1.source.capacity > 0
            && s1.source.state == AsyncReading && !HasPendingWrites(s1)
            && s1.sinks == s.sinks && s1.slots == s.slots && s1.piped
            && s1.accepted == [] && s1.written == s.written
            && Run(s, FIRST) == CompleteRead(s1, "x")
  {
    StartForm(s);
    StartsInvariant(s);
    StepKeeps(s, Start);
    RunTwo(s, Start, ReadData("x"));
    hide Inv, CompleteRead, Run, Good;
  }

  /** The first byte reaches every sink. */
  lemma FirstRun(s: Sys) returns (t: Sys)
    requires Initial(s) && CanBegin(s)
    ensures t.sinks == s.sinks && t.slots == s.slots
    ensures var r := Run(s, FIRST);
            && Inv(r) && Roomy(r) == Roomy(s)
            && r.dispatched == r.accepted == ["x"] && r.written == s.written
            && r.sinks == DispatchFrom(t, 0, 0).sinks && r.slots == DispatchFrom(t, 0, 0).slots
            && r.source.queue == [] && (r.source.state == AsyncPushing || r.source.state == Pausing)
  {
    hide Inv, Run, Initial, HasPendingWrites, CompleteRead, EmitOne, DispatchFrom, Content, FirstQueued, Data,
        Flowing, Roomy, FIRST;
    FirstHistory(s);
    RunInvariant(s, FIRST);
    var s1 := Step(s, Start);
    hide Step;
    StepReads(s1);
    var q := FirstQueued(s1);
    FirstGoing(s1);
    SamePending(s1, q);
    assert Flowing(q) && q.piped;
    t := q.(source := q.source.(queue := q.source.queue[1..]),
        dispatched := q.dispatched + [Content(q.buffers, q.source.queue[0])]);
    FirstRead(s1);
    EmitOneForm(q);
    DrainedDispatched(CompleteRead(s1, "x"));
  }

  lemma StepReads(s: Sys)
    requires Enabled(s, ReadData("x")) && s.source.capacity > 0 && s.source.state == AsyncReading && Inv(s)
    ensures CompleteRead(s, "x").accepted == s.accepted + ["x"] && CompleteRead(s, "x").written == s.written
  {
    StepHistory(s, ReadData("x"));
    assert SourceOk(s.source);
    hide CompleteRead, Inv;
  }

  lemma DrainedDispatched(r: Sys)
    requires Inv(r) && r.source.queue == []
    ensures r.dispatched == r.accepted
  {
    assert r.dispatched + [] + [] == r.accepted;
  }

  // ------------------------------------------------------------------ Room is needed

  /** How many writes may still complete. */
  function Outstanding(s: Sys): int
  {
    |s.sinks| * |s.accepted| - Total(s.written)
  }

  lemma OneCompletes(s: Sys, i: nat)
    requires Inv(s) && i < |s.sinks| && s.sinks[i].writing.Some?
    ensures var e := WriteDone(i);
            Enabled(s, e) && Inv(Step(s, e)) && 0 <= Outstanding(Step(s, e)) < Outstanding(s)
  {
    var e := WriteDone(i);
    StepKeeps(s, e);
    StepHistory(s, e);
    TotalGrows(s.written, i, Content(s.buffers, s.sinks[i].writing.value));
    WrittenBound(Step(s, e));
    assert Enabled(s, e) by { hide Data; }
    hide Inv, CompleteWrite, Total;
  }

  /** Completions alone bring every pipeline to rest. */
  lemma {:induction false} CompleteAll(s: Sys) returns (completions: seq<Event>)
    requires Inv(s)
    ensures CompletionsOnly(s, completions) && !WriteInFlight(Run(s, completions))
    decreases Outstanding(s)
  {
    hide Inv, Step, Outstanding, Enabled;
    if i :| 0 <= i < |s.sinks| && s.sinks[i].writing.Some? {
      hide WriteInFlight;
      OneCompletes(s, i);
      var rest := CompleteAll(Step(s, WriteDone(i)));
      completions := [WriteDone(i)] + rest;
      assert completions[1..] == rest;
    } else {
      completions := [];
    }
  }

  /** The source waits for a sink whose queue cannot hold anything. */
  ghost predicate Wedged(s: Sys, i: nat)
  {
    && Inv(s) && s.source.state == Pausing && s.dispatched != []
    && i < |s.sinks| == |s.written| && s.sinks[i].capacity == 0 && SinkIds(s.sinks[i]) == [] && s.written[i] == []
  }

  lemma WedgedPends(s: Sys, i: nat)
    requires Data(s, multiset{}) && s.dispatched != []
    requires i < |s.sinks| == |s.written| && SinkIds(s.sinks[i]) == [] && s.written[i] == []
    ensures HasPendingWrites(s)
  {
    assert Log(s, i) + [] == s.dispatched;
    if !HasPendingWrites(s) {
      NoPending(s.slots, i);
    }
    hide Shape, Accounted;
  }

  lemma WedgedStays(s: Sys, i: nat, l: nat)
    requires Wedged(s, i) && Enabled(s, WriteDone(l))
    ensures Wedged(Step(s, WriteDone(l)), i)
  {
    var b := s.sinks[l].writing.value;
    StepKeeps(s, WriteDone(l));
    StepHistory(s, WriteDone(l));
    Completes(s, l, b);
    assert s.piped by { CompletesPhase(s, Retry(Released(s, l, b), 0), l); }
    var r := Retry(Released(s, l, b), 0);
    FinishedForm(s, SetSink(s, l, s.sinks[l].(writing := None)).(written := Taken(s, l, b).written), l, b);
    assert l != i;
    hide Inv, Retry, Released, FinishedWriting, Data, HasPendingWrites, Next, Open, Finish;
    WedgedWaits(s, r, i, l, b);
  }

  lemma WedgedWaits(s: Sys, r: Sys, i: nat, l: nat, b: ID)
    requires Wedged(s, i) && l < |s.sinks| && l != i && Completed(s, r, l) && s.written[l] <= r.written[l]
    requires s.sinks[l].writing == Some(b)
    requires |r.written| == |s.written| && r.written[i] == s.written[i]
    ensures Answer(r) == r && r.sinks[l].state != WriteState.Ended
  {
    WedgedPends(r, i);
  }

  lemma {:induction false} WedgedForever(s: Sys, i: nat, completions: seq<Event>)
    requires Wedged(s, i) && CompletionsOnly(s, completions)
    ensures Wedged(Run(s, completions), i)
    decreases |completions|
  {
    if completions != [] {
      hide Wedged, Step, Enabled;
      WedgedStays(s, i, completions[0].sink);
      WedgedForever(Step(s, completions[0]), i, completions[1..]);
    }
  }

  lemma FirstWedges(s: Sys, i: nat)
    requires Initial(s) && CanBegin(s) && i < |s.sinks| && s.sinks[i].capacity == 0
    ensures Wedged(Run(s, FIRST), i)
  {
    var t := FirstRun(s);
    DispatchSkips(t, 0, 0, i);
    var r := Run(s, FIRST);
    assert r.sinks[i] == s.sinks[i];
    assert SinkIds(r.sinks[i]) == [] && r.written[i] == [];
    hide Run, DispatchFrom, Data, HasPendingWrites, Initial, FIRST;
    assert |r.written| == |r.sinks| by { WrittenSinks(r); }
    WedgedPends(r, i);
  }

  lemma WrittenSinks(s: Sys)
    requires Inv(s)
    ensures |s.written| == |s.sinks|
  {
  }

  /** Exactly when back-pressure cannot deadlock: every sink's queue has room for a write. A ring of
      size one, which init accepts, has none. */
  lemma RoomIsNeeded(s: Sys)
    requires Initial(s) && CanBegin(s)
    ensures (forall events :: Run(s, events).source.state == Pausing ==> WriteInFlight(Run(s, events))) <==> Roomy(s)
  {
    if Roomy(s) {
      forall events ensures Run(s, events).source.state == Pausing ==> WriteInFlight(Run(s, events)) {
        NoDeadlock(s, events);
      }
    } else {
      var i :| 0 <= i < |s.sinks| && s.sinks[i].capacity == 0;
      var events := Wedges(s, i);
    }
  }

  lemma Wedges(s: Sys, i: nat) returns (events: seq<Event>)
    requires Initial(s) && CanBegin(s) && i < |s.sinks| && s.sinks[i].capacity == 0
    ensures Run(s, events).source.state == Pausing && !WriteInFlight(Run(s, events))
  {
    FirstWedges(s, i);
    var r := Run(s, FIRST);
    hide Initial, Run, Inv, CompletionsOnly, WriteInFlight, FIRST;
    var completions := CompleteAll(r);
    WedgedForever(r, i, completions);
    RunSplit(s, FIRST, completions);
    events := FIRST + completions;
  }

  // ------------------------------------------------------------------ The listener assertion can be reached

  lemma FirstFlies(s: Sys)
    requires Initial(s) && CanBegin(s) && Roomy(s)
    ensures var r := Run(s, FIRST); InFlight(r) && !HasPendingWrites(r)
  {
    var t := FirstRun(s);
    DispatchFits(t, 0, 0);
    var r := Run(s, FIRST);
    assert r.slots == s.slots;
    SamePending(s, r);
    assert !HasPendingWrites(s);
    hide Run, DispatchFrom, HasPendingWrites, FIRST;
    LoggedFlies(r);
  }

  lemma LoggedFlies(r: Sys)
    requires Inv(r) && !HasPendingWrites(r) && r.dispatched != [] && |r.written| > 0 && r.written[0] == []
    ensures InFlight(r)
  {
    assert Log(r, 0) + [] == r.dispatched;
    NoPending(r.slots, 0);
    assert SinkOk(r.sinks[0]);
    assert SinkIds(r.sinks[0]) != [];
    assert StillWriting(r.sinks[0]);
  }

  /** The end of a source arrives at a pipeline that still writes. */
  lemma EndsWriting(s: Sys)
    requires Data(s, multiset{}) && Flowing(s) && !HasPendingWrites(s) && InFlight(s) && s.source.queue == []
    requires s.source.state == AsyncPushing || s.source.state == Pausing
    requires s.source.request == Free && s.source.bufferID.None? && !s.source.destroyed
    ensures PushEnd(s).endingPipes
  {
    var s1 := s.(source := s.source.(state := ReadState.Ended));
    Relabels(s, s1, multiset{});
    EndArrivesNow(s1);
    GoingData(s1, multiset{});
    PushEndForm(s);
    hide Data, Flowing, HasPendingWrites, EndPipes, EndReached, Inv0, MaybeDestroyEnded, InFlight, Going, PushEnd,
        Roomy, EndOf;
    Ends(s1, multiset{});
    Destroys(EndPipes(s1));
  }

  lemma PushEndForm(s: Sys)
    requires s.source.state == AsyncPushing || s.source.state == Pausing
    requires !s.source.destroyed && s.source.queue == [] && s.piped
    ensures PushEnd(s) == MaybeDestroyEnded(EndPipes(s.(source := s.source.(state := ReadState.Ended))))
  {
    hide EndPipes, MaybeDestroyEnded;
  }

  function EndEvent(s: Sys): Event
  {
    if s.source.request == Active then ReadEnd else EndNow
  }

  lemma FirstEnds(r: Sys)
    requires Inv(r) && InFlight(r) && !HasPendingWrites(r) && r.source.queue == []
    requires r.source.state == AsyncPushing || r.source.state == Pausing
    ensures Step(r, EndEvent(r)).endingPipes
  {
    OverFlows(r);
    hide Data, Flowing, HasPendingWrites, InFlight, PushEnd, Progress, Over, Roomy;
    if r.source.request == Active {
      ReadsError(r);
      ReleaseFrame(r.(source := r.source.(request := Free)));
      hide ReleaseBufferID;
      var u := ReleaseBufferID(r.(source := r.source.(request := Free)));
      SameRoomy(r, u);
      EndsWriting(u);
    } else {
      EndsWriting(r);
    }
  }

  lemma Breaks(s: Sys) returns (events: seq<Event>)
    requires Initial(s) && CanBegin(s) && Roomy(s) && |s.sinks| >= 2
    ensures FinishListener in Run(s, events).failed
  {
    var r := Run(s, FIRST);
    var t := FirstRun(s);
    FirstFlies(s);
    hide Run, Initial, Inv, InFlight, HasPendingWrites, Step, WriteInFlight, CompletionsOnly, FIRST, Roomy, CanBegin,
        EndEvent, DispatchFrom;
    FirstEnds(r);
    var ended := FIRST + [EndEvent(r)];
    RunAppend(s, FIRST, EndEvent(r));
    RunInvariant(s, ended);
    var completions := CompleteAll(Run(s, ended));
    FanOutBreaks(s, ended, completions);
    RunSplit(s, ended, completions);
    events := ended + completions;
  }

  /** Some run breaks the assertion of afterSinkEnd exactly when the pipeline has more than one sink. */
  lemma ListenerReachable(s: Sys)
    requires Initial(s) && CanBegin(s) && Roomy(s)
    ensures (exists events :: FinishListener in Run(s, events).failed) <==> |s.sinks| >= 2
  {
    if |s.sinks| >= 2 {
      var events := Breaks(s);
    } else {
      assert |s.sinks| == 1;
      forall events ensures FinishListener !in Run(s, events).failed {
        OneSinkIsSafe(s, events);
      }
    }
  }
}
