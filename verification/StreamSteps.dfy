/** Every step of the environment keeps the invariant. */
module StreamSteps {

  import opened Wrappers
  import opened StreamModel
  import opened StreamInvariant
  import opened StreamProofs
  import opened StreamDispatch
  import opened StreamEnd

  // ------------------------------------------------------------------ Changes that do not touch data

  /** Only the source's state, its flags and the pipeline's flags differ. */
  predicate SameData(s: Sys, s': Sys)
  {
    && s' == s.(source := s'.source, shouldEndWhenDrained := s'.shouldEndWhenDrained)
    && s'.source.queue == s.source.queue && s'.source.bufferID == s.source.bufferID
    && s'.source.capacity == s.source.capacity
    && (s'.source.request != Free ==> s.source.request != Free)
  }

  lemma Relabels(s: Sys, s': Sys, extra: multiset<ID>)
    requires Data(s, extra) && SameData(s, s')
    ensures Data(s', extra) && HasPendingWrites(s') == HasPendingWrites(s)
    ensures Flowing(s) == Flowing(s') && Roomy(s) == Roomy(s') && InFlight(s) == InFlight(s')
    ensures Over(s, extra) ==> Over(s', extra)
  {
    assert forall x: ID :: Held(s', x) == Held(s, x);
    LogsSame(s, s');
  }

  // ------------------------------------------------------------------ The end of the source

  /** The source has ended; its end has reached the pipeline, or is about to. */
  ghost predicate EndReached(s: Sys)
  {
    && Data(s, multiset{}) && s.source.state == ReadState.Ended && s.source.request != Cancelling
    && (s.source.request == Free <==> s.source.bufferID.None?)
    && (s.source.request == Active ==> s.source.autoDestroy && !s.source.destroyed && s.source.queue == [])
    && (s.source.destroyed ==> s.source.queue == [])
    && ((Flowing(s) && s.shouldEndWhenDrained) || Over(s, multiset{}))
    && Progress(s)
  }

  /** What an operation after the end of the source leaves behind. */
  ghost predicate Settled(s: Sys, s': Sys)
  {
    && Inv0(s') && (EndingFlies(s) ==> EndingFlies(s')) && Roomy(s) == Roomy(s') && s'.failed == s.failed
    && (Over(s, multiset{}) ==> s'.sinks == s.sinks && s'.piped == s.piped && s'.endingPipes == s.endingPipes)
  }

  lemma EndRests(s: Sys)
    requires EndReached(s) && s.source.request == Free
    ensures Inv0(s)
  {
    hide Data, Over, Flowing, Progress, HasPendingWrites;
  }

  /** endPipes when the source has ended: the end is deferred while a write is pending. */
  lemma EndsOrWaits(s: Sys)
    requires EndReached(s) && s.source.request == Free && s.source.queue == [] && s.source.destroyed && s.piped
    ensures Settled(s, EndPipes(s))
  {
    hide Data, Progress, HasPendingWrites, Flowing, Inv0, Over, EndingFlies, Roomy;
    if s.endingPipes {
      EndRests(s);
      assert EndPipes(s) == s;
      OverFlows(s);
    } else if HasPendingWrites(s) {
      var s' := s.(shouldEndWhenDrained := true);
      SamePending(s, s');
      assert EndPipes(s) == s';
      EndWaits(s, s');
    } else {
      EndsNow(s);
    }
  }

  lemma OverFlows(s: Sys)
    ensures Flowing(s) ==> !Over(s, multiset{})
    ensures s.endingPipes ==> !Flowing(s)
    ensures Flowing(s) ==> EndingFlies(s)
  {
  }

  lemma EndWaits(s: Sys, s': Sys)
    requires EndReached(s) && s.source.request == Free && HasPendingWrites(s)
    requires s' == s.(shouldEndWhenDrained := true)
    ensures Settled(s, s')
  {
    hide Data, HasPendingWrites, Flowing;
    Relabels(s, s', multiset{});
    assert EndReached(s');
    EndRests(s');
  }

  lemma EndsNow(s: Sys)
    requires EndReached(s) && s.source.request == Free && s.source.queue == [] && s.piped && !s.endingPipes
    requires !HasPendingWrites(s)
    ensures Settled(s, EndPipes(s))
  {
    assert Going(s, multiset{}, []);
    hide EndPipes, HasPendingWrites, Shape, Logs, Accounted;
    Ends(s, multiset{});
    var s' := EndPipes(s);
    OverRests(s');
    OverFlows(s);
  }

  lemma OverRests(s: Sys)
    requires Over(s, multiset{}) && s.source.state == ReadState.Ended && s.source.request == Free &&
             s.source.bufferID.None?
    ensures Inv0(s)
  {
    OverFlows(s);
  }

  /** The automatic destruction of an ended source, in closed form. */
  lemma DestroyForm(s: Sys)
    requires s.source.state == ReadState.Ended && s.source.autoDestroy && !s.source.destroyed && s.source.queue == []
    requires s.source.request == Free ==> s.source.bufferID.None?
    ensures var s1 := s.(source := s.source.(state := ReadState.Ended, destroyed := true, request := Free));
            MaybeDestroyEnded(s) ==
              if s.source.request != Free
                  then s.(source := s.source.(state := ReadState.Destroying, request := Cancelling))
              else if s.piped then EndPipes(s1) else s1
  {
    hide EndPipes;
    assert s.(source := s.source.(queue := [])) == s;
    var s2 := s.(source := s.source.(state := ReadState.Destroying));
    assert DestroySource(s) == if s.source.request == Free then FinalizeDestruction(s2)
                               else s2.(source := s2.source.(request := Cancelling));
    if s.source.request == Free {
      assert ReleaseBufferID(s2) == s2;
      var s1 := s.(source := s.source.(state := ReadState.Ended, destroyed := true, request := Free));
      assert s2.(source := s2.source.(state := ReadState.Ended, destroyed := true, request := Free)) == s1;
    }
  }

  lemma Destroys(s: Sys)
    requires EndReached(s)
    ensures Settled(s, MaybeDestroyEnded(s))
  {
    if s.source.autoDestroy && !s.source.destroyed && s.source.queue == [] {
      DestroyForm(s);
      if s.source.request == Free {
        var s1 := s.(source := s.source.(state := ReadState.Ended, destroyed := true, request := Free));
        DestroysNow(s, s1);
      } else {
        Cancels(s, MaybeDestroyEnded(s));
      }
    } else {
      assert MaybeDestroyEnded(s) == s;
      EndRests(s);
    }
  }

  lemma DestroysNow(s: Sys, s1: Sys)
    requires EndReached(s) && s.source.request == Free && s.source.queue == []
    requires s1 == s.(source := s.source.(state := ReadState.Ended, destroyed := true, request := Free))
    ensures Settled(s, if s1.piped then EndPipes(s1) else s1)
  {
    hide Data, Flowing, HasPendingWrites, EndPipes, Over, Roomy, InFlight;
    Relabels(s, s1, multiset{});
    assert EndReached(s1);
    if s1.piped {
      EndsOrWaits(s1);
    } else {
      EndRests(s1);
    }
  }

  lemma Cancels(s: Sys, s1: Sys)
    requires EndReached(s) && s.source.request == Active
    requires s1 == s.(source := s.source.(state := ReadState.Destroying, request := Cancelling))
    ensures Settled(s, s1)
  {
    hide Data, Flowing, HasPendingWrites, Over, Roomy, InFlight;
    Relabels(s, s1, multiset{});
  }

  /** The cancelled read is released, which may let the end through. */
  lemma Finalizes(s: Sys)
    requires Inv0(s) && s.source.request == Cancelling
    ensures !s.source.destroyed && Settled(s, FinalizeDestruction(s))
  {
    var b := s.source.bufferID.value;
    var s0 := s.(source := s.source.(bufferID := None, request := Free));
    ReadHolds(s, s0, b, multiset{});
    var s1 := Unref(s0, b);
    var s2 := s1.(source := s1.source.(state := ReadState.Ended, destroyed := true));
    Finalizes1(s, s0, s1, s2, b);
    FinalizeForm(s, s2, b);
  }

  lemma FinalizeForm(s: Sys, s2: Sys, b: ID)
    requires s.source.bufferID == Some(b) && s.source.state == ReadState.Destroying && !s.source.destroyed
    requires s2 == Unref(s.(source := s.source.(bufferID := None, request := Free)), b)
                     .(source := s.source.(bufferID := None, request := Free, state := ReadState.Ended,
                         destroyed := true))
    ensures FinalizeDestruction(s) == if s2.piped then EndPipes(s2) else s2
  {
    hide EndPipes;
    var t := Unref(s.(source := s.source.(bufferID := None)), b);
    assert t.(source := s2.source) == s2;
  }

  /** The reader's buffer becomes a loose reference when its request no longer owns it. */
  lemma ReadHolds(s: Sys, s0: Sys, b: ID, extra: multiset<ID>)
    requires Data(s, extra) && s.source.bufferID == Some(b)
    requires s0 == s.(source := s.source.(bufferID := None, request := Free))
    ensures Data(s0, extra + multiset{b}) && HasPendingWrites(s0) == HasPendingWrites(s)
    ensures Flowing(s) == Flowing(s0) && Roomy(s) == Roomy(s0) && InFlight(s) == InFlight(s0)
    ensures Over(s, extra) ==> Over(s0, extra + multiset{b})
  {
    forall x: ID ensures Held(s, x) == Held(s0, x) + (if x == b then 1 else 0) {
      assert Opt(Some(b))[1..] == [];
    }
    LogsSame(s, s0);
  }

  lemma UnrefData(s: Sys, b: ID, extra: multiset<ID>)
    requires Data(s, extra + multiset{b})
    ensures var s' := Unref(s, b);
            && Data(s', extra) && s' == s.(buffers := s'.buffers) && HasPendingWrites(s') == HasPendingWrites(s)
            && Flowing(s) == Flowing(s') && Roomy(s) == Roomy(s') && InFlight(s) == InFlight(s')
            && (Over(s, extra + multiset{b}) ==> Over(s', extra))
  {
    UnrefKeeps(s, b, extra);
    hide Shape, Log, Content;
    SamePending(s, Unref(s, b));
  }

  lemma Finalizes1(s: Sys, s0: Sys, s1: Sys, s2: Sys, b: ID)
    requires Inv0(s) && s.source.request == Cancelling && s.source.bufferID == Some(b)
    requires s0 == s.(source := s.source.(bufferID := None, request := Free))
    requires s1 == Unref(s0, b)
    requires s2 == s1.(source := s1.source.(state := ReadState.Ended, destroyed := true))
    ensures Settled(s, if s2.piped then EndPipes(s2) else s2)
  {
    hide Data, Flowing, HasPendingWrites, Over, Roomy, InFlight, EndPipes;
    ReadHolds(s, s0, b, multiset{});
    UnrefData(s0, b, multiset{});
    Relabels(s1, s2, multiset{});
    assert EndReached(s2);
    if s2.piped {
      EndsOrWaits(s2);
    } else {
      EndRests(s2);
    }
  }

  /** What every step of the environment gives back. */
  ghost predicate Good(s: Sys, s': Sys)
  {
    Inv(s') && Roomy(s) == Roomy(s') && s'.failed == s.failed
  }

  lemma PushesEnd(s: Sys)
    requires Data(s, multiset{}) && Flowing(s) && !s.source.destroyed && s.source.request != Cancelling
    requires s.source.state == CanRead || s.source.state == AsyncReading || s.source.state == AsyncPushing ||
             s.source.state == Pausing
    requires HasPendingWrites(s) || s.source.queue == []
    requires s.source.request == Free <==> s.source.bufferID.None?
    requires s.source.request == Active ==> s.source.autoDestroy && s.source.queue == []
    ensures Good(s, PushEnd(s))
  {
    var s1 := s.(source := s.source.(state := ReadState.Ended));
    Relabels(s, s1, multiset{});
    var s2 := EndPipes(s1);
    assert PushEnd(s) == MaybeDestroyEnded(s2);
    EndArrives(s1);
    hide EndPipes, MaybeDestroyEnded, EndReached, Inv0, EndingFlies, Roomy;
    Destroys(s2);
  }

  lemma EndArrives(s: Sys)
    requires Data(s, multiset{}) && Flowing(s) && s.source.state == ReadState.Ended && s.source.request != Cancelling
    requires HasPendingWrites(s) || s.source.queue == []
    requires s.source.request == Free <==> s.source.bufferID.None?
    requires s.source.request == Active ==> s.source.autoDestroy && s.source.queue == []
    requires !s.source.destroyed
    ensures var s' := EndPipes(s); EndReached(s') && EndingFlies(s') && Roomy(s) == Roomy(s') && s'.failed == s.failed
  {
    hide HasPendingWrites, Shape;
    if HasPendingWrites(s) {
      var s' := s.(shouldEndWhenDrained := true);
      Relabels(s, s', multiset{});
      assert EndPipes(s) == s' by { hide ResumeReading; SamePending(s, s'); }
      if Roomy(s) { PendingFlies(s, multiset{}); }
    } else {
      EndArrivesNow(s);
    }
  }

  lemma EndArrivesNow(s: Sys)
    requires Data(s, multiset{}) && Flowing(s) && s.source.state == ReadState.Ended && s.source.request != Cancelling
    requires !HasPendingWrites(s) && s.source.queue == []
    requires s.source.request == Free <==> s.source.bufferID.None?
    requires s.source.request == Active ==> s.source.autoDestroy && s.source.queue == []
    requires !s.source.destroyed
    ensures var s' := EndPipes(s); EndReached(s') && EndingFlies(s') && Roomy(s) == Roomy(s') && s'.failed == s.failed
  {
    assert Going(s, multiset{}, []);
    hide EndPipes, HasPendingWrites, Shape, Logs, Accounted, Roomy, EndingFlies, Closing, Closed;
    Ends(s, multiset{});
    OverFlows(EndPipes(s));
  }

  // ------------------------------------------------------------------ Reading

  lemma {:induction false} SinkHeldFlies(s: Sys, sinks: seq<Sink>, b: ID)
    requires SinkHeld(sinks, b) > 0 && forall i :: 0 <= i < |sinks| ==> SinkOk(sinks[i])
    ensures exists i :: 0 <= i < |sinks| && StillWriting(sinks[i])
  {
    if Count(SinkIds(sinks[0]), b) > 0 {
      assert SinkOk(sinks[0]) && StillWriting(sinks[0]);
    } else {
      SinkHeldFlies(s, sinks[1..], b);
      var i :| 0 <= i < |sinks[1..]| && StillWriting(sinks[1..][i]);
      assert StillWriting(sinks[i + 1]);
    }
  }

  lemma {:induction false} SlotHeldPends(slots: seq<Option<PendingWrite>>, b: ID)
    requires SlotHeld(slots, b) > 0
    ensures exists j :: 0 <= j < |slots| && slots[j].Some?
  {
    if slots[0].None? {
      SlotHeldPends(slots[1..], b);
      var j :| 0 <= j < |slots[1..]| && slots[1..][j].Some?;
      assert slots[j + 1].Some?;
    } else {
      assert slots[0].Some?;
    }
  }

  /** When the pool is exhausted and the reader holds nothing, the sinks hold everything. */
  lemma ExhaustedFlies(s: Sys)
    requires Data(s, multiset{}) && s.source.bufferID.None? && s.source.queue == [] && Roomy(s)
    requires s.buffers != [] && s.buffers[0].refs != 0
    ensures InFlight(s)
  {
    assert Held(s, 0) > 0;
    if SlotHeld(s.slots, 0) > 0 {
      SlotHeldPends(s.slots, 0);
      PendingFlies(s, multiset{});
    } else {
      SinkHeldFlies(s, s.sinks, 0);
    }
  }

  /** A free buffer is held by nobody, so handing it to the reader disturbs no log. */
  lemma Requests(s: Sys, b: ID, extra: multiset<ID>)
    requires Data(s, extra) && b < |s.buffers| && s.buffers[b].refs == 0
    ensures var s' := Request(s, b);
            && Data(s', extra + multiset{b}) && s' == s.(buffers := s'.buffers) && |s'.buffers| == |s.buffers|
            && s'.buffers[b].refs == 1 && Stored(s', b) == 0
            && HasPendingWrites(s') == HasPendingWrites(s)
            && Flowing(s) == Flowing(s') && Roomy(s) == Roomy(s') && InFlight(s) == InFlight(s')
            && s'.buffers[b].store == s.buffers[b].store
  {
    var s' := Request(s, b);
    assert Held(s, b) == 0;
    assert forall x: ID :: Held(s', x) == Held(s, x) && Stored(s', x) == Stored(s, x);
    if s.source.request != Free {
      assert Held(s, s.source.bufferID.value) >= 1;
    }
    LoadedLogs(s, s');
  }

  lemma LoadedLogs(s: Sys, s': Sys)
    requires s' == s.(buffers := s'.buffers) && KeepsHeld(s, s')
    ensures forall i :: 0 <= i < |s.sinks| ==> Log(s', i) == Log(s, i)
    ensures Contents(s'.buffers, s.source.queue) == Contents(s.buffers, s.source.queue)
  {
    forall i | 0 <= i < |s.sinks| ensures Log(s', i) == Log(s, i) {
      LogSame(s, s', i);
    }
    QueueSame(s, s');
  }

  /** The reader takes over a reference. */
  lemma Arms(s: Sys, s': Sys, b: ID)
    requires Data(s, multiset{b}) && s.source.bufferID.None? && b < |s.buffers| && s.buffers[b].refs == 1
    requires s' == s.(source := s.source.(bufferID := Some(b), request := Active, state := s'.source.state))
    ensures Data(s', multiset{}) && HasPendingWrites(s') == HasPendingWrites(s)
    ensures Flowing(s) == Flowing(s') && Roomy(s) == Roomy(s') && InFlight(s) == InFlight(s')
  {
    forall x: ID ensures Held(s', x) == Held(s, x) + (if x == b then 1 else 0) {
      assert Opt(Some(b))[1..] == [];
    }
    LogsSame(s, s');
  }

  lemma AsyncReads(s: Sys)
    requires Data(s, multiset{}) && Flowing(s) && s.source.state == Reading && s.source.queue == []
    requires s.source.request == Free && s.source.bufferID.None? && !s.source.destroyed && !s.shouldEndWhenDrained
    ensures var s1 := AsyncRead(s);
            Good(s, if s1.source.state == Reading then s1.(source := s1.source.(state := AsyncReading)) else s1)
  {
    hide Data, Flowing, HasPendingWrites, InFlight, Roomy, Request;
    match FirstFree(s.buffers) {
      case None =>
        var s' := s.(source := s.source.(state := Pausing));
        assert AsyncRead(s) == s';
        Relabels(s, s', multiset{});
        if s.buffers != [] && Roomy(s) { ExhaustedFlies(s); }
        FlowingRests(s');
      case Some(b) =>
        var s1 := Request(s, b);
        Requests(s, b, multiset{});
        assert multiset{} + multiset{b} == multiset{b};
        var s' := s1.(source := s1.source.(bufferID := Some(b), request := Active, state := AsyncReading));
        Arms(s1, s', b);
        FlowingRests(s');
    }
  }

  lemma FlowingRests(s: Sys)
    requires Data(s, multiset{}) && SourceOk(s.source) && Flowing(s) && !s.shouldEndWhenDrained &&
             !HasEndState(s.source)
    requires s.source.state == CanRead || s.source.state == AsyncPushing ==> !HasPendingWrites(s)
    requires s.source.state == Pausing && !HasPendingWrites(s) ==> s.source.queue == []
    requires s.source.state == Pausing && Roomy(s) && s.buffers != [] ==> InFlight(s)
    ensures Inv(s)
  {
    hide Data, HasPendingWrites, InFlight, Roomy;
  }

  lemma GoingData(s: Sys, extra: multiset<ID>)
    ensures Going(s, extra, []) <==> Data(s, extra) && Flowing(s)
  {
    hide Shape, Logs, Accounted, OpenSinks;
  }

  lemma Executes(s: Sys)
    requires Data(s, multiset{}) && Flowing(s) && !s.source.destroyed && !s.shouldEndWhenDrained
    requires s.source.request == Free && s.source.bufferID.None?
    ensures Good(s, ExecuteRead(s))
  {
    var s1 := s.(source := s.source.(state := Reading));
    Relabels(s, s1, multiset{});
    if s1.source.queue == [] {
      assert ExecuteRead(s) == (var s3 := AsyncRead(s1);
                                if s3.source.state == Reading then s3.(source := s3.source.(state := AsyncReading))
                                    else s3)
        by { hide AsyncRead; }
      hide Data, Flowing, Good, ExecuteRead;
      AsyncReads(s1);
      GoodTrans(s, s1, ExecuteRead(s));
    } else {
      Emits(s1, multiset{});
      var s2 := EmitLoop(s1);
      assert EmitOnData(s1) == s2 by { hide EmitLoop, DestroySource; }
      ExecutesQueued(s, s1, s2);
    }
  }

  lemma GoodTrans(s: Sys, s1: Sys, s': Sys)
    requires Good(s1, s') && Roomy(s) == Roomy(s1) && s.failed == s1.failed
    ensures Good(s, s')
  {
  }

  lemma ExecutesQueued(s: Sys, s1: Sys, s2: Sys)
    requires s1 == s.(source := s.source.(state := Reading)) && s1.source.queue != [] && Roomy(s) == Roomy(s1)
    requires EmitOnData(s1) == s2 && Emitted(s1, s2, multiset{}) && !s.source.destroyed && !s.shouldEndWhenDrained
    requires s.source.request == Free && s.source.bufferID.None?
    requires s2.source == s1.source.(state := s2.source.state, queue := s2.source.queue)
    ensures Good(s, ExecuteRead(s))
  {
    EmittedRests(s1, s2);
    hide EmitOnData, AsyncRead, Emitted, HasPendingWrites, Roomy, Inv, Data, Flowing;
    if s2.source.state == Reading {
      AsyncReads(s2);
    } else {
      assert ExecuteRead(s) == s2;
    }
  }

  /** Emitting while a read is being issued either pauses the source or empties its queue. */
  lemma EmittedRests(s1: Sys, s2: Sys)
    requires s1.source.state == Reading && s1.source.queue != []
    requires Emitted(s1, s2, multiset{}) && !s1.source.destroyed && !s1.shouldEndWhenDrained
    requires s1.source.request == Free && s1.source.bufferID.None?
    requires s2.source == s1.source.(state := s2.source.state, queue := s2.source.queue)
    ensures Data(s2, multiset{}) && Flowing(s2) && !s2.shouldEndWhenDrained && Roomy(s1) == Roomy(s2)
    ensures if s2.source.state == Reading then s2.source.queue == [] else Inv(s2)
  {
    hide Going, HasPendingWrites, InFlight, Roomy, Inv, Data, Flowing;
    GoingData(s2, multiset{});
    if s2.source.state != Reading {
      FlowingRests(s2);
    }
  }

  lemma Emits(s: Sys, extra: multiset<ID>)
    requires Data(s, extra) && Flowing(s) && Emitting(s.source.state)
    ensures Emitted(s, EmitLoop(s), extra) && Steady(s, EmitLoop(s))
  {
    hide Data, Flowing, Going, Emitted, EmitLoop;
    GoingData(s, extra);
    EmitLoops(s, extra);
  }

  /** A source that may be resumed: nothing pending, or a step of its owner. */
  ghost predicate Resumable(s: Sys)
  {
    && Data(s, multiset{}) && SourceOk(s.source) && Phase(s)
    && (HasEndState(s.source) ==> Progress(s) || s.source.queue != [])
    && (s.source.state == CanRead || s.source.state == AsyncPushing ==> !HasPendingWrites(s))
  }

  lemma Resumes(s: Sys)
    requires Resumable(s)
    ensures Settled(s, ResumeReading(s))
  {
    var s' := ResumeReading(s);
    if s.source.state == Pausing || s.source.state == CanRead {
      ResumesExecute(s);
    } else if s.source.state == ReadState.Ended {
      if s.source.queue == [] {
        ResumesEnd(s);
      } else {
        ResumesEmit(s);
      }
    } else {
      assert s' == s;
      ResumesNothing(s);
    }
  }

  lemma ResumesExecute(s: Sys)
    requires Resumable(s) && (s.source.state == Pausing || s.source.state == CanRead)
    ensures Settled(s, ResumeReading(s))
  {
    OverFlows(s);
    hide Data, Flowing, Over, ExecuteRead, Inv0, EndingFlies, Roomy, HasPendingWrites;
    assert ResumeReading(s) == ExecuteRead(s);
    Executes(s);
  }

  lemma ResumesEnd(s: Sys)
    requires Resumable(s) && s.source.state == ReadState.Ended && s.source.queue == []
    ensures Settled(s, ResumeReading(s))
  {
    hide MaybeDestroyEnded, Data, Flowing, Over, Settled, Progress, HasPendingWrites;
    assert ResumeReading(s) == MaybeDestroyEnded(s);
    Destroys(s);
  }

  lemma ResumesEmit(s: Sys)
    requires Resumable(s) && s.source.state == ReadState.Ended && s.source.queue != []
    ensures Settled(s, ResumeReading(s))
  {
    var s1 := EmitLoop(s);
    ResumesEmitForm(s);
    ResumesEmitted(s);
    hide MaybeDestroyEnded, EmitLoop, EndReached, Inv0, ResumeReading, EndingFlies, Over, Resumable, Roomy;
    Destroys(s1);
  }

  lemma ResumesEmitForm(s: Sys)
    requires s.source.state == ReadState.Ended && s.source.queue != []
    ensures ResumeReading(s) == MaybeDestroyEnded(EmitLoop(s))
  {
    hide MaybeDestroyEnded, EmitLoop;
  }

  lemma ResumesEmitted(s: Sys)
    requires Resumable(s) && s.source.state == ReadState.Ended && s.source.queue != []
    ensures var s1 := EmitLoop(s);
            EndReached(s1) && EndingFlies(s1) && !Over(s, multiset{}) && Roomy(s) == Roomy(s1) && s1.failed == s.failed
  {
    OverEmpty(s);
    Emits(s, multiset{});
    EmittedEnd(s, EmitLoop(s));
    hide EmitLoop, Over, EndReached, EndingFlies, Resumable, Roomy, Going;
  }

  lemma OverEmpty(s: Sys)
    requires Phase(s) && s.source.state == ReadState.Ended && s.source.queue != []
    ensures Flowing(s) && !Over(s, multiset{})
  {
  }

  lemma EmittedEnd(s: Sys, s1: Sys)
    requires Resumable(s) && s.source.state == ReadState.Ended && s.source.queue != [] && Flowing(s)
    requires Emitted(s, s1, multiset{})
    requires s1.source == s.source.(state := s1.source.state, queue := s1.source.queue)
    ensures EndReached(s1) && EndingFlies(s1)
  {
    hide Over, Going, Data, Flowing, HasPendingWrites, InFlight, Roomy;
    GoingData(s1, multiset{});
    OverFlows(s);
    OverFlows(s1);
  }

  lemma ResumesNothing(s: Sys)
    requires Resumable(s)
    requires s.source.state == AsyncReading || s.source.state == AsyncPushing ||
             s.source.state == ReadState.Destroying || s.source.state == ReadState.Errored
    ensures Settled(s, s)
  {
    hide Data, Flowing, HasPendingWrites, Over, Roomy, InFlight;
  }
}
