/** Lemmas about push and the completion of a read. */
module StreamReads {

  import opened Wrappers
  import opened StreamModel
  import opened StreamInvariant
  import opened StreamProofs
  import opened StreamDispatch
  import opened StreamEnd
  import opened StreamSteps

  /** No read is in flight and the source has not ended. */
  ghost predicate Rested(s: Sys, extra: multiset<ID>)
  {
    && Data(s, extra) && Flowing(s) && !s.shouldEndWhenDrained
    && s.source.request == Free && !s.source.destroyed
    && (s.source.state == AsyncReading || s.source.state == AsyncPushing || s.source.state == Pausing ||
          s.source.state == ReadState.Errored)
    && (s.source.state == AsyncReading || s.source.state == AsyncPushing ==> s.source.queue == [])
    && (s.source.state == AsyncPushing ==> !HasPendingWrites(s))
    && (s.source.state == Pausing && !HasPendingWrites(s) ==> s.source.queue == [])
    && (s.source.state == Pausing && Roomy(s) && s.buffers != [] ==> InFlight(s))
  }

  lemma RestedInv(s: Sys)
    requires Rested(s, multiset{}) && s.source.bufferID.None?
    ensures Inv(s)
  {
    FlowingRests(s);
  }

  /** What is outside Rested does not matter to it. */
  lemma RestedSame(s: Sys, s': Sys, extra: multiset<ID>, extra': multiset<ID>)
    requires Rested(s, extra) && Data(s', extra') && |s'.buffers| == |s.buffers|
    requires HasPendingWrites(s') == HasPendingWrites(s)
    requires Flowing(s) == Flowing(s') && Roomy(s) == Roomy(s') && InFlight(s) == InFlight(s')
    requires s'.source == s.source.(bufferID := s'.source.bufferID) && s'.shouldEndWhenDrained == s.shouldEndWhenDrained
    ensures Rested(s', extra')
  {
    hide Data, Flowing, Roomy, InFlight, HasPendingWrites;
  }

  // ------------------------------------------------------------------ push

  /** New bytes in a buffer that carries no data yet. */
  lemma Reloads(s: Sys, s': Sys, b: ID, extra: multiset<ID>)
    requires Data(s, extra) && b < |s.buffers| && Stored(s, b) == 0
    requires |s'.buffers| == |s.buffers|
    requires s' == s.(buffers := s.buffers[b := Buffer(s.buffers[b].refs, s'.buffers[b].store, s'.buffers[b].length)])
    requires s'.buffers[b].length <= |s'.buffers[b].store|
    ensures Data(s', extra) && HasPendingWrites(s') == HasPendingWrites(s)
    ensures Flowing(s) == Flowing(s') && Roomy(s) == Roomy(s') && InFlight(s) == InFlight(s')
    ensures Stored(s', b) == 0
  {
    assert forall x: ID :: Held(s', x) == Held(s, x) && Stored(s', x) == Stored(s, x);
    LoadedLogs(s, s');
  }

  /** push appends the buffer to the read queue, with a reference of its own. */
  function Queued(s: Sys, b: ID): Sys
  {
    var s1 := Ref(s.(source := s.source.(queue := s.source.queue + [b])), b);
    s1.(accepted := s1.accepted + [Content(s1.buffers, b)])
  }

  lemma Queues(s: Sys, b: ID, extra: multiset<ID>)
    requires Data(s, extra) && b < |s.buffers| && s.source.request == Free && |s.source.queue| < s.source.capacity
    ensures var s' := Queued(s, b);
            && Data(s', extra) && HasPendingWrites(s') == HasPendingWrites(s) && |s'.buffers| == |s.buffers|
            && Flowing(s) == Flowing(s') && Roomy(s) == Roomy(s') && InFlight(s) == InFlight(s')
            && s' == s.(buffers := s'.buffers, accepted := s'.accepted,
               source := s.source.(queue := s.source.queue + [b]))
  {
    var s' := Queued(s, b);
    forall x: ID ensures Held(s', x) == Held(s, x) + (if x == b then 1 else 0) {
      CountAppend(s.source.queue, [b], x);
    }
    assert forall x: ID :: Content(s'.buffers, x) == Content(s.buffers, x);
    forall i | 0 <= i < |s.sinks| ensures Log(s', i) == Log(s, i) {
      LogSame(s, s', i);
    }
    ContentsSame(s.buffers, s'.buffers, s'.source.queue);
    ContentsAppend(s.buffers, s.source.queue, [b]);
    hide Log, Held, Content, SinkOk;
  }

  lemma PushForm(s: Sys, b: ID, size: nat)
    requires size > 0
    ensures var s1 := SetSize(s, b, size);
            Push(s, b, size).0 == if |s1.source.queue| >= s1.source.capacity
                then s1.(source := s1.source.(state := ReadState.Errored))
                                  else PushQueued(Queued(s1, b))
  {
    hide PushQueued, Content;
  }

  /** What push leaves behind: a source that is forwarding, paused or in error, and no data lost. */
  ghost predicate Pushed(s: Sys, r: Sys, extra: multiset<ID>)
  {
    && Rested(r, extra) && Roomy(s) == Roomy(r) && |r.buffers| == |s.buffers| && r.failed == s.failed
    && r.source == s.source.(state := r.source.state, queue := r.source.queue)
  }

  lemma PushesQueued(s: Sys, extra: multiset<ID>)
    requires Data(s, extra) && Flowing(s) && !s.shouldEndWhenDrained && s.source.queue != []
    requires s.source.request == Free && !s.source.destroyed
    requires s.source.state == AsyncReading || s.source.state == AsyncPushing || s.source.state == Pausing
    requires s.source.state == Pausing && !HasPendingWrites(s) ==> |s.source.queue| <= 1
    ensures Pushed(s, PushQueued(s), extra)
  {
    Emits(s, extra);
    var r := EmitLoop(s);
    PushQueuedForm(s);
    hide EmitLoop, Data, Flowing, Roomy, InFlight, HasPendingWrites, Emitted, Rested, PushQueued;
    EmittedPushed(s, r, PushQueued(s), extra);
  }

  lemma PushQueuedForm(s: Sys)
    requires s.source.state == AsyncReading || s.source.state == AsyncPushing || s.source.state == Pausing
    requires var state := EmitLoop(s).source.state; state == s.source.state || state == Pause(s).source.state
    ensures var r := EmitLoop(s);
            PushQueued(s) == if r.source.state == AsyncReading then r.(source := r.source.(state := AsyncPushing))
                else r
  {
    EmitForm(s);
    hide EmitLoop, EmitOnData;
    if s.source.state == Pausing {
      assert PushQueued(s) == EmitLoop(s);
    } else {
      hide Pause, Steady;
    }
  }

  lemma EmitForm(s: Sys)
    requires Emitting(s.source.state) && s.source.state != ReadState.Ended
    ensures EmitOnData(s) == EmitLoop(s)
  {
    hide EmitLoop, DestroySource;
  }

  lemma EmittedPushed(s: Sys, r: Sys, s': Sys, extra: multiset<ID>)
    requires s.source.queue != [] && s.source.request == Free && !s.source.destroyed && !s.shouldEndWhenDrained
    requires s.source.state == AsyncReading || s.source.state == AsyncPushing || s.source.state == Pausing
    requires s.source.state == Pausing && !HasPendingWrites(s) ==> |s.source.queue| <= 1
    requires Emitted(s, r, extra) && Steady(s, r)
    requires r.source == s.source.(state := r.source.state, queue := r.source.queue)
    requires s' == if r.source.state == AsyncReading then r.(source := r.source.(state := AsyncPushing)) else r
    ensures Pushed(s, s', extra)
  {
    hide Going, Data, Flowing, Roomy, InFlight, HasPendingWrites;
    GoingData(r, extra);
    Relabels(r, s', extra);
  }

  lemma Sizes(s: Sys, b: ID, size: nat, extra: multiset<ID>)
    requires Rested(s, extra) && b < |s.buffers| && Stored(s, b) == 0 && size <= |s.buffers[b].store|
    ensures var s1 := SetSize(s, b, size);
            Rested(s1, extra) && Roomy(s) == Roomy(s1) && s1 == s.(buffers := s1.buffers) && |s1.buffers| == |s.buffers|
  {
    var s1 := SetSize(s, b, size);
    Reloads(s, s1, b, extra);
    hide Data, Flowing, Roomy, InFlight, HasPendingWrites, SetSize, Stored;
    RestedSame(s, s1, extra, extra);
  }

  lemma PushesRoom(s: Sys, b: ID, extra: multiset<ID>)
    requires Rested(s, extra) && s.source.state != ReadState.Errored && b < |s.buffers| &&
             |s.source.queue| < s.source.capacity
    ensures Pushed(s, PushQueued(Queued(s, b)), extra)
  {
    hide Data, Flowing, Roomy, InFlight, HasPendingWrites, PushQueued, Queued;
    Queues(s, b, extra);
    PushesQueued(Queued(s, b), extra);
  }

  lemma PushesFull(s: Sys, extra: multiset<ID>)
    requires Rested(s, extra)
    ensures Pushed(s, s.(source := s.source.(state := ReadState.Errored)), extra)
  {
    Relabels(s, s.(source := s.source.(state := ReadState.Errored)), extra);
    hide Data, Flowing, Roomy, InFlight, HasPendingWrites;
  }

  lemma Pushes(s: Sys, b: ID, size: nat, extra: multiset<ID>)
    requires Rested(s, extra) && s.source.state != ReadState.Errored
    requires b < |s.buffers| && Stored(s, b) == 0 && size <= |s.buffers[b].store|
    ensures Pushed(s, Push(s, b, size).0, extra)
    ensures Push(s, b, size).1 ==> Push(s, b, size).0.source.state == AsyncPushing
  {
    PushAnswer(s, b, size);
    hide Data, Flowing, Roomy, InFlight, HasPendingWrites, PushQueued, SetSize, Queued;
    if size > 0 {
      var s1 := SetSize(s, b, size);
      Sizes(s, b, size, extra);
      PushForm(s, b, size);
      if |s1.source.queue| >= s1.source.capacity {
        PushesFull(s1, extra);
      } else {
        PushesRoom(s1, b, extra);
      }
    }
  }

  lemma PushAnswer(s: Sys, b: ID, size: nat)
    ensures Push(s, b, size).1 ==>
              Push(s, b, size).0.source.state == AsyncPushing || Push(s, b, size).0.source.state == SyncPushing
  {
    hide PushQueued;
  }

  // ------------------------------------------------------------------ The completion of a read

  lemma ReaderOwns(s: Sys)
    requires Data(s, multiset{}) && s.source.request != Free
    ensures s.source.bufferID.Some? && s.source.bufferID.value < |s.buffers| && Stored(s, s.source.bufferID.value) == 0
  {
    var b := s.source.bufferID.value;
    assert Held(s, b) == Stored(s, b) + 1 by { assert Opt(Some(b))[1..] == []; }
  }

  lemma Fills(s: Sys, b: ID, data: Bytes, extra: multiset<ID>)
    requires Data(s, extra) && b < |s.buffers| && Stored(s, b) == 0 && |data| <= |s.buffers[b].store|
    ensures var s1 := Fill(s, b, data);
            && Data(s1, extra) && s1 == s.(buffers := s1.buffers) && |s1.buffers| == |s.buffers|
            && HasPendingWrites(s1) == HasPendingWrites(s)
            && Flowing(s) == Flowing(s1) && Roomy(s) == Roomy(s1) && InFlight(s) == InFlight(s1)
            && Stored(s1, b) == 0 && |data| <= |s1.buffers[b].store|
  {
    Reloads(s, Fill(s, b, data), b, extra);
    hide Data, Flowing, Roomy, InFlight, HasPendingWrites, Stored;
  }

  lemma ReaderReleases(s: Sys, extra: multiset<ID>)
    requires Rested(s, extra)
    ensures var r := ReleaseBufferID(s);
            Rested(r, extra) && Roomy(s) == Roomy(r) && |r.buffers| == |s.buffers| &&
                r.source == s.source.(bufferID := None)
            && r.failed == s.failed
  {
    if s.source.bufferID.Some? {
      var b := s.source.bufferID.value;
      var s0 := s.(source := s.source.(bufferID := None));
      ReadHolds(s, s0, b, extra);
      hide Data, Flowing, Roomy, InFlight, HasPendingWrites, Unref;
      UnrefData(s0, b, extra);
      RestedSame(s, Unref(s0, b), extra, extra);
    }
  }

  /** After a push that asks for more, the read is issued again or the source pauses. */
  function Rearm(s: Sys): Sys
  {
    match FirstFree(s.buffers)
    case None => Pause(s)
    case Some(n) => Request(s, n).(source := s.source.(bufferID := Some(n), request := Active))
  }

  lemma Rearms(s: Sys)
    requires Rested(s, multiset{}) && s.source.bufferID.None? && s.source.state == AsyncPushing
    ensures Good(s, Rearm(s))
  {
    hide Data, Flowing, HasPendingWrites, InFlight, Roomy, Request;
    match FirstFree(s.buffers) {
      case None =>
        var s' := s.(source := s.source.(state := Pausing));
        Relabels(s, s', multiset{});
        if s.buffers != [] && Roomy(s) { ExhaustedFlies(s); }
        FlowingRests(s');
      case Some(b) =>
        var s1 := Request(s, b);
        Requests(s, b, multiset{});
        assert multiset{} + multiset{b} == multiset{b};
        var s' := s1.(source := s1.source.(bufferID := Some(b), request := Active));
        Arms(s1, s', b);
        FlowingRests(s');
    }
  }

  lemma ReadRests(s: Sys)
    requires Inv(s) && s.source.request == Active
    ensures var s1 := s.(source := s.source.(request := Free));
            Rested(s1, multiset{}) && Roomy(s) == Roomy(s1) && Stored(s1, s.source.bufferID.value) == 0
  {
    var s1 := s.(source := s.source.(request := Free));
    ReaderOwns(s);
    Relabels(s, s1, multiset{});
    hide Data, Flowing, HasPendingWrites, InFlight, Roomy;
  }

  lemma ReadForm(s: Sys, data: Bytes)
    requires s.source.bufferID.Some?
    ensures var b := s.source.bufferID.value;
            var (s2, more) := Push(Fill(s.(source := s.source.(request := Free)), b, data), b, |data|);
            !s2.source.destroyed ==>
              CompleteRead(s, data) == if more then Rearm(ReleaseBufferID(s2)) else ReleaseBufferID(s2)
  {
    var b := s.source.bufferID.value;
    var s0 := s.(source := s.source.(request := Free));
    assert Fill(s, b, data).(source := s0.source) == Fill(s0, b, data);
    hide Fill, Push, Pause, FirstFree, ReleaseBufferID;
  }

  lemma ReadsData(s: Sys, data: Bytes)
    requires Inv(s) && Enabled(s, ReadData(data))
    ensures Good(s, CompleteRead(s, data))
  {
    var b := s.source.bufferID.value;
    var s0 := s.(source := s.source.(request := Free));
    ReadForm(s, data);
    ReadRests(s);
    Fills(s0, b, data, multiset{});
    hide Data, Flowing, Roomy, InFlight, HasPendingWrites, Fill, Push, Rearm, ReleaseBufferID, CompleteRead, Inv,
        Stored;
    var s1 := Fill(s0, b, data);
    RestedSame(s0, s1, multiset{}, multiset{});
    Pushes(s1, b, |data|, multiset{});
    var s2 := Push(s1, b, |data|).0;
    ReaderReleases(s2, multiset{});
    var s3 := ReleaseBufferID(s2);
    RestedInv(s3);
    if Push(s1, b, |data|).1 {
      Rearms(s3);
    }
  }

  lemma ReadsError(s: Sys)
    requires Inv(s) && s.source.request == Active
    ensures var r := ReleaseBufferID(s.(source := s.source.(request := Free)));
            && Rested(r, multiset{}) && r.source == s.source.(request := Free, bufferID := None)
            && Roomy(s) == Roomy(r)
            && Good(s, r)
  {
    var s1 := s.(source := s.source.(request := Free));
    ReadRests(s);
    hide Rested, Roomy, Inv;
    ReaderReleases(s1, multiset{});
    RestedInv(ReleaseBufferID(s1));
  }

  lemma ReadsEnd(s: Sys)
    requires Inv(s) && s.source.request == Active
    ensures Good(s, Step(s, ReadEnd))
  {
    ReadsError(s);
    hide Data, Flowing, Roomy, InFlight, HasPendingWrites, Inv, ReleaseBufferID;
    PushesEnd(ReleaseBufferID(s.(source := s.source.(request := Free))));
  }

  lemma OwnerEnds(s: Sys)
    requires Inv(s) && Enabled(s, EndNow)
    ensures Good(s, PushEnd(s))
  {
    OverFlows(s);
    hide Data, Flowing, Roomy, InFlight, HasPendingWrites, PushEnd, EndingFlies, Over, Progress;
    var state := s.source.state;
    if state == CanRead || state == AsyncReading || state == AsyncPushing || state == Pausing {
      PushesEnd(s);
    } else {
      EndRefused(s);
    }
  }

  lemma EndRefused(s: Sys)
    requires s.source.state == ReadState.Ended || s.source.state == ReadState.Destroying ||
             s.source.state == ReadState.Errored
    ensures PushEnd(s) == s
  {
  }

  // ------------------------------------------------------------------ A buffer pushed by the source's owner

  lemma ProduceRests(s: Sys)
    requires Inv(s) && s.source.state == Pausing && s.source.request == Free
    ensures Rested(s, multiset{}) && s.source.bufferID.None?
  {
    hide Data, Flowing, Roomy, InFlight, HasPendingWrites, EndingFlies, Over;
  }

  lemma Produces(s: Sys, data: Bytes)
    requires Inv(s) && Enabled(s, Produce(data))
    ensures Good(s, Step(s, Produce(data)))
  {
    var b := FirstFree(s.buffers).value;
    ProduceRests(s);
    Requests(s, b, multiset{});
    assert multiset{} + multiset{b} == multiset{b};
    var s1 := Request(s, b);
    Fills(s1, b, data, multiset{b});
    var s2 := Fill(s1, b, data);
    hide Data, Flowing, Roomy, InFlight, HasPendingWrites, Fill, Push, Request, FirstFree;
    RestedSame(s, s2, multiset{}, multiset{b});
    Pushes(s2, b, |data|, multiset{b});
    var s3 := Push(s2, b, |data|).0;
    assert Step(s, Produce(data)) == Unref(s3, b);
    ProducesLast(s3, b);
  }

  lemma ProducesLast(s: Sys, b: ID)
    requires Rested(s, multiset{b}) && s.source.bufferID.None?
    ensures Good(s, Unref(s, b))
  {
    assert multiset{} + multiset{b} == multiset{b};
    UnrefData(s, b, multiset{});
    hide Data, Flowing, Roomy, InFlight, HasPendingWrites, Unref;
    RestedSame(s, Unref(s, b), multiset{b}, multiset{});
    RestedInv(Unref(s, b));
  }

  // ------------------------------------------------------------------ Every step

  lemma Starts(s: Sys)
    requires Inv(s)
    ensures Good(s, ResumeReading(s))
  {
    hide Data, Flowing, Roomy, InFlight, HasPendingWrites, EndingFlies, Over, ResumeReading, Phase, SourceOk, Progress;
    Resumes(s);
  }

  lemma Cancelled(s: Sys)
    requires Inv(s) && s.source.request == Cancelling
    ensures !s.source.destroyed && Good(s, FinalizeDestruction(s))
  {
    hide Inv0, EndingFlies, Roomy, Over, FinalizeDestruction;
    Finalizes(s);
  }
}
