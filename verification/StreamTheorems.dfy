/** What holds of every run of a pipeline. */
module StreamTheorems {

  import opened Wrappers
  import opened StreamModel
  import opened StreamInvariant
  import opened StreamProofs
  import opened StreamDispatch
  import opened StreamEnd
  import opened StreamSteps
  import opened StreamWrites
  import opened StreamReads
  import opened StreamReading

  // ------------------------------------------------------------------ Every reachable state

  lemma {:induction false} NothingHeld(sinks: seq<Sink>, b: ID)
    requires forall i :: 0 <= i < |sinks| ==> SinkIds(sinks[i]) == []
    ensures SinkHeld(sinks, b) == 0
  {
    if sinks != [] {
      assert SinkIds(sinks[0]) == [];
      NothingHeld(sinks[1..], b);
    }
  }

  lemma {:induction false} NoSlotHeld(slots: seq<Option<PendingWrite>>, b: ID)
    requires forall j :: 0 <= j < |slots| ==> slots[j].None?
    ensures SlotHeld(slots, b) == 0
  {
    if slots != [] {
      NoSlotHeld(slots[1..], b);
    }
  }

  lemma StartsInvariant(s: Sys)
    requires Initial(s)
    ensures Inv(s)
  {
    forall x: ID ensures Held(s, x) == 0 {
      forall i | 0 <= i < |s.sinks| ensures SinkIds(s.sinks[i]) == [] {
      }
      NothingHeld(s.sinks, x);
      NoSlotHeld(s.slots, x);
    }
    forall i | 0 <= i < |s.sinks| ensures Log(s, i) == [] {
      NoPending(s.slots, i);
    }
    assert Sound(s, multiset{}) by { hide Held, Log; }
    hide Sound, Log;
  }

  lemma StepKeeps(s: Sys, e: Event)
    requires Inv(s)
    ensures Inv(Step(s, e)) && Roomy(Step(s, e)) == Roomy(s)
    ensures !e.WriteDone? ==> Step(s, e).failed == s.failed
  {
    hide Inv, Roomy, CompleteRead, CompleteWrite, FinalizeDestruction, ResumeReading, PushEnd;
    if Enabled(s, e) {
      match e {
        case Start => Starts(s);
        case ReadData(data) => ReadsData(s, data);
        case ReadEnd => ReadsEnd(s);
        case ReadError => ReadsError(s);
        case ReadCancelled => Cancelled(s);
        case Produce(data) => Produces(s, data);
        case EndNow => OwnerEnds(s);
        case WriteDone(i) => WritesDone(s, i);
      }
    }
  }

  /** The invariant holds in every state that any sequence of events reaches. */
  lemma {:induction false} Reached(s: Sys, events: seq<Event>)
    requires Inv(s)
    ensures Inv(Run(s, events)) && Roomy(Run(s, events)) == Roomy(s)
    decreases |events|
  {
    hide Inv, Roomy;
    if events != [] {
      StepKeeps(s, events[0]);
      Reached(Step(s, events[0]), events[1..]);
    }
  }

  lemma RunInvariant(s: Sys, events: seq<Event>)
    requires Initial(s)
    ensures Inv(Run(s, events)) && Roomy(Run(s, events)) == Roomy(s)
  {
    StartsInvariant(s);
    Reached(s, events);
  }

  // ------------------------------------------------------------------ Ordered lossless delivery

  /** In every reachable state each sink has, in order, everything dispatched: first what it has written,
      then the write in flight, its queue and its pending write; what is dispatched and what the read
      queue still holds is what push accepted. */
  lemma OrderedDelivery(s: Sys, events: seq<Event>, i: nat)
    requires Initial(s) && i < |s.sinks|
    ensures var r := Run(s, events);
            && r.written[i] +
               Contents(r.buffers, Opt(r.sinks[i].writing) + r.sinks[i].queue + PendingOf(r.slots, i)) == r.dispatched
            && r.dispatched + Contents(r.buffers, r.source.queue) == r.accepted
  {
    RunInvariant(s, events);
    hide Run, Initial, Contents, PendingOf, Inv, Opt;
    DataOf(Run(s, events), i);
  }

  lemma DataOf(r: Sys, i: nat)
    requires Inv(r) && i < |r.sinks|
    ensures i < |r.written| && Log(r, i) == r.dispatched &&
            r.dispatched + Contents(r.buffers, r.source.queue) == r.accepted
  {
    assert Log(r, i) + [] == r.dispatched;
    assert r.dispatched + [] + Contents(r.buffers, r.source.queue) == r.accepted;
    hide Log, Contents, Sound;
  }

  // ------------------------------------------------------------------ What arrives

  /** The bytes that an event brings to the read queue. */
  function Arrival(s: Sys, e: Event): seq<Bytes>
  {
    match e
    case ReadData(data) => if Enabled(s, e) && data != [] && |s.source.queue| < s.source.capacity then [data] else []
    case Produce(data) => if Enabled(s, e) && data != [] && |s.source.queue| < s.source.capacity then [data] else []
    case _ => []
  }

  function Arrivals(s: Sys, events: seq<Event>): seq<Bytes>
    decreases |events|
  {
    if events == [] then [] else Arrival(s, events[0]) + Arrivals(Step(s, events[0]), events[1..])
  }

  lemma PushAccepts(s: Sys, b: ID, data: Bytes)
    requires b < |s.buffers| && |data| <= |s.buffers[b].store|
    ensures var r := Push(Fill(s, b, data), b, |data|).0;
            && r.accepted == s.accepted + (if data != [] && |s.source.queue| < s.source.capacity then [data] else [])
            && r.written == s.written
  {
    hide PushQueued;
    if data != [] {
      var s1 := SetSize(Fill(s, b, data), b, |data|);
      assert s1.buffers[b].store[..|data|] == data;
    }
  }

  /** A step changes what was accepted by exactly what arrived, and what was written only by the
      bytes of the write that completes. */
  lemma StepHistory(s: Sys, e: Event)
    ensures Step(s, e).accepted == s.accepted + Arrival(s, e)
    ensures Step(s, e).written ==
            if e.WriteDone? && Enabled(s, e)
            then s.written[e.sink := s.written[e.sink] + [Content(s.buffers, s.sinks[e.sink].writing.value)]]
            else s.written
  {
    if Enabled(s, e) {
      match e {
        case ReadData(data) => ReadHistory(s, data);
        case Produce(data) => ProduceHistory(s, data);
        case _ =>
      }
    }
  }

  lemma ReadHistory(s: Sys, data: Bytes)
    requires Enabled(s, ReadData(data))
    ensures CompleteRead(s, data).accepted == s.accepted + Arrival(s, ReadData(data))
    ensures CompleteRead(s, data).written == s.written
  {
    var b := s.source.bufferID.value;
    var s0 := s.(source := s.source.(request := Free));
    PushAccepts(s0, b, data);
    ReadPushes(s, data);
    hide Fill, Push, CompleteRead;
  }

  lemma ReadPushes(s: Sys, data: Bytes)
    requires s.source.bufferID.Some?
    ensures var b := s.source.bufferID.value;
            var s2 := Push(Fill(s.(source := s.source.(request := Free)), b, data), b, |data|).0;
            CompleteRead(s, data).accepted == s2.accepted && CompleteRead(s, data).written == s2.written
  {
    var b := s.source.bufferID.value;
    var s0 := s.(source := s.source.(request := Free));
    assert Fill(s, b, data).(source := s0.source) == Fill(s0, b, data);
    var (s2, more) := Push(Fill(s0, b, data), b, |data|);
    hide Fill, Push;
    TailHistory(if s2.source.destroyed then s2 else ReleaseBufferID(s2), more);
    hide ReleaseBufferID, Request, FirstFree, Pause;
  }

  /** What follows a push does not touch what has arrived or what has been written. */
  lemma TailHistory(s3: Sys, more: bool)
    ensures var r := if more then
                       match FirstFree(s3.buffers)
                       case None => Pause(s3)
                       case Some(n) => Request(s3, n).(source := s3.source.(bufferID := Some(n), request := Active))
                     else s3;
            r.accepted == s3.accepted && r.written == s3.written
  {
    hide FirstFree;
  }

  lemma ProduceHistory(s: Sys, data: Bytes)
    requires Enabled(s, Produce(data))
    ensures Step(s, Produce(data)).accepted == s.accepted + Arrival(s, Produce(data))
    ensures Step(s, Produce(data)).written == s.written
  {
    var b := FirstFree(s.buffers).value;
    PushAccepts(Request(s, b), b, data);
    hide Fill, Push, FirstFree;
  }

  /** What push has accepted over a run is what has arrived in it. */
  lemma {:induction false} RunHistory(s: Sys, events: seq<Event>)
    ensures Run(s, events).accepted == s.accepted + Arrivals(s, events)
    decreases |events|
  {
    if events != [] {
      var s1 := Step(s, events[0]);
      StepHistory(s, events[0]);
      hide Step, Arrival;
      RunHistory(s1, events[1..]);
      Associative(s.accepted, Arrival(s, events[0]), Arrivals(s1, events[1..]));
    }
  }

  lemma Associative<T>(a: seq<T>, b: seq<T>, c: seq<T>)
    ensures (a + b) + c == a + (b + c)
  {
  }

  /** A read that completes is never dropped: its bytes always find room in the read queue. */
  lemma ReadsArrive(s: Sys, events: seq<Event>, data: Bytes)
    requires Initial(s) && s.source.capacity > 0 && data != [] && Enabled(Run(s, events), ReadData(data))
    ensures Run(s, events + [ReadData(data)]).accepted == Run(s, events).accepted + [data]
  {
    RunInvariant(s, events);
    RunAppend(s, events, ReadData(data));
    StepHistory(Run(s, events), ReadData(data));
    assert SourceOk(Run(s, events).source);
    hide Inv, Run, Step, Initial;
  }

  lemma {:induction false} RunAppend(s: Sys, events: seq<Event>, e: Event)
    ensures Run(s, events + [e]) == Step(Run(s, events), e)
    decreases |events|
  {
    if events == [] {
      assert [e][1..] == [];
      assert Run(s, [e]) == Run(Step(s, e), []);
      assert [] + [e] == [e];
    } else {
      assert (events + [e])[1..] == events[1..] + [e];
      hide Step;
      RunAppend(Step(s, events[0]), events[1..], e);
    }
  }

  // ------------------------------------------------------------------ Exact reference counts

  /** Between steps a buffer's count is the number of its holders, so that only a buffer nobody holds is
      handed out again. */
  lemma ExactReferences(s: Sys, events: seq<Event>, b: ID)
    requires Initial(s) && b < |s.buffers|
    ensures var r := Run(s, events);
            && r.buffers[b].refs == Count(Opt(r.source.bufferID), b) + Count(r.source.queue, b)
                                    + SlotHeld(r.slots, b) + SinkHeld(r.sinks, b)
            && (FirstFree(r.buffers) == Some(b) ==>
                  && r.source.bufferID != Some(b) && b !in r.source.queue
                  && (forall j :: 0 <= j < |r.slots| && r.slots[j].Some? ==> r.slots[j].value.buffer != b)
                  && (forall i :: 0 <= i < |r.sinks| ==> r.sinks[i].writing != Some(b) && b !in r.sinks[i].queue))
  {
    RunInvariant(s, events);
    var r := Run(s, events);
    hide Run, Initial, Log, Content;
    assert Held(r, b) == r.buffers[b].refs;
    if r.buffers[b].refs == 0 {
      CountIn(r.source.queue, b);
      forall j | 0 <= j < |r.slots| && r.slots[j].Some? ensures r.slots[j].value.buffer != b {
        SlotUpdate(r.slots, j, None, b);
      }
      forall i | 0 <= i < |r.sinks| ensures r.sinks[i].writing != Some(b) && b !in r.sinks[i].queue {
        SinkHolds(r.sinks, i, b);
        CountIn(SinkIds(r.sinks[i]), b);
        assert SinkIds(r.sinks[i]) == Opt(r.sinks[i].writing) + r.sinks[i].queue;
      }
    }
  }

  // ------------------------------------------------------------------ Back-pressure never deadlocks

  /** Queues and pool that leave room: every sink's queue can hold a write, and there is a buffer. */
  ghost predicate HasRoom(s: Sys)
  {
    Roomy(s) && s.buffers != []
  }

  ghost predicate WriteInFlight(s: Sys)
  {
    exists i :: 0 <= i < |s.sinks| && s.sinks[i].writing.Some?
  }

  lemma FlyingWrites(s: Sys)
    requires Inv(s)
    ensures InFlight(s) == WriteInFlight(s)
  {
    hide Held, Log, Contents;
    forall i | 0 <= i < |s.sinks| ensures StillWriting(s.sinks[i]) == s.sinks[i].writing.Some? {
      assert SinkOk(s.sinks[i]);
    }
  }

  /** Whenever the source is paused some sink has a write in flight, so each completion leaves another
      one in flight or resumes the source. */
  lemma NoDeadlock(s: Sys, events: seq<Event>)
    requires Initial(s) && HasRoom(s)
    ensures Run(s, events).source.state == Pausing ==> WriteInFlight(Run(s, events))
  {
    RunInvariant(s, events);
    hide Run, Data;
    FlyingWrites(Run(s, events));
  }

  function Total(written: seq<seq<Bytes>>): nat
  {
    if written == [] then 0 else |written[0]| + Total(written[1..])
  }

  lemma {:induction false} TotalGrows(written: seq<seq<Bytes>>, i: nat, bytes: Bytes)
    requires i < |written|
    ensures Total(written[i := written[i] + [bytes]]) == Total(written) + 1
  {
    if i == 0 {
      assert written[0 := written[0] + [bytes]][1..] == written[1..];
    } else {
      assert written[i := written[i] + [bytes]][1..] == written[1..][i - 1 := written[i] + [bytes]];
      TotalGrows(written[1..], i - 1, bytes);
    }
  }

  lemma {:induction false} TotalBound(written: seq<seq<Bytes>>, bound: nat)
    requires forall i :: 0 <= i < |written| ==> |written[i]| <= bound
    ensures Total(written) <= |written| * bound
  {
    if written != [] {
      TotalBound(written[1..], bound);
      assert |written| * bound == bound + |written[1..]| * bound;
    }
  }

  /** Nothing happens but completions of writes in flight. */
  predicate CompletionsOnly(s: Sys, events: seq<Event>)
    decreases |events|
  {
    events == [] || (events[0].WriteDone? && Enabled(s, events[0]) && CompletionsOnly(Step(s, events[0]), events[1..]))
  }

  lemma {:induction false} CompletionsCount(s: Sys, events: seq<Event>)
    requires CompletionsOnly(s, events)
    ensures Total(Run(s, events).written) == Total(s.written) + |events|
    ensures Run(s, events).accepted == s.accepted
    decreases |events|
  {
    if events != [] {
      StepHistory(s, events[0]);
      var i := events[0].sink;
      TotalGrows(s.written, i, Content(s.buffers, s.sinks[i].writing.value));
      hide Step, Content, Total;
      CompletionsCount(Step(s, events[0]), events[1..]);
    }
  }

  lemma WrittenBound(s: Sys)
    requires Inv(s)
    ensures Total(s.written) <= |s.sinks| * |s.accepted|
  {
    forall i | 0 <= i < |s.written| ensures |s.written[i]| <= |s.accepted| {
      DataOf(s, i);
    }
    hide Log, Data;
    TotalBound(s.written, |s.accepted|);
  }

  lemma {:induction false} RunSplit(s: Sys, events: seq<Event>, more: seq<Event>)
    ensures Run(s, events + more) == Run(Run(s, events), more)
    decreases |events|
  {
    if events == [] {
      assert events + more == more;
    } else {
      assert (events + more)[1..] == events[1..] + more;
      hide Step;
      RunSplit(Step(s, events[0]), events[1..], more);
    }
  }

  /** No read of the run comes back with an error or without data. */
  predicate ReadsSucceed(s: Sys, events: seq<Event>)
    decreases |events|
  {
    events == [] ||
    (!(Enabled(s, events[0]) && ComesBackEmpty(events[0])) && ReadsSucceed(Step(s, events[0]), events[1..]))
  }

  lemma {:induction false} ReadsGoOn(s: Sys, events: seq<Event>)
    requires Inv(s) && ReadFlies(s.source) && ReadsSucceed(s, events)
    ensures ReadFlies(Run(s, events).source)
    ensures s.source.state != CanRead || Start in events ==> Run(s, events).source.state != CanRead
    decreases |events|
  {
    hide Inv, Roomy, ReadFlies, Step, ComesBackEmpty;
    if events != [] {
      StepKeeps(s, events[0]);
      StepGoesOn(s, events[0]);
      if events[0] == Start {
        StartStarts(s);
      }
      ReadsGoOn(Step(s, events[0]), events[1..]);
    }
  }

  /** In every run whose reads succeed a source that is reading has a read in flight. */
  lemma ReadInFlight(s: Sys, events: seq<Event>)
    requires Initial(s) && ReadsSucceed(s, events)
    ensures var c := Run(s, events).source;
            && (c.state == AsyncReading || c.state == AsyncPushing ==> c.request == Active)
            && (Start in events ==> c.state != CanRead)
  {
    StartsInvariant(s);
    hide Run, Inv, ReadsSucceed;
    ReadsGoOn(s, events);
  }

  lemma {:induction false} CompletionsGoOn(s: Sys, events: seq<Event>)
    requires Inv(s) && ReadFlies(s.source) && CompletionsOnly(s, events)
    ensures ReadFlies(Run(s, events).source)
    ensures s.source.state != CanRead ==> Run(s, events).source.state != CanRead
    decreases |events|
  {
    hide Inv, Roomy, ReadFlies, Step;
    if events != [] {
      StepKeeps(s, events[0]);
      StepGoesOn(s, events[0]);
      CompletionsGoOn(Step(s, events[0]), events[1..]);
    }
  }

  /** What the source is doing when no write is in flight. */
  lemma AtRest(r: Sys)
    requires Inv(r) && HasRoom(r) && !WriteInFlight(r) && ReadFlies(r.source)
    ensures r.source.request == Active || HasEndState(r.source) || r.source.state == ReadState.Errored ||
            r.source.state == CanRead
  {
    assert SourceOk(r.source);
    Quiescent(r);
    hide Inv, HasRoom, WriteInFlight;
  }

  /** From any reachable state only so many writes can complete before something else has to happen;
      and once none is in flight the source is not paused any more, and if it has ended then
      so has every sink, with everything that was ever accepted. If its reads have succeeded so far, a read is in flight
      then, unless the source has ended, has failed or was not started. */
  lemma CompletionsResume(s: Sys, events: seq<Event>, completions: seq<Event>)
    requires Initial(s) && CompletionsOnly(Run(s, events), completions)
    ensures var r := Run(s, events);
            var r' := Run(r, completions);
            && |completions| <= |s.sinks| * |r.accepted| - Total(r.written)
            && r'.accepted == r.accepted
            && (HasRoom(s) && !WriteInFlight(r') ==>
                  && r'.source.state != Pausing
                  && (HasEndState(r'.source) ==>
                        !r'.piped && forall i :: 0 <= i < |s.sinks| ==>
                          r'.sinks[i].state == WriteState.Ended && r'.written[i] == r'.accepted)
                  && (ReadsSucceed(s, events) ==>
                        || r'.source.request == Active || HasEndState(r'.source) || r'.source.state == ReadState.Errored
                        || (r'.source.state == CanRead && Start !in events)))
  {
    var r := Run(s, events);
    var r' := Run(r, completions);
    RunInvariant(s, events);
    Reached(r, completions);
    CompletionsCount(r, completions);
    WrittenBound(r');
    if ReadsSucceed(s, events) {
      ReadInFlight(s, events);
      CompletionsGoOn(r, completions);
    }
    hide Run, CompletionsOnly, Inv, Total, ReadsSucceed, ReadFlies;
    Quiescent(r');
    if HasRoom(s) && !WriteInFlight(r') && ReadsSucceed(s, events) {
      AtRest(r');
    }
  }

  /** At rest a pipeline with room is neither paused nor half way through its end. */
  lemma Quiescent(r: Sys)
    requires Inv(r)
    ensures HasRoom(r) && !WriteInFlight(r) ==> r.source.state != Pausing
    ensures HasRoom(r) && !WriteInFlight(r) && HasEndState(r.source) ==>
              !r.piped && forall i :: 0 <= i < |r.sinks| ==>
                  r.sinks[i].state == WriteState.Ended && r.written[i] == r.accepted
  {
    FlyingWrites(r);
    if HasRoom(r) && !WriteInFlight(r) && HasEndState(r.source) {
      hide Data, Shape, HasPendingWrites, Logs, Accounted, InFlight;
      assert Over(r, multiset{}) && Closed(r);
      forall i | 0 <= i < |r.sinks| ensures r.written[i] == r.accepted {
        FinishedHasAll(r, i);
      }
    }
  }

  /** A sink ends only when it has written everything that push ever accepted. */
  lemma FinishedHasAll(r: Sys, i: nat)
    requires Inv(r) && i < |r.sinks| && r.sinks[i].state == WriteState.Ended
    ensures r.written[i] == r.accepted && r.source.queue == [] && !HasPendingWrites(r) && HasEndState(r.source)
  {
    assert !Open(r.sinks[i]) && SinkOk(r.sinks[i]);
    DataOf(r, i);
    assert Over(r, multiset{});
    hide Shape, Logs, Accounted, Data;
    NoPending(r.slots, i);
  }

  /** The pipeline ends a sink only when nothing is pending and the read queue is empty; and a sink has
      ended only when it has written, in order, all that ever arrived. */
  lemma EndOfStream(s: Sys, events: seq<Event>, i: nat)
    requires Initial(s) && i < |s.sinks|
    ensures var r := Run(s, events);
            && (r.sinks[i].state == Ending || r.sinks[i].state == WriteState.Ended ==>
                  HasEndState(r.source) && r.source.queue == [] && !HasPendingWrites(r) && r.dispatched == r.accepted)
            && (r.sinks[i].state == WriteState.Ended ==> r.written[i] == Arrivals(s, events))
  {
    AllArrived(s, events);
    RunInvariant(s, events);
    var r := Run(s, events);
    hide Run, Initial, Arrivals, Inv, HasPendingWrites;
    if r.sinks[i].state == WriteState.Ended {
      FinishedHasAll(r, i);
    }
    if r.sinks[i].state == Ending || r.sinks[i].state == WriteState.Ended {
      EndedDrained(r, i);
    }
  }

  lemma AllArrived(s: Sys, events: seq<Event>)
    requires Initial(s)
    ensures Run(s, events).accepted == Arrivals(s, events)
  {
    hide Run, Arrivals;
    RunHistory(s, events);
  }

  lemma EndedDrained(r: Sys, i: nat)
    requires Inv(r) && i < |r.sinks| && (r.sinks[i].state == Ending || r.sinks[i].state == WriteState.Ended)
    ensures HasEndState(r.source) && r.source.queue == [] && !HasPendingWrites(r) && r.dispatched == r.accepted
  {
    assert !Open(r.sinks[i]);
    assert Over(r, multiset{});
    hide Shape, Logs, Data;
    assert r.dispatched + [] + [] == r.accepted;
  }
}
