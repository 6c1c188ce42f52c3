/** Lemmas about data on its way from the read queue to the sinks. */
module StreamDispatch {

  import opened Wrappers
  import opened StreamModel
  import opened StreamInvariant
  import opened StreamProofs

  /** The pipeline is forwarding data; the bytes `mid` have left the read queue and reached no sink yet. */
  ghost predicate Going(s: Sys, extra: multiset<ID>, mid: seq<Bytes>)
  {
    && Shape(s, extra) && OpenSinks(s) && s.piped && !s.endingPipes
    && Logs(s, 0, []) && Accounted(s, mid) && |s.source.queue| <= s.source.capacity
  }

  lemma DispatchesRound(s: Sys, b: ID, extra: multiset<ID>)
    requires Going(s, extra, [Content(s.buffers, b)]) && extra[b] > 0 && !HasPendingWrites(s)
    ensures var s' := Dispatch(s, b);
            var s0 := s.(dispatched := s.dispatched + [Content(s.buffers, b)]);
            && Going(s', extra, []) && Moved(s0, s') && (Roomy(s) ==> InFlight(s'))
  {
    var s0 := s.(dispatched := s.dispatched + [Content(s.buffers, b)]);
    Sends(s, s0, b, extra);
    hide DispatchFrom, Shape, Content, HasPendingWrites, Roomy, InFlight, SlotsBelow, OpenSinks, Logs, Accounted;
    SameRoomy(s, s0);
    GoesRound(s0, b, 0, extra);
    AccountedMoved(s0, Dispatch(s, b));
  }

  lemma Sends(s: Sys, s0: Sys, b: ID, extra: multiset<ID>)
    requires Going(s, extra, [Content(s.buffers, b)]) && !HasPendingWrites(s)
    requires s0 == s.(dispatched := s.dispatched + [Content(s.buffers, b)])
    ensures Shape(s0, extra) && SlotsBelow(s0, 0) && OpenSinks(s0) && |s0.sinks| >= 1
    ensures Logs(s0, 0, [Content(s.buffers, b)]) && Accounted(s0, [])
  {
    assert |s.sinks| >= 1;
    hide Shape, Content, Log, Open, HasPendingWrites;
    ShapeSame(s, s0, extra);
    LogsSame(s, s0);
    SamePending(s, s0);
    NoSlots(s0);
  }

  lemma NoSlots(s: Sys)
    requires !HasPendingWrites(s)
    ensures SlotsBelow(s, 0)
  {
  }

  lemma SameRoomy(s: Sys, s': Sys)
    requires s.sinks == s'.sinks
    ensures Roomy(s) == Roomy(s') && InFlight(s) == InFlight(s')
  {
  }

  lemma AccountedMoved(s: Sys, s': Sys)
    requires Accounted(s, []) && Moved(s, s')
    ensures Accounted(s', [])
  {
    ContentsSame(s.buffers, s'.buffers, s.source.queue);
  }

  lemma ShapeSame(s: Sys, s': Sys, extra: multiset<ID>)
    requires Shape(s, extra)
    requires s'.buffers == s.buffers && s'.sinks == s.sinks && s'.slots == s.slots && s'.failed == s.failed
    requires s'.written == s.written
    requires s'.source == s.source.(state := s'.source.state)
    ensures Shape(s', extra)
  {
    assert forall x: ID :: Held(s', x) == Held(s, x);
    SlotsSame(s, s');
  }

  lemma LogsSame(s: Sys, s': Sys)
    requires s'.buffers == s.buffers && s'.sinks == s.sinks && s'.slots == s.slots && s'.written == s.written
    ensures forall i :: 0 <= i < |s.sinks| ==> Log(s', i) == Log(s, i)
  {
  }

  lemma DispatchesBack(s: Sys, b: ID, extra: multiset<ID>)
    requires Going(s, extra, [Content(s.buffers, b)]) && extra[b] > 0 && HasPendingWrites(s)
    requires |s.source.queue| < s.source.capacity
    ensures var s' := Dispatch(s, b);
            && Going(s', extra, []) && s'.sinks == s.sinks && s'.slots == s.slots
            && s' == s.(buffers := s'.buffers, source := Pause(s).source.(queue := [b] + s.source.queue))
  {
    hide RefsExact, SinkOk, Content, SlotsOk, Log, HasPendingWrites;
    PauseKeeps(s, extra);
    Unshifts(Pause(s), b, extra);
  }

  // ------------------------------------------------------------------ emitOnData

  /** What the loop of emitOnData leaves behind. */
  ghost predicate Emitted(s: Sys, s': Sys, extra: multiset<ID>)
  {
    && Going(s', extra, [])
    && s' == s.(buffers := s'.buffers, sinks := s'.sinks, slots := s'.slots, source := s'.source,
       dispatched := s'.dispatched)
    && |s'.sinks| == |s.sinks| && Roomy(s) == Roomy(s')
    && (s.source.queue == [] ==> s' == s)
    && (s.source.queue != [] && HasPendingWrites(s') ==>
          s'.source.state == Pausing || s'.source.state == ReadState.Ended)
    && (s'.source.state != Pausing && s'.source.state != ReadState.Ended ==> s'.source.queue == [])
    && (s'.source.state == Pausing && !HasPendingWrites(s') ==>
          s.source.state == Pausing && !HasPendingWrites(s) && (|s.source.queue| <= 1 ==> s'.source.queue == []))
    && (s.source.queue != [] && Roomy(s) ==> InFlight(s'))
    && (s'.source.state == s.source.state || s'.source.state == Pause(s).source.state)
  }

  lemma PendingFlies(s: Sys, extra: multiset<ID>)
    requires Shape(s, extra) && HasPendingWrites(s) && Roomy(s)
    ensures InFlight(s)
  {
    var j :| 0 <= j < |s.slots| && s.slots[j].Some?;
    FullSinkWrites(s.sinks[s.slots[j].value.sink]);
  }

  /** One turn of the loop: the front of the queue has been dispatched or put back. */
  function EmitOne(s: Sys): Sys
    requires s.source.queue != []
  {
    var b := s.source.queue[0];
    Unref(Dispatch(s.(source := s.source.(queue := s.source.queue[1..])), b), b)
  }

  lemma Pops(s: Sys, extra: multiset<ID>)
    requires Going(s, extra, []) && s.source.queue != []
    ensures var b := s.source.queue[0];
            var s0 := s.(source := s.source.(queue := s.source.queue[1..]));
            Going(s0, extra + multiset{b}, [Content(s.buffers, b)])
  {
    hide SinkOk, Content, SlotsOk;
    var b := s.source.queue[0];
    var s0 := s.(source := s.source.(queue := s.source.queue[1..]));
    assert forall x: ID :: Held(s, x) == Held(s0, x) + (if x == b then 1 else 0);
    SlotsSame(s, s0);
    LogsSame(s, s0);
    assert s.dispatched + [] + ([Content(s.buffers, b)] + Contents(s.buffers, s0.source.queue))
        == s.dispatched + [Content(s.buffers, b)] + Contents(s.buffers, s0.source.queue);
  }

  lemma EmitsRound(s: Sys, extra: multiset<ID>)
    requires Going(s, extra, []) && s.source.queue != [] && !HasPendingWrites(s)
    ensures var s' := EmitOne(s);
            var s0 := s.(dispatched := s.dispatched + [Content(s.buffers, s.source.queue[0])],
                         source := s.source.(queue := s.source.queue[1..]));
            && Going(s', extra, []) && Roomy(s) == Roomy(s') && (Roomy(s) ==> InFlight(s'))
            && s' == s0.(buffers := s'.buffers, sinks := s'.sinks, slots := s'.slots, source := s'.source)
            && |s'.sinks| == |s.sinks|
            && s'.source == (if HasPendingWrites(s') then Pause(s0) else s0).source
  {
    hide Dispatch, Shape, Content, Log, HasPendingWrites, Open;
    var b := s.source.queue[0];
    var s0 := s.(source := s.source.(queue := s.source.queue[1..]));
    Pops(s, extra);
    SamePending(s, s0);
    DispatchesRound(s0, b, extra + multiset{b});
    SamePending(s0, s0.(dispatched := s.dispatched + [Content(s.buffers, b)]));
    Releases(Dispatch(s0, b), b, extra);
  }

  lemma EmitsBack(s: Sys, extra: multiset<ID>)
    requires Going(s, extra, []) && s.source.queue != [] && HasPendingWrites(s)
    ensures var s' := EmitOne(s);
            && Going(s', extra, []) && (Roomy(s) ==> InFlight(s')) && HasPendingWrites(s')
            && s' == s.(buffers := s'.buffers, source := Pause(s).source)
  {
    hide Dispatch, Shape, Content, Log, HasPendingWrites, Open;
    var b := s.source.queue[0];
    var s0 := s.(source := s.source.(queue := s.source.queue[1..]));
    Pops(s, extra);
    SamePending(s, s0);
    DispatchesBack(s0, b, extra + multiset{b});
    assert [b] + s.source.queue[1..] == s.source.queue;
    var s1 := Dispatch(s0, b);
    SamePending(s1, s);
    Releases(s1, b, extra);
    if Roomy(s) { PendingFlies(s, extra); }
  }

  /** The reference that push took is dropped after the event. */
  lemma Releases(s: Sys, b: ID, extra: multiset<ID>)
    requires Going(s, extra + multiset{b}, [])
    ensures var s' := Unref(s, b);
            && Going(s', extra, []) && s' == s.(buffers := s'.buffers)
            && HasPendingWrites(s') == HasPendingWrites(s)
  {
    hide Shape, Content, Log, HasPendingWrites, Open;
    UnrefKeeps(s, b, extra);
    SamePending(s, Unref(s, b));
  }

  lemma EmitStops(s: Sys, s1: Sys, extra: multiset<ID>)
    requires Going(s, extra, []) && s.source.queue != [] && Emitting(s.source.state) && s1 == EmitOne(s)
    requires s1.source.state == Pausing || (s1.source.state == ReadState.Ended && s1.source.queue != [])
    ensures Emitted(s, s1, extra)
  {
    hide Going, HasPendingWrites, EmitOne, Roomy, InFlight;
    if HasPendingWrites(s) {
      EmitsBack(s, extra);
      SameRoomy(s, s1);
    } else {
      EmitsRound(s, extra);
    }
  }

  lemma EmitGoesOn(s: Sys, s1: Sys, s': Sys, extra: multiset<ID>)
    requires Going(s, extra, []) && s.source.queue != [] && Emitting(s.source.state) && s1 == EmitOne(s)
    requires s1.source.state != Pausing && (s1.source.state != ReadState.Ended || s1.source.queue == [])
    requires Emitted(s1, s', extra)
    ensures Emitted(s, s', extra)
  {
    hide Going, HasPendingWrites, EmitOne, Roomy, InFlight;
    if HasPendingWrites(s) {
      EmitsBack(s, extra);
    } else {
      EmitsRound(s, extra);
    }
    if Roomy(s) && s1.source.queue == [] {
      assert s' == s1;
    }
  }

  lemma {:induction false} EmitLoops(s: Sys, extra: multiset<ID>)
    requires Going(s, extra, []) && Emitting(s.source.state)
    ensures Emitted(s, EmitLoop(s), extra)
    decreases |s.source.queue|
  {
    hide Going, HasPendingWrites, Emitted, Roomy, InFlight;
    if s.source.queue == [] {
      EmitsNothing(s, extra);
    } else {
      var s1 := EmitOne(s);
      if s1.source.state == Pausing || (s1.source.state == ReadState.Ended && s1.source.queue != []) {
        EmitStops(s, s1, extra);
      } else {
        Shrinks(s, s1, extra);
        EmitLoops(s1, extra);
        EmitGoesOn(s, s1, EmitLoop(s1), extra);
      }
    }
  }

  lemma EmitsNothing(s: Sys, extra: multiset<ID>)
    requires Going(s, extra, []) && Emitting(s.source.state) && s.source.queue == []
    ensures Emitted(s, s, extra)
  {
    hide Going, HasPendingWrites;
  }

  lemma Shrinks(s: Sys, s1: Sys, extra: multiset<ID>)
    requires Going(s, extra, []) && s.source.queue != [] && Emitting(s.source.state) && s1 == EmitOne(s)
    requires s1.source.state != Pausing && (s1.source.state != ReadState.Ended || s1.source.queue == [])
    ensures Going(s1, extra, []) && Emitting(s1.source.state) && |s1.source.queue| < |s.source.queue|
  {
    hide Going, HasPendingWrites, EmitOne, Roomy, InFlight;
    if HasPendingWrites(s) {
      EmitsBack(s, extra);
    } else {
      EmitsRound(s, extra);
    }
  }
}
