/** Lemmas about the completion of a write: finishedWriting, afterWrite and retryPendingWrites. */
module StreamWrites {

  import opened Wrappers
  import opened StreamModel
  import opened StreamInvariant
  import opened StreamProofs
  import opened StreamDispatch
  import opened StreamEnd
  import opened StreamSteps

  // ------------------------------------------------------------------ The sink moves on

  /** The sink after the write in flight: the front of its queue is next, or it is idle, or it has ended. */
  function Next(k: Sink): Sink
  {
    if k.queue != [] then k.(writing := Some(k.queue[0]), queue := k.queue[1..])
    else k.(writing := None, state := if k.state == Ending then WriteState.Ended else WriteState.Stopped)
  }

  lemma NextOk(k: Sink)
    requires SinkOk(k) && k.writing.Some?
    ensures SinkOk(Next(k)) && SinkIds(k) == [k.writing.value] + SinkIds(Next(k))
    ensures Open(k) ==> Open(Next(k))
    ensures Next(k).capacity == k.capacity && Next(k).listening == k.listening
  {
    if k.queue != [] {
      assert k.queue == [k.queue[0]] + k.queue[1..];
    }
  }

  /** The write of buffer b has completed; its two references are loose. */
  function Taken(s: Sys, i: nat, b: ID): Sys
    requires i < |s.sinks| == |s.written|
  {
    s.(sinks := s.sinks[i := Next(s.sinks[i])], written := s.written[i := s.written[i] + [Content(s.buffers, b)]])
  }

  lemma TakesRefs(s: Sys, i: nat, b: ID)
    requires Sound(s, multiset{}) && i < |s.sinks| && s.sinks[i].writing == Some(b)
    ensures Sound(Taken(s, i, b), multiset{b} + multiset{b})
  {
    var s0 := Taken(s, i, b);
    var k := s.sinks[i];
    NextOk(k);
    forall x: ID ensures Held(s0, x) + (if x == b then 2 else 0) == Held(s, x) {
      SinkUpdate(s.sinks, i, Next(k), x);
      CountAppend([b], SinkIds(Next(k)), x);
    }
    hide SinkOk, Content, Next, Held;
    DistinctSame(s, s0);
  }

  /** A completed write stays in its sink's log: it has only changed sides. */
  lemma TakesLogs(s: Sys, i: nat, b: ID)
    requires i < |s.sinks| == |s.written| && SinkOk(s.sinks[i]) && s.sinks[i].writing == Some(b)
    ensures forall l :: 0 <= l < |s.sinks| ==> Log(Taken(s, i, b), l) == Log(s, l)
  {
    var s0 := Taken(s, i, b);
    var k := s.sinks[i];
    NextOk(k);
    var rest := SinkIds(Next(k)) + PendingOf(s.slots, i);
    assert SinkIds(k) + PendingOf(s.slots, i) == [b] + rest;
    ContentsAppend(s.buffers, [b], rest);
    assert Contents(s.buffers, [b]) == [Content(s.buffers, b)];
    assert s.written[i] + ([Content(s.buffers, b)] + Contents(s.buffers, rest)) ==
           s0.written[i] + Contents(s.buffers, rest);
  }

  lemma RefUnref(s: Sys, b: ID)
    requires b < |s.buffers| && s.buffers[b].refs > 0
    ensures Unref(Ref(s, b), b) == s
  {
    var x := s.buffers[b];
    Overwrite(s.buffers, b, x.(refs := x.refs + 1), x);
  }

  /** The write at the front of the queue has started: references are as they were. */
  lemma StartsFront(s: Sys, i: nat, k: Sink)
    requires i < |s.sinks| && k.queue != []
    requires k.queue[0] < |s.buffers| && s.buffers[k.queue[0]].refs > 0
    ensures StartFront(s, i, k) == SetSink(s, i, Next(k))
  {
    RefUnref(SetSink(s, i, Next(k)), k.queue[0]);
  }

  /** The second part of AfterWrite. */
  function Answer(s: Sys): Sys
  {
    if HasPendingWrites(s) then s
    else if s.shouldEndWhenDrained then
      if s.source.queue != [] then ResumeReading(s)
      else EndPipes(s.(shouldEndWhenDrained := false))
    else ResumeReading(s)
  }

  /** Both references of the completed write are gone, and pending writes have been tried. */
  function Released(s: Sys, i: nat, b: ID): Sys
    requires i < |s.sinks| == |s.written|
  {
    Unref(Unref(Taken(s, i, b), b), b)
  }

  lemma FinishedForm(s: Sys, s1: Sys, i: nat, b: ID)
    requires Sound(s, multiset{}) && i < |s.sinks| && s.sinks[i].writing == Some(b) && s.piped
    requires s1 == SetSink(s, i, s.sinks[i].(writing := None)).(written := Taken(s, i, b).written)
    ensures var s3 := Answer(Retry(Released(s, i, b), 0));
            FinishedWriting(Unref(s1, b), i, b) ==
              if i < |s3.sinks| && s3.sinks[i].state == WriteState.Ended then Finish(s3, i) else s3
  {
    StartsNext(s, s1, i, b);
    var u := Unref(s1, b);
    assert StillWriting(u.sinks[i]) by { assert SinkOk(s.sinks[i]); }
    AfterForm(Unref(Taken(s, i, b), b), b);
    hide AfterWrite, Finish, Answer, Retry, StartNext, Sound;
  }

  lemma StartsNext(s: Sys, s1: Sys, i: nat, b: ID)
    requires Sound(s, multiset{}) && i < |s.sinks| && s.sinks[i].writing == Some(b)
    requires s1 == SetSink(s, i, s.sinks[i].(writing := None)).(written := Taken(s, i, b).written)
    ensures StartNext(Unref(s1, b), i) == Unref(Taken(s, i, b), b)
  {
    var k := s.sinks[i];
    var k1 := k.(writing := None);
    var u := Unref(s1, b);
    Overwrite(s.sinks, i, k1, Next(k));
    assert SetSink(u, i, Next(k)) == Unref(Taken(s, i, b), b);
    assert Next(k1) == Next(k) && k1.queue == k.queue;
    if k.queue != [] {
      FrontHeld(s, i, b);
      StartsFront(u, i, k1);
    }
    assert StillWriting(k) by { assert SinkOk(k); }
    hide Sound, Unref, StartFront;
  }

  lemma AfterForm(s: Sys, b: ID)
    requires s.piped
    ensures AfterWrite(s, b) == Answer(Retry(Unref(s, b), 0))
  {
    hide Retry, ResumeReading, EndPipes, HasPendingWrites, Unref;
  }

  lemma FrontHeld(s: Sys, i: nat, b: ID)
    requires Sound(s, multiset{}) && i < |s.sinks| && s.sinks[i].writing == Some(b) && s.sinks[i].queue != []
    ensures var f := s.sinks[i].queue[0];
            var s1 := SetSink(s, i, s.sinks[i].(writing := None)).(written := Taken(s, i, b).written);
            f < |s.buffers| && Unref(s1, b).buffers[f].refs > 0
  {
    var k := s.sinks[i];
    var f := k.queue[0];
    SinkHolds(s.sinks, i, f);
    SinkHolds(s.sinks, i, b);
    CountAppend([b], k.queue, f);
    CountAppend([b], k.queue, b);
    assert Held(s, f) >= 2 && Held(s, b) >= 2;
    assert f == b ==> Held(s, b) >= 4;
  }

  /** Pending writes wait for room, but the one for sink i may have got it. */
  predicate WaitingBut(s: Sys, i: nat)
    requires SlotsDistinct(s)
  {
    forall j :: 0 <= j < |s.slots| && s.slots[j].Some? ==>
      var k := s.sinks[s.slots[j].value.sink];
      Open(k) && (s.slots[j].value.sink != i ==> !CanAcceptWrite(k))
  }

  /** The buffers and the logs of s', up to the references, are those of s. */
  ghost predicate SameLogs(s: Sys, s': Sys)
    requires |s'.sinks| == |s.sinks|
  {
    && (forall l :: 0 <= l < |s.sinks| ==> Log(s', l) == Log(s, l))
    && Contents(s'.buffers, s.source.queue) == Contents(s.buffers, s.source.queue)
    && |s'.buffers| == |s.buffers|
  }

  lemma ReleasesBoth(s: Sys, i: nat, b: ID)
    requires Shape(s, multiset{}) && i < |s.sinks| && s.sinks[i].writing == Some(b)
    ensures var t := Released(s, i, b);
            && t == Taken(s, i, b).(buffers := t.buffers) && Sound(t, multiset{}) && WaitingBut(t, i) && SameLogs(s, t)
  {
    assert SinkOk(s.sinks[i]);
    NextOk(s.sinks[i]);
    var s0 := Taken(s, i, b);
    TakesRefs(s, i, b);
    TakesLogs(s, i, b);
    assert multiset{} + multiset{b} == multiset{b};
    assert SlotsDistinct(s);
    hide Log, Content, Sound, Held, KeepsHeld, Next, Open, CanAcceptWrite;
    UnrefSound(s0, b, multiset{b});
    UnrefSound(Unref(s0, b), b, multiset{});
    DistinctOf(Released(s, i, b), multiset{});
  }

  // ------------------------------------------------------------------ retryPendingWrites

  lemma {:induction false} RetryNothing(s: Sys, j: nat)
    requires forall l :: j <= l < |s.slots| && s.slots[l].Some? ==>
               s.slots[l].value.sink >= |s.sinks| || !CanAcceptWrite(s.sinks[s.slots[l].value.sink])
    ensures Retry(s, j) == s
    decreases |s.slots| - j
  {
    if j < |s.slots| {
      RetryNothing(s, j + 1);
    }
  }

  lemma {:induction false} RetryOne(s: Sys, j: nat, l: nat)
    requires j <= l < |s.slots| && s.slots[l].Some? && s.slots[l].value.sink < |s.sinks|
    requires forall m :: j <= m < |s.slots| && m != l && s.slots[m].Some? ==>
               && s.slots[m].value.sink != s.slots[l].value.sink
               && (s.slots[m].value.sink >= |s.sinks| || !CanAcceptWrite(s.sinks[s.slots[m].value.sink]))
    requires var k := s.sinks[s.slots[l].value.sink]; SinkOk(k) && CanAcceptWrite(k)
    requires s.slots[l].value.buffer < |s.buffers| && s.buffers[s.slots[l].value.buffer].refs > 0
    ensures Retry(s, j) == Write(s.(slots := s.slots[l := None]), s.slots[l].value.sink, s.slots[l].value.buffer).0
    decreases l - j
  {
    if j < l {
      RetryOne(s, j + 1, l);
    } else {
      var p := s.slots[l].value;
      WriteForm(s, p.sink, p.buffer);
      WriteForm(s.(slots := s.slots[l := None]), p.sink, p.buffer);
      hide Write, CanAcceptWrite, Accept, AddRef, SinkOk;
      RetryNothing(Write(s, p.sink, p.buffer).0.(slots := s.slots[l := None]), l + 1);
    }
  }

  /** Retrying gives sink i the write that waited for it, if there was one and it has room for it now. */
  ghost predicate Retried(s: Sys, s': Sys, i: nat)
    requires i < |s.sinks|
  {
    && s' == s.(buffers := s'.buffers, sinks := s'.sinks, slots := s'.slots)
    && |s'.sinks| == |s.sinks| && (forall l :: 0 <= l < |s.sinks| && l != i ==> s'.sinks[l] == s.sinks[l])
    && (s'.sinks[i] == s.sinks[i] ||
          (Open(s.sinks[i]) && Open(s'.sinks[i]) && s'.sinks[i].capacity == s.sinks[i].capacity))
    && (HasPendingWrites(s') ==> HasPendingWrites(s))
    && SameLogs(s, s') && Shape(s', multiset{})
  }

  lemma Retries(s: Sys, i: nat)
    requires Sound(s, multiset{}) && i < |s.sinks| && WaitingBut(s, i)
    ensures Retried(s, Retry(s, 0), i)
  {
    if j :| 0 <= j < |s.slots| && s.slots[j].Some? && s.slots[j].value.sink == i && CanAcceptWrite(s.sinks[i]) {
      RetriesOne(s, i, j);
    } else {
      RetryNothing(s, 0);
    }
  }

  lemma RetriesOne(s: Sys, i: nat, j: nat)
    requires Sound(s, multiset{}) && i < |s.sinks| && WaitingBut(s, i)
    requires j < |s.slots| && s.slots[j].Some? && s.slots[j].value.sink == i && CanAcceptWrite(s.sinks[i])
    ensures Retried(s, Retry(s, 0), i)
  {
    OthersBlocked(s, i, j);
    RetryForm(s, i, j);
    hide Log, Sound, Content, Retry, Write, Shape, CanAcceptWrite, Retried, Open, Accept, AddRef, WaitingBut,
        BlockedBut;
    var s0 := s.(slots := s.slots[j := None]);
    var b := s.slots[j].value.buffer;
    SlotCleared(s, s0, j, multiset{});
    assert multiset{} + multiset{b} == multiset{b};
    WriteKeeps(s0, i, b, multiset{});
    RetriedForm(s, s0, Retry(s, 0), i, j);
  }

  lemma OthersBlocked(s: Sys, i: nat, j: nat)
    requires SlotsDistinct(s) && i < |s.sinks| && WaitingBut(s, i)
    requires j < |s.slots| && s.slots[j].Some? && s.slots[j].value.sink == i
    ensures BlockedBut(s, j) && Open(s.sinks[i])
  {
  }

  lemma RetriedForm(s: Sys, s0: Sys, s': Sys, i: nat, j: nat)
    requires j < |s.slots| && s.slots[j].Some? && s.slots[j].value.sink == i < |s.sinks| && Open(s.sinks[i])
    requires s0 == s.(slots := s.slots[j := None]) && s.slots[j].value.buffer < |s.buffers|
    requires var b := s.slots[j].value.buffer;
             && s' == s0.(buffers := AddRef(s.buffers, b), sinks := s.sinks[i := Accept(s.sinks[i], b)])
             && Shape(s', multiset{}) && (forall x: ID :: Content(s'.buffers, x) == Content(s.buffers, x))
             && Log(s, i) == Log(s0, i) + [Content(s.buffers, b)] == Log(s', i)
             && (forall l :: 0 <= l < |s.sinks| && l != i ==> Log(s', l) == Log(s0, l) == Log(s, l))
    ensures Retried(s, s', i)
  {
    AcceptOpen(s.sinks[i], s.slots[j].value.buffer);
    hide Log, Shape, Content, Open, Accept;
    ContentsSame(s.buffers, s'.buffers, s.source.queue);
  }

  lemma AcceptOpen(k: Sink, b: ID)
    ensures Open(k) ==> Open(Accept(k, b))
    ensures Accept(k, b).capacity == k.capacity
  {
  }

  lemma RetryForm(s: Sys, i: nat, j: nat)
    requires Sound(s, multiset{}) && i < |s.sinks| && WaitingBut(s, i)
    requires j < |s.slots| && s.slots[j].Some? && s.slots[j].value.sink == i && CanAcceptWrite(s.sinks[i])
    ensures Retry(s, 0) == Write(s.(slots := s.slots[j := None]), i, s.slots[j].value.buffer).0
  {
    SlotReferenced(s, j);
    hide Retry, Write, CanAcceptWrite, Held, Open, SinkOk;
    RetryOne(s, 0, j);
  }

  lemma SlotReferenced(s: Sys, j: nat)
    requires Sound(s, multiset{}) && j < |s.slots| && s.slots[j].Some?
    ensures var b := s.slots[j].value.buffer; b < |s.buffers| && s.buffers[b].refs > 0
  {
    var b := s.slots[j].value.buffer;
    SlotUpdate(s.slots, j, None, b);
    assert Held(s, b) > 0;
  }

  // ------------------------------------------------------------------ The pipeline answers

  /** The state in which afterWrite decides what to resume. */
  ghost predicate Answerable(s: Sys)
  {
    && Data(s, multiset{}) && SourceOk(s.source) && Phase(s) && s.piped
    && (s.source.state == CanRead || s.source.state == AsyncPushing ==> !HasPendingWrites(s))
  }

  /** One write of sink i is over and has been answered with retried writes. */
  ghost predicate Completed(s: Sys, r: Sys, i: nat)
    requires i < |s.sinks|
  {
    && r == s.(buffers := r.buffers, sinks := r.sinks, slots := r.slots, written := r.written)
    && |r.sinks| == |s.sinks| && (forall l :: 0 <= l < |s.sinks| && l != i ==> r.sinks[l] == s.sinks[l])
    && (r.sinks[i] == Next(s.sinks[i]) ||
        (Open(Next(s.sinks[i])) && Open(r.sinks[i]) && r.sinks[i].capacity == s.sinks[i].capacity))
    && (HasPendingWrites(r) ==> HasPendingWrites(s))
    && Data(r, multiset{})
  }

  lemma Completes(s: Sys, i: nat, b: ID)
    requires Data(s, multiset{}) && i < |s.sinks| && s.sinks[i].writing == Some(b)
    ensures Completed(s, Retry(Released(s, i, b), 0), i)
  {
    NextOk(s.sinks[i]);
    ReleasesBoth(s, i, b);
    var t := Released(s, i, b);
    hide Retry, Log, Sound, Shape, Content, HasPendingWrites, Open, WaitingBut, Released, Next;
    Retries(t, i);
    SamePending(s, t);
    CompletedForm(s, t, Retry(t, 0), i, b);
  }

  lemma CompletedForm(s: Sys, t: Sys, r: Sys, i: nat, b: ID)
    requires Data(s, multiset{}) && i < |s.sinks| == |s.written| && Next(s.sinks[i]).capacity == s.sinks[i].capacity
    requires t == Taken(s, i, b).(buffers := t.buffers) && SameLogs(s, t) && HasPendingWrites(t) == HasPendingWrites(s)
    requires Retried(t, r, i)
    ensures Completed(s, r, i)
  {
    hide Log, Shape, Content, HasPendingWrites, Open, Next;
  }

  /** Sink i has ended and its listener has not been called yet. */
  predicate JustFinished(s: Sys, i: nat)
    requires i < |s.sinks|
  {
    && s.piped && s.sinks[i].state == WriteState.Ended && s.sinks[i].listening
    && forall l :: 0 <= l < |s.sinks| && l != i && s.sinks[l].state == WriteState.Ended ==> !s.sinks[l].listening
  }

  lemma CompletesPhase(s: Sys, r: Sys, i: nat)
    requires Inv(s) && i < |s.sinks| && s.sinks[i].writing.Some? && Completed(s, r, i)
    ensures s.piped && Answerable(r) && Roomy(s) == Roomy(r)
    ensures EndingFlies(r) || JustFinished(r, i)
  {
    assert SinkOk(s.sinks[i]);
    NextOk(s.sinks[i]);
    if Flowing(s) {
      assert Open(s.sinks[i]);
      OverFlows(s);
      hide Data, HasPendingWrites, Over, Next;
    } else {
      assert Over(s, multiset{});
      OverStays(s, r, i);
      hide Data, HasPendingWrites, Over, Next, SinkOk, Completed;
    }
  }

  lemma OverStays(s: Sys, r: Sys, i: nat)
    requires Over(s, multiset{}) && i < |s.sinks| && StillWriting(s.sinks[i]) && Completed(s, r, i)
    ensures Over(r, multiset{}) && s.piped && Roomy(s) == Roomy(r)
    ensures EndingFlies(s) ==> EndingFlies(r) || JustFinished(r, i)
  {
    assert Closing(s);
    assert !Open(Next(s.sinks[i]));
    hide Shape, HasPendingWrites, Logs, Accounted, Contents;
    if r.sinks[i].state != WriteState.Ended {
      assert StillWriting(r.sinks[i]);
    }
  }

  /** With writes still pending the pipeline waits; otherwise it resumes the source, or ends the sinks. */
  lemma Answers(s: Sys)
    requires Answerable(s)
    ensures Settled(s, Answer(s))
  {
    if HasPendingWrites(s) {
      if Roomy(s) { PendingFlies(s, multiset{}); }
      assert Answer(s) == s;
      hide Data, HasPendingWrites, Over, Flowing;
    } else if s.shouldEndWhenDrained && s.source.queue == [] {
      AnswersEnd(s);
    } else {
      OverFlows(s);
      hide Data, HasPendingWrites, Over, Flowing, ResumeReading, Settled;
      Resumes(s);
    }
  }

  lemma AnswersEnd(s: Sys)
    requires Answerable(s) && !HasPendingWrites(s) && s.shouldEndWhenDrained && s.source.queue == []
    ensures Settled(s, Answer(s))
  {
    var s1 := s.(shouldEndWhenDrained := false);
    Relabels(s, s1, multiset{});
    assert Answer(s) == EndPipes(s1) by { hide EndPipes; }
    if s.endingPipes {
      assert EndPipes(s1) == s1;
      OverFlows(s);
      OverFlows(s1);
      hide Data, HasPendingWrites, Over, Flowing;
    } else {
      OpenOrClosed(s);
      GoingData(s1, multiset{});
      hide Data, HasPendingWrites, Over, Flowing, EndPipes, Going, Answer;
      Ends(s1, multiset{});
      EndedRests(s, s1, EndPipes(s1));
    }
  }

  lemma OpenOrClosed(s: Sys)
    requires Phase(s) && s.piped && !s.endingPipes
    ensures Flowing(s)
  {
  }

  lemma EndedRests(s: Sys, s1: Sys, s': Sys)
    requires Answerable(s) && !HasPendingWrites(s) && s.shouldEndWhenDrained && s.source.queue == [] && Flowing(s)
    requires s1 == s.(shouldEndWhenDrained := false) && HasEnded(s1, s') && Over(s', multiset{}) && EndingFlies(s')
    requires Roomy(s1) == Roomy(s')
    ensures Settled(s, s')
  {
    OverFlows(s);
    OverFlows(s');
    SameRoomy(s, s1);
    hide Shape, HasPendingWrites, Logs, Accounted, Closing, Closed;
  }

  // ------------------------------------------------------------------ A sink finishes

  /** afterSinkEnd on the sinks, in closed form. */
  function Unlisten(k: Sink): Sink
  {
    if StillWriting(k) then k else k.(listening := false)
  }

  /** A sink from this one on that is done has no listener left. */
  predicate Unheard(sinks: seq<Sink>, i: nat)
  {
    exists l :: i <= l < |sinks| && !StillWriting(sinks[l]) && !sinks[l].listening
  }

  lemma UnheardNext(sinks: seq<Sink>, k: Sink, i: nat)
    requires i < |sinks|
    ensures Unheard(sinks, i) <==> (!StillWriting(sinks[i]) && !sinks[i].listening) || Unheard(sinks[i := k], i + 1)
  {
    hide StillWriting;
    if l :| i + 1 <= l < |sinks| && !StillWriting(sinks[l]) && !sinks[l].listening {
      assert sinks[i := k][l] == sinks[l];
    }
    var later := sinks[i := k];
    if l :| i + 1 <= l < |later| && !StillWriting(later[l]) && !later[l].listening {
      assert later[l] == sinks[l];
    }
  }

  lemma {:induction false} RemoveForm(s: Sys, i: nat)
    requires i <= |s.sinks|
    ensures var r := RemoveListeners(s, i);
            && r == s.(sinks := r.sinks, failed := r.failed) && |r.sinks| == |s.sinks|
            && (forall l :: 0 <= l < |s.sinks| ==> r.sinks[l] == if l < i then s.sinks[l] else Unlisten(s.sinks[l]))
            && r.failed == s.failed + (if Unheard(s.sinks, i) then {FinishListener} else {})
    decreases |s.sinks| - i
  {
    hide Unheard;
    if i < |s.sinks| {
      var k := s.sinks[i];
      UnheardNext(s.sinks, if StillWriting(k) then k else k.(listening := false), i);
      if StillWriting(k) {
        assert s.sinks[i := k] == s.sinks;
        RemoveForm(s, i + 1);
      } else {
        RemoveForm(Check(s.(sinks := s.sinks[i := k.(listening := false)]), k.listening, FinishListener), i + 1);
      }
    } else {
      UnheardNone(s.sinks);
    }
  }

  lemma UnheardNone(sinks: seq<Sink>)
    ensures !Unheard(sinks, |sinks|)
  {
  }

  lemma AutoDestroyForm(s: Sys, i: nat)
    requires i < |s.sinks| && s.sinks[i].state == WriteState.Ended && s.sinks[i].writing.None? && s.sinks[i].queue == []
    ensures AutoDestroySink(s, i) ==
            SetSink(s, i, s.sinks[i].(destroyed := s.sinks[i].destroyed || s.sinks[i].autoDestroy))
  {
    var k := s.sinks[i];
    assert k.(queue := []) == k;
    Overwrite(s.sinks, i, k, k.(destroyed := true));
  }

  /** eventFinish of a sink that has ended, in closed form. */
  ghost predicate HasFinished(s: Sys, s': Sys, i: nat)
    requires i < |s.sinks|
  {
    var heard := s.sinks[i].listening && s.piped;
    && |s'.sinks| == |s.sinks|
    && (forall l :: 0 <= l < |s.sinks| ==>
          var k := if heard then Unlisten(s.sinks[l]) else s.sinks[l];
          s'.sinks[l] == k.(destroyed := s'.sinks[l].destroyed))
    && (forall a :: a in s'.failed ==> a in s.failed || a == FinishListener)
    && s' == if heard && !InFlight(s)
             then s.(sinks := s'.sinks, failed := s'.failed, shouldEndWhenDrained := false, endingPipes := false,
                 piped := false)
             else s.(sinks := s'.sinks, failed := s'.failed)
  }

  lemma HeardForm(s: Sys)
    requires s.piped && !HasPendingWrites(s)
    ensures var s1 := AfterSinkEnd(s);
            && |s1.sinks| == |s.sinks| && (forall l :: 0 <= l < |s.sinks| ==> s1.sinks[l] == Unlisten(s.sinks[l]))
            && (forall a :: a in s1.failed ==> a in s.failed || a == FinishListener)
            && s1 == if !InFlight(s)
                     then s.(sinks := s1.sinks, failed := s1.failed, shouldEndWhenDrained := false,
                         endingPipes := false, piped := false)
                     else s.(sinks := s1.sinks, failed := s1.failed)
  {
    var r := RemoveListeners(s, 0);
    RemoveForm(s, 0);
    SamePending(s, r);
    UnpipeForm(r);
    hide RemoveListeners, Unpipe, HasPendingWrites, Unlisten, StillWriting;
  }

  lemma FinishForm(s: Sys, i: nat)
    requires i < |s.sinks| && s.sinks[i].state == WriteState.Ended && SinkOk(s.sinks[i]) && !HasPendingWrites(s)
    ensures HasFinished(s, Finish(s, i), i)
  {
    if s.piped {
      HeardForm(s);
    }
    var s1 := if s.sinks[i].listening then AfterSinkEnd(s) else s;
    assert !s.piped ==> s1 == s;
    hide AfterSinkEnd, HasPendingWrites, AutoDestroySink, InFlight;
    AutoDestroyForm(s1, i);
  }

  lemma FinishLoad(s: Sys, s': Sys, i: nat)
    requires i < |s.sinks| && HasFinished(s, s', i) && forall l :: 0 <= l < |s.sinks| ==> SinkOk(s.sinks[l])
    requires forall a :: a in s.failed ==> a == FinishListener
    ensures SameLoad(s, s') && Roomy(s) == Roomy(s') && InFlight(s) == InFlight(s')
    ensures forall a :: a in s'.failed ==> a == FinishListener
  {
    if l :| 0 <= l < |s.sinks| && StillWriting(s.sinks[l]) {
      assert StillWriting(s'.sinks[l]);
    }
    forall l | 0 <= l < |s.sinks| ensures SinkIds(s'.sinks[l]) == SinkIds(s.sinks[l]) && SinkOk(s'.sinks[l]) {
      assert SinkOk(s.sinks[l]);
    }
  }

  lemma FinishPhase(s: Sys, s': Sys, i: nat)
    requires i < |s.sinks| && HasFinished(s, s', i) && (Closing(s) || Closed(s))
    requires InFlight(s) == InFlight(s') && (EndingFlies(s) || JustFinished(s, i))
    requires forall l :: 0 <= l < |s.sinks| ==> SinkOk(s.sinks[l])
    ensures (Closing(s') || Closed(s')) && EndingFlies(s')
  {
    if s.piped && s.sinks[i].listening && !InFlight(s) {
      assert forall l :: 0 <= l < |s.sinks| ==> !StillWriting(s.sinks[l]);
    }
  }

  lemma Finishes(s: Sys, i: nat)
    requires Inv0(s) && i < |s.sinks| && s.sinks[i].state == WriteState.Ended
    requires EndingFlies(s) || JustFinished(s, i)
    ensures Inv(Finish(s, i)) && Roomy(s) == Roomy(Finish(s, i))
  {
    assert !Open(s.sinks[i]) && !Flowing(s);
    FinishForm(s, i);
    var s' := Finish(s, i);
    hide Finish, HasPendingWrites, EndingFlies, Roomy, InFlight, Closing, Closed;
    FinishLoad(s, s', i);
    FinishPhase(s, s', i);
    FinishRests(s, s', i);
  }

  lemma FinishRests(s: Sys, s': Sys, i: nat)
    requires Inv0(s) && i < |s.sinks| && Over(s, multiset{}) && HasFinished(s, s', i) && SameLoad(s, s')
    requires (Closing(s') || Closed(s')) && EndingFlies(s') && Roomy(s) == Roomy(s')
    requires forall a :: a in s'.failed ==> a == FinishListener
    ensures Inv(s')
  {
    OverFlows(s);
    hide Shape, HasPendingWrites, Logs, Accounted, Closing, Closed, EndingFlies, InFlight;
    SinksReplaced(s, s', multiset{});
    OverFlows(s');
  }

  /** The completion of a write keeps the invariant. */
  lemma WritesDone(s: Sys, i: nat)
    requires Inv(s) && i < |s.sinks| && s.sinks[i].writing.Some?
    ensures var s' := CompleteWrite(s, i); Inv(s') && Roomy(s) == Roomy(s')
  {
    var b := s.sinks[i].writing.value;
    var r := Retry(Released(s, i, b), 0);
    Completes(s, i, b);
    CompletesPhase(s, r, i);
    Answers(r);
    var s3 := Answer(r);
    FinishedForm(s, SetSink(s, i, s.sinks[i].(writing := None)).(written := Taken(s, i, b).written), i, b);
    hide Retry, Released, Answer, Inv, Inv0, FinishedWriting, EndingFlies, Roomy, Finish, Answerable;
    DoneAnswered(s, r, s3, i);
  }

  lemma DoneAnswered(s: Sys, r: Sys, s3: Sys, i: nat)
    requires i < |s.sinks| == |r.sinks| == |s3.sinks| && Settled(r, s3) && Answerable(r) && Roomy(s) == Roomy(r)
    requires EndingFlies(r) || JustFinished(r, i)
    ensures var s' := if s3.sinks[i].state == WriteState.Ended then Finish(s3, i) else s3;
            Inv(s') && Roomy(s) == Roomy(s')
  {
    if r.sinks[i].state == WriteState.Ended { FinishedOver(r, i); }
    hide Finish, Answerable, EndingFlies, Roomy, Inv0, Over;
    if s3.sinks[i].state == WriteState.Ended {
      Finishes(s3, i);
    }
  }

  lemma FinishedOver(s: Sys, i: nat)
    requires Phase(s) && i < |s.sinks| && s.sinks[i].state == WriteState.Ended
    ensures Over(s, multiset{})
  {
    assert !Open(s.sinks[i]);
  }
}
