/** Closing the event loop: everything is stopped, and the loop runs until all cancellations are through. */
module EventLoopShutdown {

  import opened IntrusiveLists
  import opened EventLoopModel
  import opened EventLoopInvariant
  import opened EventLoopProofs
  import opened EventLoopSteps
  import opened EventLoopDispatch
  import opened EventLoopTheorems

  // ------------------------------------------------------------------ Stopping everything

  function ClearAll(l: Loop, from: nat := 0): Loop
    requires from <= |l.sequences|
    decreases |l.sequences| - from
  {
    if from == |l.sequences| then l else ClearAll(ClearSequence(l, from), from + 1)
  }

  function Stopped(l: Loop, r: ID): (l': Loop)
    ensures |l'.requests| == |l.requests| && |l'.sequences| == |l.sequences|
  {
    if !Known(l, r) || l.requests[r].state == Free || l.requests[r].state == Cancelling then l else Stop(l, r, false)
  }

  /** stopRequests, over a list: those that are neither free nor being cancelled are stopped. */
  function StopEach(l: Loop, ids: seq<ID>): Loop
    decreases |ids|
  {
    if ids == [] then l else StopEach(Stopped(l, ids[0]), ids[1..])
  }

  /** stopSequenceRequests, over the sequences that are tracked. */
  function StopRunners(l: Loop, from: nat := 0): Loop
    decreases |l.sequences| - from
  {
    if from >= |l.sequences| then l
    else
      var v := l.sequences[from];
      StopRunners(if v.tracked && v.runner >= 0 then Stopped(l, v.runner) else l, from + 1)
  }

  // ------------------------------------------------------------------ What is under way

  /** No request waits in a sequence. */
  predicate NoneWait(l: Loop)
  {
    forall s :: 0 <= s < |l.sequences| ==> l.sequences[s].pending == []
  }

  predicate Done(q: Request)
  {
    q.state == Free || (q.state == Cancelling && !q.lost)
  }

  /** How often the close callback of the request has run, and is still to run for a stop that has been asked for. */
  function Owed(q: Request): nat
  {
    q.closed + if q.state == Cancelling && q.onClose then 1 else 0
  }

  predicate NothingLost(l: Loop)
  {
    forall x :: 0 <= x < |l.requests| ==> !l.requests[x].lost
  }

  /** Every request is free or being cancelled, and nothing waits in a sequence. */
  ghost predicate Closing(l: Loop)
  {
    Inv(l) && l.phase == Idle && NoneWait(l) && forall x :: 0 <= x < |l.requests| ==> Done(l.requests[x])
  }

  /** The loop stays ready to be closed while requests are stopped. */
  ghost predicate Ready(l: Loop)
  {
    Inv(l) && l.phase == Idle && NoneWait(l) && NothingLost(l)
  }

  /** Stopping leaves what is done alone. */
  predicate StaysDone(l: Loop, l': Loop)
  {
    && |l'.requests| == |l.requests| && |l'.sequences| == |l.sequences|
    && (forall x :: 0 <= x < |l.requests| ==>
          && Owed(l'.requests[x]) == Owed(l.requests[x])
          && (l'.requests[x] == l.requests[x] ||
                (Done(l'.requests[x]) && l'.requests[x].sequence == l.requests[x].sequence)))
  }

  /** Stopping changes no request but this one, and lets none wait. */
  predicate Alone(l: Loop, l': Loop, r: ID)
  {
    && NoneWait(l') && l'.phase == l.phase
    && |l'.requests| == |l.requests| && |l'.sequences| == |l.sequences|
    && (forall x :: 0 <= x < |l.requests| && x != r ==> l'.requests[x] == l.requests[x])
    && r < |l.requests|
    && l'.requests[r].state == Cancelling && l'.requests[r].lost == l.requests[r].lost
    && l'.requests[r].sequence == l.requests[r].sequence && Owed(l'.requests[r]) == Owed(l.requests[r])
  }

  lemma StopAloneActive(l: Loop, r: ID)
    requires Known(l, r) && NoneWait(l) && l.requests[r].state == Active
    ensures Alone(l, Stop(l, r, false), r)
  {
    hide Without, Released;
    var l1 := RemoveActiveHandle(l, r);
    assert forall x :: 0 <= x < |l.requests| && x != r ==> l1.requests[x] == l.requests[x];
    assert NoneWait(l1);
    hide RemoveActiveHandle;
  }

  lemma ClearAlone(l: Loop, s: nat)
    requires s < |l.sequences| && NoneWait(l)
    ensures ClearSequence(l, s).requests == l.requests && NoneWait(ClearSequence(l, s))
  {
    assert FreeAll(l.requests, []) == l.requests;
  }

  lemma PushAlone(l: Loop, r: ID)
    requires Known(l, r) && NoneWait(l)
    ensures var l' := PushToCancellationQueue(l, r);
            l'.requests == l.requests && l'.phase == l.phase && |l'.sequences| == |l.sequences| && NoneWait(l')
  {
    var s := l.requests[r].sequence;
    if s != NONE {
      ClearAlone(l, s);
    }
    hide ClearSequence;
  }

  lemma StopAlone(l: Loop, r: ID)
    requires Known(l, r) && NoneWait(l) && l.requests[r].state != Free && l.requests[r].state != Cancelling
    ensures Alone(l, Stop(l, r, false), r)
  {
    if l.requests[r].state == Active {
      StopAloneActive(l, r);
    } else {
      var l1 := Withdrawn(l, r, false);
      assert NoneWait(l1);
      PushAlone(l1, r);
      hide NoneWait, Without;
      assert Stop(l, r, false) == PushToCancellationQueue(l1, r);
      hide PushToCancellationQueue, Stop;
    }
  }

  lemma StoppedReady(l: Loop, r: ID)
    requires Ready(l) && r < |l.requests|
    ensures Ready(Stopped(l, r)) && StaysDone(l, Stopped(l, r)) && Done(Stopped(l, r).requests[r])
  {
    if l.requests[r].state != Free && l.requests[r].state != Cancelling {
      StopAlone(l, r);
      StopKeeps(l, r, false);
    }
    hide Stop, InvAt, PhaseOk;
  }

  lemma {:induction false} StopEachReady(l: Loop, ids: seq<ID>)
    requires Ready(l) && forall x :: x in ids ==> x < |l.requests|
    ensures var l' := StopEach(l, ids);
            Ready(l') && StaysDone(l, l') && forall x :: x in ids ==> x < |l'.requests| && Done(l'.requests[x])
    decreases |ids|
  {
    if ids != [] {
      assert ids[0] in ids;
      StoppedReady(l, ids[0]);
      hide Ready, Stopped;
      assert forall x :: x in ids[1..] ==> x in ids;
      StopEachReady(Stopped(l, ids[0]), ids[1..]);
      assert forall x :: x in ids <==> x == ids[0] || x in ids[1..];
    }
  }

  /** No request is under way in the sequences from this one on. */
  ghost predicate NoneUnderWay(l: Loop, from: nat)
  {
    forall x: ID, s: nat :: from <= s && Occupies(l, x, s) ==> Done(l.requests[x])
  }

  lemma {:induction false} StopRunnersReady(l: Loop, from: nat)
    requires Ready(l)
    ensures var l' := StopRunners(l, from); Ready(l') && StaysDone(l, l') && NoneUnderWay(l', from)
    decreases |l.sequences| - from
  {
    if from < |l.sequences| {
      var v := l.sequences[from];
      assert SequenceOk(l, from);
      var l1 := if v.tracked && v.runner >= 0 then Stopped(l, v.runner) else l;
      if v.tracked && v.runner >= 0 {
        StoppedReady(l, v.runner);
      }
      RunnerStopped(l, l1, from);
      hide Ready, Stopped, SequenceOk;
      StopRunnersReady(l1, from + 1);
      NoneStarts(l1, StopRunners(l, from), from);
    }
  }

  /** Only the runner of a sequence is under way in it, so nothing is once it has been stopped. */
  lemma RunnerStopped(l: Loop, l1: Loop, s: nat)
    requires Ready(l) && s < |l.sequences| && StaysDone(l, l1) && NoneWait(l1)
    requires var v := l.sequences[s]; v.tracked && v.runner >= 0 ==>
             v.runner < |l1.requests| && Done(l1.requests[v.runner])
    ensures forall x: ID :: Occupies(l1, x, s) ==> Done(l1.requests[x])
  {
    assert SequenceOk(l, s);
    forall x: ID | Occupies(l1, x, s) ensures Done(l1.requests[x]) {
      if l1.requests[x] == l.requests[x] {
        assert Occupies(l, x, s);
      }
    }
  }

  lemma NoneStarts(l1: Loop, l': Loop, s: nat)
    requires StaysDone(l1, l') && NoneUnderWay(l', s + 1) && NoneWait(l1)
    requires forall x: ID :: Occupies(l1, x, s) ==> Done(l1.requests[x])
    ensures NoneUnderWay(l', s)
  {
    forall x: ID, t: nat | s <= t && Occupies(l', x, t) ensures Done(l'.requests[x]) {
      if t == s && l'.requests[x] == l1.requests[x] {
        assert Occupies(l1, x, s);
      }
    }
  }

  lemma {:induction false} ClearAllReady(l: Loop, from: nat)
    requires Inv(l) && l.phase == Idle && NothingLost(l) && from <= |l.sequences|
    requires forall s :: 0 <= s < from ==> l.sequences[s].pending == []
    ensures var l' := ClearAll(l, from);
            && Ready(l') && |l'.requests| == |l.requests|
            && forall x :: 0 <= x < |l.requests| ==> Owed(l'.requests[x]) == Owed(l.requests[x])
    decreases |l.sequences| - from
  {
    if from < |l.sequences| {
      ClearPhase(l, from);
      assert SequenceOk(l, from);
      PendingSetup(l, from, NONE);
      var l1 := ClearSequence(l, from);
      assert forall x :: 0 <= x < |l.requests| ==> Owed(l1.requests[x]) == Owed(l.requests[x]) && !l1.requests[x].lost;
      hide Inv, SequenceOk;
      ClearAllReady(l1, from + 1);
    }
  }

  /** What closing the loop stops: nothing may wait in the sequences any more; then the submissions, the runners of the
      sequences, the active requests and those that are ready to complete are stopped. */
  function CloseAll(l: Loop): Loop
  {
    var cleared := ClearAll(l);
    var submissions := StopEach(cleared, cleared.submissions);
    var runners := StopRunners(submissions);
    var listed := StopEach(runners, runners.listed);
    StopEach(listed, listed.manuals)
  }

  /** These four walks find every request. */
  lemma CloseStopsAll(l: Loop)
    requires Inv(l) && l.phase == Idle && NothingLost(l)
    ensures Closing(CloseAll(l)) && |CloseAll(l).requests| == |l.requests|
    ensures forall x :: 0 <= x < |l.requests| ==> Owed(CloseAll(l).requests[x]) == Owed(l.requests[x])
  {
    var l1 := ClearAll(l);
    ClearAllReady(l, 0);
    ListsKnown(l1);
    var l2 := StopEach(l1, l1.submissions);
    StopEachReady(l1, l1.submissions);
    var l3 := StopRunners(l2);
    StopRunnersReady(l2, 0);
    ListsKnown(l3);
    var l4 := StopEach(l3, l3.listed);
    StopEachReady(l3, l3.listed);
    ListsKnown(l4);
    var l5 := StopEach(l4, l4.manuals);
    StopEachReady(l4, l4.manuals);
    assert CloseAll(l) == l5;
    hide StopEach, StopRunners, ClearAll, CloseAll;
    forall x | 0 <= x < |l5.requests| ensures Done(l5.requests[x]) {
      FoundSomewhere(l1, l2, l3, l4, l5, x);
    }
    ReadyCloses(l5);
    hide Inv;
  }

  lemma ListsKnown(l: Loop)
    requires Ready(l)
    ensures forall x :: x in l.submissions || x in l.listed || x in l.manuals ==> x < |l.requests|
  {
  }

  lemma ReadyCloses(l: Loop)
    requires Ready(l) && forall x :: 0 <= x < |l.requests| ==> Done(l.requests[x])
    ensures Closing(l)
  {
    hide InvAt, PhaseOk;
  }

  lemma FoundSomewhere(l1: Loop, l2: Loop, l3: Loop, l4: Loop, l5: Loop, x: ID)
    requires Ready(l1) && Ready(l3) && Ready(l4)
    requires StaysDone(l1, l2) && StaysDone(l2, l3) && StaysDone(l3, l4) && StaysDone(l4, l5) && x < |l5.requests|
    requires forall y :: y in l1.submissions ==> y < |l2.requests| && Done(l2.requests[y])
    requires NoneUnderWay(l3, 0)
    requires forall y :: y in l3.listed ==> y < |l4.requests| && Done(l4.requests[y])
    requires forall y :: y in l4.manuals ==> y < |l5.requests| && Done(l5.requests[y])
    ensures Done(l5.requests[x])
  {
    assert Placed(Look(l1, x), x == NONE);
    assert Placed(Look(l3, x), x == NONE);
    assert Placed(Look(l4, x), x == NONE);
    if !Done(l5.requests[x]) {
      var q := l5.requests[x];
      assert q == l4.requests[x] == l3.requests[x] == l2.requests[x] == l1.requests[x];
      if q.state == Active && !q.manual && q.sequence != NONE {
        assert Occupies(l3, x, q.sequence);
      }
    }
  }

  // ------------------------------------------------------------------ Running until it is done

  /** While the loop is being closed it stages and finishes cancellations, and the kernel drains them. */
  predicate Shuts(l: Loop, e: Step)
  {
    May(l, e) &&
    match e
    case StageStep(a) => a.cancelled
    case FinishStep(_) => true
    case DrainStep(r) => l.requests[r].waits
    case _ => false
  }

  function CountsAsDraining(q: Request): int
  {
    if q.state == Cancelling && q.waits then 1 else 0
  }

  function Measure(l: Loop): int
  {
    3 * |l.submissions| + |l.cancellations| + Total(l.requests, CountsAsDraining)
  }

  /** What a step does to the one request it deals with. */
  predicate OneChanges(l: Loop, l': Loop, r: ID)
  {
    && r < |l.requests| && |l'.requests| == |l.requests| && l'.requests == l.requests[r := l'.requests[r]]
    && Done(l'.requests[r]) && Owed(l'.requests[r]) == Owed(l.requests[r])
    && NoneWait(l') && l'.phase == l.phase
  }

  lemma StageShuts(l: Loop, a: Answer)
    requires Closing(l) && Shuts(l, StageStep(a))
    ensures OneChanges(l, Stage(l, a), l.submissions[0]) && Measure(Stage(l, a)) < Measure(l)
  {
    var r := l.submissions[0];
    assert r in l.submissions;
    About(l, r, NONE);
    var q' := l.requests[r].(waits := a.waits);
    var put := Put(Dequeued(l), r, q');
    PushAlone(put, r);
    TotalPut(l.requests, r, q', CountsAsDraining);
    hide Inv, NoneWait, ClearSequence;
  }

  lemma FinishShuts(l: Loop, r: ID)
    requires Closing(l) && Shuts(l, FinishStep(r))
    ensures OneChanges(l, FinishCancellation(l, r), r) && Measure(FinishCancellation(l, r)) < Measure(l)
  {
    About(l, r, NONE);
    FinishForm(l, r);
    ListWithout(l.cancellations, r, |l.requests|);
    TotalPut(l.requests, r, FinishCancellation(l, r).requests[r], CountsAsDraining);
    hide Inv, Without, Total;
  }

  lemma DrainShuts(l: Loop, r: ID)
    requires Closing(l) && Shuts(l, DrainStep(r))
    ensures OneChanges(l, Drain(l, r), r) && Measure(Drain(l, r)) < Measure(l)
  {
    About(l, r, NONE);
    TotalPut(l.requests, r, l.requests[r].(waits := false), CountsAsDraining);
    hide Total, Views, Sequences, Occupied, Counts, Lists;
  }

  /** Each such step brings the loop nearer to its end, and forgets no close callback. */
  lemma ShutdownKeeps(l: Loop, e: Step)
    requires Closing(l) && Shuts(l, e)
    ensures var l' := Next(l, e);
            && Closing(l') && Measure(l') < Measure(l) && |l'.requests| == |l.requests|
            && forall x :: 0 <= x < |l.requests| ==> Owed(l'.requests[x]) == Owed(l.requests[x])
  {
    match e {
      case StageStep(a) => StageShuts(l, a);
      case FinishStep(r) => FinishShuts(l, r);
      case DrainStep(r) => DrainShuts(l, r);
    }
    StepKeeps(l, e);
    hide Inv, Next, Measure;
  }

  /** Some step can be taken until nothing is left to do. */
  function NextShutdown(l: Loop): Step
  {
    if l.submissions != [] then StageStep(Answer(true, true, false, true, false))
    else if l.cancellations == [] then EndFiringStep
    else if l.cancellations[0] < |l.requests| && l.requests[l.cancellations[0]].waits then DrainStep(l.cancellations[0])
    else FinishStep(l.cancellations[0])
  }

  lemma ShutdownProgress(l: Loop)
    requires Closing(l)
    ensures Measure(l) >= 0 && (Measure(l) > 0 ==> Shuts(l, NextShutdown(l)))
  {
    TotalPositive(l.requests, CountsAsDraining);
    if l.submissions != [] {
      assert l.submissions[0] in l.submissions;
      About(l, l.submissions[0], NONE);
    } else if l.cancellations != [] {
      assert l.cancellations[0] in l.cancellations;
      About(l, l.cancellations[0], NONE);
    } else {
      forall x | 0 <= x < |l.requests| ensures CountsAsDraining(l.requests[x]) == 0 {
        About(l, x, NONE);
      }
    }
  }

  /** Nothing is left: every request is free, all lists are empty, and all counters are zero. */
  ghost predicate Closed(l: Loop)
  {
    && (forall x :: 0 <= x < |l.requests| ==> l.requests[x].state == Free)
    && l.submissions == [] && l.cancellations == [] && l.manuals == [] && l.listed == []
    && l.submitted == 0 && l.actives == 0 && l.manualCount == 0 && l.externals == 0
    && (forall s :: 0 <= s < |l.sequences| ==>
          l.sequences[s].pending == [] && !l.sequences[s].running && !l.sequences[s].tracked)
  }

  lemma AllFree(l: Loop)
    requires Closing(l) && l.submissions == [] && l.cancellations == []
    ensures forall x :: 0 <= x < |l.requests| ==> l.requests[x].state == Free && x !in l.manuals && x !in l.listed
  {
    forall x | 0 <= x < |l.requests| ensures l.requests[x].state == Free && x !in l.manuals && x !in l.listed {
      assert Placed(Look(l, x), x == NONE);
    }
  }

  lemma SomeMember(list: seq<ID>)
    ensures list != [] ==> exists x :: x in list
  {
    if list != [] {
      assert list[0] in list;
    }
  }

  lemma ClosedAtEnd(l: Loop)
    requires Closing(l) && Measure(l) == 0
    ensures Closed(l)
  {
    TotalPositive(l.requests, CountsAsDraining);
    AllFree(l);
    NoneCounted(l.requests, CountsAsActive);
    NoneCounted(l.requests, CountsAsExternal);
    NoneCounted(l.requests, CountsAsManual);
    SomeMember(l.manuals);
    SomeMember(l.listed);
    forall s | 0 <= s < |l.sequences|
      ensures l.sequences[s].pending == [] && !l.sequences[s].running && !l.sequences[s].tracked
    {
      assert SequenceOk(l, s);
    }
  }

  predicate ShutsAll(l: Loop, steps: seq<Step>)
    decreases |steps|
  {
    steps == [] || (Shuts(l, steps[0]) && ShutsAll(Next(l, steps[0]), steps[1..]))
  }

  lemma {:induction false} ShutdownRun(l: Loop, steps: seq<Step>)
    requires Closing(l) && ShutsAll(l, steps)
    ensures Allowed(l, steps)
    ensures var l' := Run(l, steps);
            && Closing(l') && Measure(l') + |steps| <= Measure(l) && |l'.requests| == |l.requests|
            && forall x :: 0 <= x < |l.requests| ==> Owed(l'.requests[x]) == Owed(l.requests[x])
    decreases |steps|
  {
    if steps != [] {
      ShutdownKeeps(l, steps[0]);
      hide Closing, Next, Measure, Owed;
      ShutdownRun(Next(l, steps[0]), steps[1..]);
    }
  }

  /** From any reachable loop between its steps that has lost no request: closing it stops everything; however the loop
      and the kernel then go on, they come to an end; when neither can go on nothing is left; and the close callback of
      each request has run exactly as often as a stop had asked for it. */
  lemma CloseEnds(requests: seq<Request>, sequences: seq<Sequence>, steps: seq<Step>, more: seq<Step>)
    requires Fresh(requests, sequences) && Allowed(Initial(requests, sequences), steps)
    requires var l := Reached(requests, sequences, steps);
             l.phase == Idle && NothingLost(l) && ShutsAll(CloseAll(l), more)
    ensures var l := Reached(requests, sequences, steps);
            && |more| <= Measure(CloseAll(l)) && Allowed(CloseAll(l), more)
            && var l' := Run(CloseAll(l), more);
               (forall e :: !Shuts(l', e)) ==>
                 && Closed(l') && |l'.requests| == |l.requests|
                 && forall x :: 0 <= x < |l.requests| ==> l'.requests[x].closed == Owed(l.requests[x])
  {
    ReachedInv(requests, sequences, steps);
    var l := Reached(requests, sequences, steps);
    CloseStopsAll(l);
    ShutdownRun(CloseAll(l), more);
    var l' := Run(CloseAll(l), more);
    hide Reached, Closing, Shuts, CloseAll, Run, Measure, Inv;
    ShutdownProgress(l');
    if Measure(l') == 0 {
      ClosedAtEnd(l');
    }
  }

  // ------------------------------------------------------------------ Rounds

  /** The requests are the same, no close callback is forgotten, and no more is left to do. */
  predicate Kept(l: Loop, l': Loop)
  {
    && |l'.requests| == |l.requests| && Measure(l') <= Measure(l)
    && (forall x :: 0 <= x < |l.requests| ==> Owed(l'.requests[x]) == Owed(l.requests[x]))
  }

  lemma KeptThen(l: Loop, l1: Loop, l2: Loop)
    requires Kept(l, l1) && Kept(l1, l2)
    ensures Kept(l, l2)
  {
    hide Measure, Owed;
  }

  /** What the steps of the shutdown do to the two queues. */
  lemma StageQueues(l: Loop, a: Answer)
    requires Closing(l) && Shuts(l, StageStep(a))
    ensures Stage(l, a).submissions == l.submissions[1..]
  {
    var r := l.submissions[0];
    assert r in l.submissions;
    About(l, r, NONE);
    hide Inv, ClearSequence;
  }

  lemma FinishQueues(l: Loop, r: ID)
    requires Closing(l) && Shuts(l, FinishStep(r))
    ensures var l' := FinishCancellation(l, r);
            && l'.submissions == l.submissions && l'.cancellations == Without(l.cancellations, r)
            && |l'.requests| == |l.requests| && forall x :: 0 <= x < |l.requests| && x != r ==>
               l'.requests[x] == l.requests[x]
  {
    hide Inv, Without;
  }

  /** While the loop is being closed what is in a queue is being cancelled. */
  lemma QueuedCancels(l: Loop, r: ID)
    requires Closing(l) && (r in l.submissions || r in l.cancellations)
    ensures Known(l, r) && l.requests[r].state == Cancelling && l.phase == Idle
  {
    About(l, r, NONE);
  }

  lemma EmptyIsDone(l: Loop)
    requires Closing(l)
    ensures Measure(l) >= 0 && (Measure(l) == 0 <==> l.submissions == [] && l.cancellations == [])
  {
    ShutdownProgress(l);
    TotalPositive(l.requests, CountsAsDraining);
    hide Closing, Total;
  }

  lemma KeptItself(l: Loop)
    ensures Kept(l, l)
  {
  }

  lemma KeptMeasure(l: Loop, l': Loop)
    requires Kept(l, l')
    ensures Measure(l') <= Measure(l)
  {
  }

  lemma MayStage(l: Loop, a: Answer)
    requires Closing(l) && l.submissions != [] && a.cancelled && Known(l, l.submissions[0])
    ensures Shuts(l, StageStep(a))
  {
  }

  /** The kernel has drained all cancellations. */
  predicate NoneWaits(l: Loop)
  {
    forall j :: 0 <= j < |l.cancellations| ==>
      l.cancellations[j] < |l.requests| && !l.requests[l.cancellations[j]].waits
  }

  lemma CancellationsDistinct(l: Loop)
    requires Closing(l)
    ensures Distinct(l.cancellations)
  {
  }

  lemma AllClosed(l: Loop, l': Loop)
    requires Kept(l, l') && Closed(l')
    ensures |l'.requests| == |l.requests|
    ensures forall x :: 0 <= x < |l.requests| ==> l'.requests[x].closed == Owed(l.requests[x])
  {
  }
}
