/** What holds of every interleaving of fibers, cancellations and the owner thread. */
module FiberTheorems {

  import opened Wrappers
  import opened FiberHandshake
  import opened FiberInvariant

  lemma OperationsPut(s: System, s': System, i: nat)
    requires OperationsOk(s) && i < |s.ops| == |s'.ops| && s'.ops == s.ops[i := s'.ops[i]] && OperationOk(s'.ops[i])
    requires s'.ops[i].code != NoCode <==> s'.busy == Some(i)
    requires s'.busy == s.busy || (s'.busy == Some(i) && s.busy.None?) || (s.busy == Some(i) && s'.busy.None?)
    ensures OperationsOk(s')
  {
    hide OperationOk;
  }

  lemma FiberForm(s: System, i: nat, choice: bool)
    requires i < |s.ops|
    ensures var s' := RunFiber(s, i, choice);
            s'.ops == s.ops[i := FiberNext(s.ops[i], choice, Full(s))] && s'.busy == s.busy
  {
    hide FiberNext, Full;
  }

  lemma FiberRing(s: System, i: nat, choice: bool)
    requires RingOk(s) && i < |s.ops| && FiberEffect(s.ops[i], FiberNext(s.ops[i], choice, Full(s)), Full(s))
    ensures RingOk(RunFiber(s, i, choice))
  {
    var o := s.ops[i];
    var s' := RunFiber(s, i, choice);
    FiberForm(s, i, choice);
    hide RingOk, FiberNext, Live;
    if o.pc == Enqueueing && !Full(s) {
      Missing(s, StartCommand(i));
      RingAppend(s, s', i, StartCommand(i));
    } else if o.pc == Stopping && o.away && !Full(s) {
      Missing(s, StopCommand(i));
      RingAppend(s, s', i, StopCommand(i));
    } else {
      RingSame(s, s', i);
    }
  }

  lemma Missing(s: System, c: Entry)
    requires RingOk(s) && c.op < |s.ops| && (if c.StartCommand? then s.ops[c.op].start else s.ops[c.op].stop) != Queued
    ensures c !in s.commands
  {
  }

  lemma FiberPending(s: System, i: nat, choice: bool)
    requires s.pending == TotalLive(s.ops) && s.failed == 0 && i < |s.ops|
    requires FiberEffect(s.ops[i], FiberNext(s.ops[i], choice, Full(s)), Full(s))
    ensures var s' := RunFiber(s, i, choice); s'.pending == TotalLive(s'.ops) && s'.failed == 0
  {
    LiveOne(s.ops, i, FiberNext(s.ops[i], choice, Full(s)));
    LiveBound(s.ops, i);
    hide FiberNext, Live, TotalLive, Full;
  }

  lemma FiberSteps(s: System, i: nat, choice: bool)
    requires Inv(s) && i < |s.ops| && CanRun(s, i, choice)
    ensures Inv(RunFiber(s, i, choice))
  {
    assert OperationOk(s.ops[i]);
    FiberForm(s, i, choice);
    hide FiberNext, OperationOk, CanGo, RunFiber, Full, RingOk, TotalLive;
    FiberKeeps(s.ops[i], choice, Full(s));
    FiberRing(s, i, choice);
    FiberPending(s, i, choice);
    OperationsPut(s, RunFiber(s, i, choice), i);
  }

  lemma OwnerForm(s: System, i: nat, choice: bool)
    requires i < |s.ops|
    ensures var s', o' := RunOwner(s, i, choice), OwnerNext(s.ops[i], choice);
            && s'.ops == s.ops[i := o'] && s'.commands == s.commands &&
               s'.busy == (if o'.code == NoCode then None else Some(i))
            && s' == s.(ops := s'.ops, busy := s'.busy, pending := s'.pending, failed := s'.failed)
  {
    hide OwnerNext;
  }

  lemma OwnerPending(s: System, i: nat, choice: bool)
    requires s.pending == TotalLive(s.ops) && s.failed == 0 && i < |s.ops|
    requires OwnerEffect(s.ops[i], OwnerNext(s.ops[i], choice))
    ensures var s' := RunOwner(s, i, choice); s'.pending == TotalLive(s'.ops) && s'.failed == 0
  {
    LiveOne(s.ops, i, OwnerNext(s.ops[i], choice));
    LiveBound(s.ops, i);
    hide OwnerNext, Live, TotalLive;
  }

  lemma OwnerSteps(s: System, choice: bool)
    requires Inv(s) && s.busy.Some?
    ensures s.busy.value < |s.ops| && Inv(RunOwner(s, s.busy.value, choice))
  {
    var i := s.busy.value;
    var o := s.ops[i];
    var s' := RunOwner(s, i, choice);
    assert OperationOk(o) && o.code != NoCode;
    hide OwnerNext, OperationOk, TotalLive, RunOwner, RingOk;
    OwnerKeeps(o, choice);
    OwnerForm(s, i, choice);
    OwnerPending(s, i, choice);
    OperationsPut(s, s', i);
    RingSame(s, s', i);
  }

  lemma DrainSteps(s: System)
    requires Inv(s) && Enabled(s, Drain)
    ensures Inv(Step(s, Drain))
  {
    var c := s.commands[0];
    var i := c.op;
    var o := s.ops[i];
    var s' := Step(s, Drain);
    assert c in s.commands;
    assert if c.StartCommand? then o.start == Queued else o.stop == Queued;
    TakeKeeps(o, c);
    LiveOne(s.ops, i, Take(o, c));
    assert Live(Take(o, c)) == Live(o) && Take(o, c).code != NoCode;
    assert s'.ops == s.ops[i := Take(o, c)] && s'.commands == s.commands[1..];
    hide OperationOk, Live, TotalLive;
    OperationsPut(s, s', i);
    RingPop(s, s', i);
  }

  /** A change that the ring and the counter do not notice. */
  lemma PutSteps(s: System, s': System, i: nat)
    requires Inv(s) && i < |s.ops| == |s'.ops| && s'.ops == s.ops[i := s'.ops[i]] && OperationOk(s'.ops[i])
    requires s' == s.(ops := s'.ops, busy := s'.busy)
    requires s'.ops[i].code != NoCode <==> s'.busy == Some(i)
    requires s'.busy == s.busy || (s'.busy == Some(i) && s.busy.None?)
    requires s'.ops[i].start == s.ops[i].start && s'.ops[i].stop == s.ops[i].stop
    requires s'.ops[i].begun == s.ops[i].begun && s'.ops[i].decrements == s.ops[i].decrements
    ensures Inv(s')
  {
    LiveOne(s.ops, i, s'.ops[i]);
    hide OperationOk;
    OperationsPut(s, s', i);
    RingSame(s, s', i);
  }

  lemma LoopSteps(s: System, a: Action)
    requires Inv(s) && Enabled(s, a) && (a.Complete? || a.Close?)
    ensures Inv(Step(s, a))
  {
    var i := a.op;
    var o := s.ops[i];
    assert OperationOk(o) && o.code == NoCode;
    LoopKeeps(o);
    hide OperationOk, Inv;
    PutSteps(s, Step(s, a), i);
  }

  lemma CancelKeeps(o: Operation)
    requires OperationOk(o)
    ensures OperationOk(o.(cancelled := true))
  {
  }

  lemma CancelSteps(s: System, i: nat)
    requires Inv(s) && i < |s.ops|
    ensures Inv(Step(s, Cancel(i)))
  {
    assert OperationOk(s.ops[i]) && (s.ops[i].code != NoCode <==> s.busy == Some(i));
    CancelKeeps(s.ops[i]);
    hide OperationOk, Inv;
    PutSteps(s, Step(s, Cancel(i)), i);
  }

  lemma StepKeeps(s: System, a: Action)
    requires Inv(s)
    ensures Inv(Step(s, a))
  {
    if Enabled(s, a) {
      hide Inv, RunFiber, RunOwner, CanRun;
      match a {
        case Fiber(i, choice) => FiberSteps(s, i, choice);
        case Owner(choice) => OwnerSteps(s, choice);
        case Drain => DrainSteps(s);
        case Complete(_) => LoopSteps(s, a);
        case Close(_) => LoopSteps(s, a);
        case Cancel(i) => CancelSteps(s, i);
      }
    }
  }

  lemma {:induction false} NoneLive(ops: seq<Operation>)
    requires forall i :: 0 <= i < |ops| ==> !ops[i].begun
    ensures TotalLive(ops) == 0
  {
    if ops != [] {
      NoneLive(ops[1..]);
    }
  }

  lemma IdleOk(o: Operation)
    requires Idle(o)
    ensures OperationOk(o)
  {
  }

  lemma {:induction false} RunKeeps(s: System, actions: seq<Action>)
    requires Inv(s)
    ensures Inv(Run(s, actions)) && |Run(s, actions).ops| == |s.ops|
    decreases |actions|
  {
    if actions != [] {
      StepKeeps(s, actions[0]);
      hide Inv;
      StepSize(s, actions[0]);
      hide Step;
      RunKeeps(Step(s, actions[0]), actions[1..]);
    }
  }

  lemma StepSize(s: System, a: Action)
    ensures |Step(s, a).ops| == |s.ops|
  {
    hide FiberNext, OwnerNext, Full;
  }

  lemma RunInvariant(s: System, actions: seq<Action>)
    requires Initial(s)
    ensures Inv(Run(s, actions)) && |Run(s, actions).ops| == |s.ops|
  {
    forall i | 0 <= i < |s.ops| ensures OperationOk(s.ops[i]) { IdleOk(s.ops[i]); }
    NoneLive(s.ops);
    hide OperationOk, Run;
    RunKeeps(s, actions);
  }

  // ------------------------------------------------------------------ pendingOperations

  /** In every reachable state the shared counter is the number of operations that have begun and are not spent,
      so that its assertion never fails; and it has been decremented exactly once for every operation whose
      fiber has returned. */
  lemma DecrementedOnce(s: System, actions: seq<Action>, i: nat)
    requires Initial(s) && i < |s.ops|
    ensures var r := Run(s, actions);
            && |r.ops| == |s.ops| && r.failed == 0 && r.pending == TotalLive(r.ops) && r.ops[i].decrements <= 1
            && (r.ops[i].pc == Returned && r.ops[i].begun ==> r.ops[i].decrements == 1)
  {
    RunInvariant(s, actions);
    hide Run, Initial, TotalLive, RingOk;
    assert OperationOk(Run(s, actions).ops[i]);
    hide CodeOk, StopOk, FiberOk, Spent;
  }

  // ------------------------------------------------------------------ The frame of the fiber

  /** The owner thread, or the event loop on its behalf, may still use variables of the fiber's frame. */
  predicate FrameInUse(o: Operation)
  {
    o.code != NoCode || o.start == Queued || o.stop == Queued || o.request == Active || o.request == Stopped
  }

  /** A stop command that has found its request completed, and has not told the fiber yet. */
  predicate LateStop(o: Operation)
  {
    o.code == StopDone && o.stopFailed && o.request == Completed && o.decrements == 1
  }

  /** The frame of a fiber outlives every access by its start command, by the callback of its request and by a
      stop that succeeds: once the fiber has returned, only a stop command that came too late can be under way. */
  lemma FrameOutlives(s: System, actions: seq<Action>, i: nat)
    requires Initial(s) && i < |s.ops|
    ensures var r := Run(s, actions);
            && |r.ops| == |s.ops|
            && (r.ops[i].pc == Returned ==> !InStart(r.ops[i].code) && r.ops[i].start != Queued)
            && (r.ops[i].pc == Returned && FrameInUse(r.ops[i]) ==> LateStop(r.ops[i]))
  {
    hide Run, Initial, TotalLive, RingOk, OperationOk, InStart, FrameInUse, LateStop;
    RunInvariant(s, actions);
    var o := Run(s, actions).ops[i];
    assert OperationOk(o);
    if o.pc == Returned {
      ReturnedQuiet(o);
    }
  }

  lemma ReturnedQuiet(o: Operation)
    requires OperationOk(o) && o.pc == Returned
    ensures !InStart(o.code) && o.start != Queued && (FrameInUse(o) ==> LateStop(o))
  {
    hide FiberOk, StopOk;
  }

  /** The only step that leaves a frame in use: reading that the stop has failed, after the owner thread has written
      that and before it has signalled. */
  predicate ReadsTooEarly(o: Operation)
  {
    o.pc == ReadingStop && o.code == StopDone
  }

  /** Whichever step a fiber returns with, in whatever run: its frame is still in use if and only if that step reads
      the outcome of a stop that has failed and not been signalled. */
  lemma FrameExact(s: System, actions: seq<Action>, i: nat, choice: bool)
    requires Initial(s) && Enabled(Run(s, actions), Fiber(i, choice))
    ensures var r := Run(s, actions);
            var r' := Step(r, Fiber(i, choice));
            && i < |r'.ops|
            && (r'.ops[i].pc == Returned ==> (FrameInUse(r'.ops[i]) <==> ReadsTooEarly(r.ops[i])))
  {
    RunInvariant(s, actions);
    var r := Run(s, actions);
    assert OperationOk(r.ops[i]) && (r.ops[i].code != NoCode <==> r.busy == Some(i));
    FiberForm(r, i, choice);
    hide Run, Initial, TotalLive, RingOk, RunFiber, FiberNext, OperationOk, Full, FrameInUse, ReadsTooEarly;
    if FiberNext(r.ops[i], choice, Full(r)).pc == Returned {
      ReturnsExactly(r.ops[i], choice, Full(r));
    }
  }

  lemma ReturnsExactly(o: Operation, choice: bool, full: bool)
    requires OperationOk(o) && CanGo(o, choice) && (o.away || o.code == NoCode)
    requires FiberNext(o, choice, full).pc == Returned
    ensures FrameInUse(FiberNext(o, choice, full)) <==> ReadsTooEarly(o)
  {
  }

  /** In whatever run, the frame of a fiber that runs on the owner thread is free once the fiber has returned. */
  lemma OwnFramesAreFree(s: System, actions: seq<Action>, i: nat)
    requires Initial(s) && i < |s.ops| && !s.ops[i].away
    ensures var r := Run(s, actions);
            |r.ops| == |s.ops| && !r.ops[i].away && (r.ops[i].pc == Returned ==> !FrameInUse(r.ops[i]))
  {
    RunInvariant(s, actions);
    StaysThere(s, actions, i);
    var o := Run(s, actions).ops[i];
    assert OperationOk(o);
    hide Run, Initial, TotalLive, RingOk, OperationOk;
    if o.pc == Returned {
      OwnReturned(o);
    }
  }

  lemma OwnReturned(o: Operation)
    requires OperationOk(o) && !o.away && o.pc == Returned
    ensures !FrameInUse(o)
  {
  }

  lemma {:induction false} StaysThere(s: System, actions: seq<Action>, i: nat)
    requires i < |s.ops|
    ensures |Run(s, actions).ops| == |s.ops| && Run(s, actions).ops[i].away == s.ops[i].away
    decreases |actions|
  {
    if actions != [] {
      StepSize(s, actions[0]);
      StepThere(s, actions[0], i);
      hide Step;
      StaysThere(Step(s, actions[0]), actions[1..], i);
    }
  }

  lemma StepThere(s: System, a: Action, i: nat)
    requires i < |s.ops|
    ensures |Step(s, a).ops| == |s.ops| && Step(s, a).ops[i].away == s.ops[i].away
  {
    StepSize(s, a);
    match a {
      case Fiber(j, choice) =>
        if Enabled(s, a) {
          FiberForm(s, j, choice);
        }
      case Owner(choice) =>
        if Enabled(s, a) {
          OwnerForm(s, s.busy.value, choice);
        }
      case _ =>
    }
    hide RunFiber, RunOwner, FiberNext, OwnerNext, Full, CanGo;
  }

  // ------------------------------------------------------------------ No fiber waits for ever

  /** Nobody can take a step, except to cancel a fiber. */
  ghost predicate Quiescent(s: System)
  {
    forall a: Action :: !a.Cancel? ==> !Enabled(s, a)
  }

  /** A fiber is blocked only by somebody who still has to do something for it. */
  lemma BlockedWaits(o: Operation)
    requires OperationOk(o) && !FrameInUse(o) && o.pc != Returned
    ensures CanGo(o, false)
  {
  }

  /** When nobody can take a step every fiber has returned and no operation is pending. */
  lemma NobodyWaits(s: System, actions: seq<Action>, i: nat)
    requires Initial(s) && i < |s.ops| && Quiescent(Run(s, actions))
    ensures var r := Run(s, actions); |r.ops| == |s.ops| && r.ops[i].pc == Returned && !FrameInUse(r.ops[i])
  {
    RunInvariant(s, actions);
    var r := Run(s, actions);
    hide Run, Initial, TotalLive;
    RestQuiet(r, i);
  }

  lemma CommandsKnown(s: System)
    requires RingOk(s)
    ensures s.commands != [] ==> s.commands[0].op < |s.ops|
  {
  }

  lemma RestQuiet(r: System, i: nat)
    requires Inv(r) && Quiescent(r) && i < |r.ops|
    ensures r.ops[i].pc == Returned && !FrameInUse(r.ops[i])
  {
    var o := r.ops[i];
    assert OperationOk(o) && (o.code != NoCode <==> r.busy == Some(i));
    CommandsKnown(r);
    assert !Enabled(r, Owner(true)) && !Enabled(r, Drain);
    assert o.start != Queued && o.stop != Queued;
    assert !Enabled(r, Complete(i)) && !Enabled(r, Close(i)) && !Enabled(r, Fiber(i, false));
    hide Inv, OperationOk, CanGo, Quiescent;
    if o.pc != Returned {
      BlockedWaits(o);
    }
  }

  // ------------------------------------------------------------------ The late stop

  /** A system with one operation, of a fiber on another thread, and a ring for one command. */
  function One(pc: Pc, code: Code, cancelled: bool, cancelBeforeStart: bool, requestStarted: bool, stopFailed: bool,
               counters: (int, int, int), start: Command, stop: Command, request: Request, begun: bool, decrements: nat,
               pending: int, commands: seq<Entry>): System
  {
    System([Operation(true, pc, code, cancelled, cancelBeforeStart, requestStarted, stopFailed,
                      counters.0, counters.1, counters.2, start, stop, request, begun, decrements)],
           pending, commands, 1, if code == NoCode then None else Some(0), 0)
  }

  ghost predicate Reaches(s: System, s': System)
  {
    exists actions :: Run(s, actions) == s'
  }

  lemma {:induction false} RunAppend(s: System, actions: seq<Action>, a: Action)
    ensures Run(s, actions + [a]) == Step(Run(s, actions), a)
    decreases |actions|
  {
    hide Step;
    if actions == [] {
      assert [] + [a] == [a] && [a][1..] == [];
      assert Run(s, [a]) == Run(Step(s, a), []);
    } else {
      assert (actions + [a])[1..] == actions[1..] + [a];
      RunAppend(Step(s, actions[0]), actions[1..], a);
    }
  }

  lemma Reach(s: System, m: System, a: Action, s': System)
    requires Reaches(s, m) && Step(m, a) == s'
    ensures Reaches(s, s')
  {
    var actions :| Run(s, actions) == m;
    RunAppend(s, actions, a);
    hide Run, Step;
  }

  function Calling(): System
  {
    One(Fresh, NoCode, false, false, false, false, (0, 0, 0), Absent, Absent, NotStarted, false, 0, 0, [])
  }

  function Taking(): System
  {
    One(Pc.Entry, StartCheck, false, false, false, false, (1, 1, 0), Taken, Absent, NotStarted, true, 0, 1, [])
  }

  function Running(): System
  {
    One(Pc.Entry, NoCode, false, false, true, false, (1, 0, 0), Taken, Absent, Active, true, 0, 1, [])
  }

  function Asking(): System
  {
    One(ReadingStop, NoCode, true, true, true, false, (1, 0, 1), Taken, Queued, Active, true, 0, 1, [StopCommand(0)])
  }

  function Late(): System
  {
    One(ReadingStop, StopCall, true, true, true, false, (0, 0, 1), Taken, Taken, Completed, true, 1, 0, [])
  }

  function Leaving(): System
  {
    One(Returned, StopDone, true, true, true, true, (0, 0, 1), Taken, Taken, Completed, true, 1, 0, [])
  }

  /** The fiber enqueues its start command. */
  lemma Enqueues()
    ensures Reaches(Calling(), Taking())
  {
    hide Reaches;
    var s0, m0 := Calling(), Calling();
    ReachesSelf(s0);
    var m1 := One(Counted, NoCode, false, false, false, false, (1, 0, 0), Absent, Absent, NotStarted, false, 0, 0, []);
    assert Step(m0, Fiber(0, true)).ops == m1.ops;
    Reach(s0, m0, Fiber(0, true), m1);
    var m2 := One(Begun, NoCode, false, false, false, false, (1, 0, 0), Absent, Absent, NotStarted, true, 0, 1, []);
    assert Step(m1, Fiber(0, true)).ops == m2.ops;
    Reach(s0, m1, Fiber(0, true), m2);
    var m3 := One(Enqueueing, NoCode, false, false, false, false, (1, 1, 0), Absent, Absent, NotStarted, true, 0, 1,
        []);
    assert Step(m2, Fiber(0, true)).ops == m3.ops;
    Reach(s0, m2, Fiber(0, true), m3);
    var m4 := One(Pc.Entry, NoCode, false, false, false, false, (1, 1, 0), Queued, Absent, NotStarted, true, 0, 1,
        [StartCommand(0)]);
    assert Step(m3, Fiber(0, true)).ops == m4.ops;
    Reach(s0, m3, Fiber(0, true), m4);
    var m5 := Taking();
    assert Step(m4, Drain).ops == m5.ops;
    Reach(s0, m4, Drain, m5);
  }

  /** The owner thread starts the request. */
  lemma Begins()
    requires Reaches(Calling(), Taking())
    ensures Reaches(Calling(), Running())
  {
    hide Reaches;
    var s0, m0 := Calling(), Taking();
    var m1 := One(Pc.Entry, StartCall, false, false, false, false, (1, 1, 0), Taken, Absent, NotStarted, true, 0, 1,
        []);
    assert Step(m0, Owner(true)).ops == m1.ops;
    Reach(s0, m0, Owner(true), m1);
    var m2 := One(Pc.Entry, StartMark, false, false, false, false, (1, 1, 0), Taken, Absent, Active, true, 0, 1, []);
    assert Step(m1, Owner(true)).ops == m2.ops;
    Reach(s0, m1, Owner(true), m2);
    var m3 := One(Pc.Entry, StartOpened, false, false, true, false, (1, 1, 0), Taken, Absent, Active, true, 0, 1, []);
    assert Step(m2, Owner(true)).ops == m3.ops;
    Reach(s0, m2, Owner(true), m3);
    var m4 := Running();
    assert Step(m3, Owner(true)).ops == m4.ops;
    Reach(s0, m3, Owner(true), m4);
  }

  /** The fiber is cancelled and asks for a stop. */
  lemma AsksStop()
    requires Reaches(Calling(), Running())
    ensures Reaches(Calling(), Asking())
  {
    hide Reaches;
    var s0, m0 := Calling(), Running();
    var m1 := One(Waiting, NoCode, false, false, true, false, (1, 0, 0), Taken, Absent, Active, true, 0, 1, []);
    assert Step(m0, Fiber(0, true)).ops == m1.ops;
    Reach(s0, m0, Fiber(0, true), m1);
    var m2 := One(Waiting, NoCode, true, false, true, false, (1, 0, 0), Taken, Absent, Active, true, 0, 1, []);
    assert Step(m1, Cancel(0)).ops == m2.ops;
    Reach(s0, m1, Cancel(0), m2);
    var m3 := One(Cancelling, NoCode, true, false, true, false, (1, 0, 0), Taken, Absent, Active, true, 0, 1, []);
    assert Step(m2, Fiber(0, true)).ops == m3.ops;
    Reach(s0, m2, Fiber(0, true), m3);
    var m4 := One(WaitingStart, NoCode, true, true, true, false, (1, 0, 0), Taken, Absent, Active, true, 0, 1, []);
    assert Step(m3, Fiber(0, true)).ops == m4.ops;
    Reach(s0, m3, Fiber(0, true), m4);
    var m5 := One(Stopping, NoCode, true, true, true, false, (1, 0, 0), Taken, Absent, Active, true, 0, 1, []);
    assert Step(m4, Fiber(0, true)).ops == m5.ops;
    Reach(s0, m4, Fiber(0, true), m5);
    var m6 := Asking();
    assert Step(m5, Fiber(0, true)).ops == m6.ops;
    Reach(s0, m5, Fiber(0, true), m6);
  }

  /** The request completes first. */
  lemma Misses()
    requires Reaches(Calling(), Asking())
    ensures Reaches(Calling(), Late())
  {
    hide Reaches;
    var s0, m0 := Calling(), Asking();
    var m1 := One(ReadingStop, CompleteFinish, true, true, true, false, (1, 0, 1), Taken, Queued, Completed, true, 0,
        1, [StopCommand(0)]);
    assert Step(m0, Complete(0)).ops == m1.ops;
    Reach(s0, m0, Complete(0), m1);
    var m2 := One(ReadingStop, CompleteDone, true, true, true, false, (1, 0, 1), Taken, Queued, Completed, true, 1, 0,
        [StopCommand(0)]);
    assert Step(m1, Owner(true)).ops == m2.ops;
    Reach(s0, m1, Owner(true), m2);
    var m3 := One(ReadingStop, NoCode, true, true, true, false, (0, 0, 1), Taken, Queued, Completed, true, 1, 0,
        [StopCommand(0)]);
    assert Step(m2, Owner(true)).ops == m3.ops;
    Reach(s0, m2, Owner(true), m3);
    var m4 := Late();
    assert Step(m3, Drain).ops == m4.ops;
    Reach(s0, m3, Drain, m4);
  }

  /** The stop comes too late; the fiber sees that and returns before it has been told. */
  lemma Leaves()
    requires Reaches(Calling(), Late())
    ensures Reaches(Calling(), Leaving())
  {
    hide Reaches;
    var s0, m0 := Calling(), Late();
    var m1 := One(ReadingStop, StopWrite, true, true, true, false, (0, 0, 1), Taken, Taken, Completed, true, 1, 0, []);
    assert Step(m0, Owner(true)).ops == m1.ops;
    Reach(s0, m0, Owner(true), m1);
    var m2 := One(ReadingStop, StopDone, true, true, true, true, (0, 0, 1), Taken, Taken, Completed, true, 1, 0, []);
    assert Step(m1, Owner(true)).ops == m2.ops;
    Reach(s0, m1, Owner(true), m2);
    var m3 := Leaving();
    assert Step(m2, Fiber(0, true)).ops == m3.ops;
    Reach(s0, m2, Fiber(0, true), m3);
  }

  lemma ReachesSelf(s: System)
    ensures Reaches(s, s)
  {
    assert Run(s, []) == s;
  }

  /** The exception to FrameOutlives can happen: a fiber returns while the stop command that came too late
      has still to signal a counter in its frame. */
  lemma LateStopHappens()
    ensures Initial(Calling())
    ensures exists actions :: var r := Run(Calling(), actions);
            r.ops != [] && r.ops[0].pc == Returned && LateStop(r.ops[0])
  {
    assert Initial(Calling()) && LateStop(Leaving().ops[0]) && Leaving().ops[0].pc == Returned;
    assert Reaches(Calling(), Leaving()) by {
      hide Run, Reaches, Calling, Taking, Running, Asking, Late, Leaving;
      Enqueues();
      Begins();
      AsksStop();
      Misses();
      Leaves();
    }
    hide Run, Calling, Leaving, Initial, LateStop;
    var actions :| Run(Calling(), actions) == Leaving();
  }
}
