/** How an operation ends: what a cancellation before its start, one that comes later, and none at all lead to, in every
    run. */
module FiberOutcomes {

  import opened Wrappers
  import opened FiberHandshake
  import opened FiberInvariant
  import opened FiberTheorems

  // ------------------------------------------------------------------ What a step can do to an operation

  predicate FiberMove(o: Operation, o': Operation)
  {
    && (o.away || o.code == NoCode)
    && ((CanGo(o, true) && (o' == FiberNext(o, true, true) || o' == FiberNext(o, true, false))) ||
        (CanGo(o, false) && (o' == FiberNext(o, false, true) || o' == FiberNext(o, false, false))))
  }

  predicate OwnerMove(o: Operation, o': Operation)
  {
    o.code != NoCode && (o' == OwnerNext(o, true) || o' == OwnerNext(o, false))
  }

  predicate LoopMove(o: Operation, o': Operation)
  {
    || o' == o
    || o' == o.(cancelled := true)
    || (o.code == NoCode && o.start == Queued && o' == Take(o, StartCommand(0)))
    || (o.code == NoCode && o.stop == Queued && o' == Take(o, StopCommand(0)))
    || (o.code == NoCode && o.request == Active && o' == o.(request := Completed, code := CompleteFinish))
    || (o.code == NoCode && o.request == Stopped && o' == o.(request := Closed, code := CloseFinish))
  }

  /** Some step, of whomever, turns o into o'. */
  predicate Moves(o: Operation, o': Operation)
  {
    FiberMove(o, o') || OwnerMove(o, o') || LoopMove(o, o')
  }

  lemma FiberMoves(s: System, i: nat, j: nat, choice: bool)
    requires Inv(s) && i < |s.ops| && j < |s.ops| && CanRun(s, j, choice)
    ensures |RunFiber(s, j, choice).ops| == |s.ops| && Moves(s.ops[i], RunFiber(s, j, choice).ops[i])
  {
    assert s.ops[i].code != NoCode <==> s.busy == Some(i);
    FiberForm(s, j, choice);
    hide FiberNext, OwnerNext, RunFiber, OperationOk, RingOk, CanGo, Full;
  }

  lemma OwnerMoves(s: System, i: nat, choice: bool)
    requires Inv(s) && i < |s.ops| && s.busy.Some?
    ensures s.busy.value < |s.ops| && |RunOwner(s, s.busy.value, choice).ops| == |s.ops|
    ensures Moves(s.ops[i], RunOwner(s, s.busy.value, choice).ops[i])
  {
    assert s.ops[i].code != NoCode <==> s.busy == Some(i);
    OwnerForm(s, s.busy.value, choice);
    hide FiberNext, OwnerNext, RunOwner, OperationOk, RingOk, CanGo;
  }

  lemma DrainMoves(s: System, i: nat)
    requires Inv(s) && i < |s.ops| && Enabled(s, Drain)
    ensures |Step(s, Drain).ops| == |s.ops| && Moves(s.ops[i], Step(s, Drain).ops[i])
  {
    var c := s.commands[0];
    assert c in s.commands;
    assert if c.StartCommand? then s.ops[c.op].start == Queued else s.ops[c.op].stop == Queued;
    assert s.ops[i].code != NoCode <==> s.busy == Some(i);
    hide FiberNext, OwnerNext, OperationOk, CanGo;
  }

  lemma StepMoves(s: System, a: Action, i: nat)
    requires Inv(s) && i < |s.ops|
    ensures |Step(s, a).ops| == |s.ops| && Moves(s.ops[i], Step(s, a).ops[i])
  {
    if Enabled(s, a) {
      assert s.ops[i].code != NoCode <==> s.busy == Some(i);
      match a {
        case Fiber(j, choice) => FiberMoves(s, i, j, choice);
        case Owner(choice) => OwnerMoves(s, i, choice);
        case Drain => DrainMoves(s, i);
        case Complete(_) =>
        case Close(_) =>
        case Cancel(_) =>
      }
    }
    hide FiberNext, OwnerNext, RunFiber, RunOwner, Inv, CanGo, CanRun, Take;
  }

  /** What every step keeps of a sound operation. */
  ghost predicate Lasting(p: Operation -> bool)
  {
    forall o, o' {:trigger Moves(o, o')} :: OperationOk(o) && p(o) && Moves(o, o') ==> p(o')
  }

  lemma {:induction false} Lasts(s: System, actions: seq<Action>, i: nat, p: Operation -> bool)
    requires Inv(s) && i < |s.ops| && Lasting(p) && p(s.ops[i])
    ensures |Run(s, actions).ops| == |s.ops| && OperationOk(Run(s, actions).ops[i]) && p(Run(s, actions).ops[i])
    decreases |actions|
  {
    assert OperationOk(s.ops[i]);
    hide OperationOk, RingOk, TotalLive, Moves, Step;
    if actions != [] {
      StepKeeps(s, actions[0]);
      StepMoves(s, actions[0], i);
      hide Inv;
      Lasts(Step(s, actions[0]), actions[1..], i, p);
    }
  }

  /** The same from any reachable state on. */
  lemma LastsFrom(s: System, actions: seq<Action>, more: seq<Action>, i: nat, p: Operation -> bool)
    requires Initial(s) && i < |s.ops| && Lasting(p)
    requires |Run(s, actions).ops| == |s.ops| && p(Run(s, actions).ops[i])
    ensures var r := Run(Run(s, actions), more);
            |r.ops| == |s.ops| && OperationOk(r.ops[i]) && p(r.ops[i])
  {
    RunInvariant(s, actions);
    hide Inv, Initial, Run, OperationOk, Lasting;
    Lasts(Run(s, actions), more, i, p);
  }

  // ------------------------------------------------------------------ Cancelled before the start

  /** The fiber has asked for its operation not to be started, and the owner thread has not looked yet. */
  predicate CancelledInTime(o: Operation)
  {
    o.cancelBeforeStart && (o.start == Queued || o.code == StartCheck)
  }

  /** ... and so on, up to the end of the start command. */
  predicate NeverStarted(o: Operation)
  {
    && o.cancelBeforeStart && o.request == NotStarted && !o.requestStarted && o.stop == Absent
    && (o.start == Queued || (o.start == Taken && o.code != StartCall))
  }

  lemma NeverStartedNext(o: Operation, choice: bool, full: bool)
    requires OperationOk(o) && NeverStarted(o) && CanGo(o, choice) && (o.away || o.code == NoCode)
    ensures NeverStarted(FiberNext(o, choice, full))
  {
    hide CountersOk, StopOk, ReturnOk;
  }

  lemma NeverStartedFiber(o: Operation, o': Operation)
    requires OperationOk(o) && NeverStarted(o) && FiberMove(o, o')
    ensures NeverStarted(o')
  {
    hide OperationOk, NeverStarted, FiberNext, CanGo;
    forall choice, full | CanGo(o, choice) ensures NeverStarted(FiberNext(o, choice, full)) {
      NeverStartedNext(o, choice, full);
    }
  }

  lemma NeverStartedTurn(o: Operation, choice: bool)
    requires OperationOk(o) && NeverStarted(o) && o.code != NoCode
    ensures NeverStarted(OwnerNext(o, choice))
  {
    hide CountersOk, StopOk, ReturnOk, FiberOk;
  }

  lemma NeverStartedOwner(o: Operation, o': Operation)
    requires OperationOk(o) && NeverStarted(o) && OwnerMove(o, o')
    ensures NeverStarted(o')
  {
    hide OperationOk, NeverStarted, OwnerNext;
    NeverStartedTurn(o, true);
    NeverStartedTurn(o, false);
  }

  lemma NeverStartedLoop(o: Operation, o': Operation)
    requires OperationOk(o) && NeverStarted(o) && LoopMove(o, o')
    ensures NeverStarted(o')
  {
    hide CountersOk, ReturnOk, FiberOk;
  }

  lemma NeverStartedLasts()
    ensures Lasting(NeverStarted)
  {
    forall o, o' | OperationOk(o) && NeverStarted(o) && Moves(o, o') ensures NeverStarted(o') {
      hide OperationOk, FiberMove, OwnerMove, LoopMove, NeverStarted;
      if FiberMove(o, o') {
        NeverStartedFiber(o, o');
      } else if OwnerMove(o, o') {
        NeverStartedOwner(o, o');
      } else {
        NeverStartedLoop(o, o');
      }
    }
  }

  lemma InTimeIsNever(o: Operation)
    requires OperationOk(o) && CancelledInTime(o)
    ensures NeverStarted(o)
  {
  }

  /** A fiber that is cancelled before the owner thread has looked at its start command: in every continuation the
      request is never started. The operation is taken from pendingOperations once, and by the end of the command
      everybody has been told. */
  lemma CancelledNeverStarts(s: System, actions: seq<Action>, more: seq<Action>, i: nat)
    requires Initial(s) && i < |s.ops| && |Run(s, actions).ops| == |s.ops|
    requires CancelledInTime(Run(s, actions).ops[i])
    ensures var r := Run(Run(s, actions), more);
            && |r.ops| == |s.ops|
            && var o := r.ops[i];
               && o.request == NotStarted && !o.requestStarted && o.decrements <= 1
               && (o.pc == Returned || (o.start == Taken && o.code == NoCode) ==>
                     o.decrements == 1 && o.counter == 0 && o.startCounter == 0)
  {
    RunInvariant(s, actions);
    assert OperationOk(Run(s, actions).ops[i]);
    InTimeIsNever(Run(s, actions).ops[i]);
    NeverStartedLasts();
    LastsFrom(s, actions, more, i, NeverStarted);
    var o := Run(Run(s, actions), more).ops[i];
    hide Run, Initial, Inv, Lasting, CancelledInTime;
    NeverStartedEnds(o);
  }

  lemma NeverStartedEnds(o: Operation)
    requires OperationOk(o) && NeverStarted(o)
    ensures o.decrements <= 1
    ensures o.pc == Returned || (o.start == Taken && o.code == NoCode) ==>
              o.decrements == 1 && o.counter == 0 && o.startCounter == 0
  {
  }

  /** What the owner thread does, with nobody else in between. */
  function Turns(s: System, choices: seq<bool>): System
    decreases |choices|
  {
    if choices == [] then s else Turns(Step(s, Owner(choices[0])), choices[1..])
  }

  /** How far the owner thread is from the end of a start command that it refuses. */
  function ToRefuse(c: Code): nat
  {
    match c
    case StartCheck => 5
    case RefuseWrite => 4
    case RefuseFinish => 3
    case RefuseStart => 2
    case RefuseCounter => 1
    case _ => 0
  }

  lemma OwnerTurn(s: System, i: nat, choice: bool)
    requires Inv(s) && i < |s.ops| && s.ops[i].code != NoCode
    ensures var s' := Step(s, Owner(choice));
            Inv(s') && s'.ops == s.ops[i := OwnerNext(s.ops[i], choice)] && s'.commands == s.commands
  {
    assert s.ops[i].code != NoCode <==> s.busy == Some(i);
    OwnerForm(s, i, choice);
    hide RunOwner, OwnerNext, Inv;
    StepKeeps(s, Owner(choice));
  }

  lemma RefusesNext(o: Operation, choice: bool)
    requires OperationOk(o) && NeverStarted(o) && InStart(o.code)
    ensures var o' := OwnerNext(o, choice);
            && NeverStarted(o') && ToRefuse(o'.code) == ToRefuse(o.code) - 1 && o'.begun == o.begun
            && (o'.code == NoCode || InStart(o'.code)) && o'.start == Taken
  {
    hide CountersOk, StopOk, ReturnOk, FiberOk;
  }

  lemma {:induction false} RefusesOn(s: System, i: nat, choices: seq<bool>)
    requires Inv(s) && i < |s.ops| && NeverStarted(s.ops[i])
    requires (s.ops[i].code == NoCode || InStart(s.ops[i].code)) && s.ops[i].start == Taken
    requires |choices| == ToRefuse(s.ops[i].code)
    ensures var r := Turns(s, choices);
            && Inv(r) && OnlyThis(s, r, i)
            && NeverStarted(r.ops[i]) && r.ops[i].code == NoCode && r.ops[i].start == Taken
            && r.ops[i].begun == s.ops[i].begun
    decreases |choices|
  {
    assert OperationOk(s.ops[i]);
    if s.ops[i].code == NoCode {
      hide OperationOk, Inv, NeverStarted;
      assert s.ops[i := s.ops[i]] == s.ops;
    } else {
      var s1 := Step(s, Owner(choices[0]));
      RefusesNext(s.ops[i], choices[0]);
      OwnerTurn(s, i, choices[0]);
      assert OnlyThis(s, s1, i);
      hide OperationOk, Inv, NeverStarted, Step, OwnerNext, InStart, OnlyThis;
      RefusesOn(s1, i, choices[1..]);
      OnlyThisThen(s, s1, Turns(s1, choices[1..]), i);
    }
  }

  /** Nothing but operation i differs, apart from the counter and from who is busy. */
  predicate OnlyThis(s: System, r: System, i: nat)
  {
    i < |s.ops| == |r.ops| && r.ops == s.ops[i := r.ops[i]] && r.commands == s.commands
  }

  lemma OnlyThisThen(s: System, s1: System, r: System, i: nat)
    requires OnlyThis(s, s1, i) && OnlyThis(s1, r, i)
    ensures OnlyThis(s, r, i)
  {
    assert s.ops[i := s1.ops[i]][i := r.ops[i]] == s.ops[i := r.ops[i]];
  }

  /** The owner thread looks at the start command of a fiber that has been cancelled: five steps later the command is
      over, and the operation has been taken from pendingOperations, once. */
  lemma RefusesCancelled(s: System, actions: seq<Action>, i: nat, choices: seq<bool>)
    requires Initial(s) && i < |s.ops| && |Run(s, actions).ops| == |s.ops| && |choices| == 5
    requires Run(s, actions).ops[i].code == StartCheck && Run(s, actions).ops[i].cancelBeforeStart
    ensures var r := Run(s, actions);
            var r' := Turns(r, choices);
            && |r'.ops| == |s.ops| && r'.pending == r.pending - 1 && r'.failed == 0
            && var o := r'.ops[i];
               && o.code == NoCode && o.request == NotStarted && !o.requestStarted
               && r.ops[i].decrements == 0 && o.decrements == 1 && o.counter == 0 && o.startCounter == 0
  {
    RunInvariant(s, actions);
    var r := Run(s, actions);
    assert OperationOk(r.ops[i]);
    InTimeIsNever(r.ops[i]);
    hide Run, Initial, OperationOk, NeverStarted;
    RefusesOn(r, i, choices);
    var r' := Turns(r, choices);
    assert OperationOk(r'.ops[i]);
    NeverStartedEnds(r'.ops[i]);
    LiveOne(r.ops, i, r'.ops[i]);
    hide Turns, TotalLive, RingOk;
    CheckingIsLive(r.ops[i]);
  }

  lemma CheckingIsLive(o: Operation)
    requires OperationOk(o) && o.code == StartCheck
    ensures Live(o) == 1 && o.decrements == 0 && o.begun
  {
  }

  // ------------------------------------------------------------------ Started

  /** The owner thread looks at the start command of a fiber that has not been cancelled: it starts the request, and
      then the request is active and the fiber is told so; or the loop refuses it, and the request stays as it is. */
  lemma StartsUncancelled(s: System, actions: seq<Action>, i: nat, choices: seq<bool>)
    requires Initial(s) && i < |s.ops| && |Run(s, actions).ops| == |s.ops| && |choices| == 4
    requires Run(s, actions).ops[i].code == StartCheck && !Run(s, actions).ops[i].cancelBeforeStart
    ensures |Turns(Run(s, actions), choices).ops| == |s.ops|
    ensures var o := Turns(Run(s, actions), choices).ops[i];
            if choices[1] then o.request == Active && o.requestStarted && o.startCounter == 0 && o.code == NoCode
            else o.request == NotStarted && !o.requestStarted && o.decrements == 1
  {
    RunInvariant(s, actions);
    var r := Run(s, actions);
    hide Run, Initial;
    assert OperationOk(r.ops[i]);
    hide Inv, Step, Turns, OperationOk, OwnerNext;
    StartsInFour(r.ops[i], choices);
    var r1 := Step(r, Owner(choices[0]));
    OwnerTurn(r, i, choices[0]);
    var r2 := Step(r1, Owner(choices[1]));
    OwnerTurn(r1, i, choices[1]);
    var r3 := Step(r2, Owner(choices[2]));
    OwnerTurn(r2, i, choices[2]);
    OwnerTurn(r3, i, choices[3]);
    FourTurns(r, choices);
  }

  lemma StartsInFour(o: Operation, choices: seq<bool>)
    requires OperationOk(o) && o.code == StartCheck && !o.cancelBeforeStart && |choices| == 4
    ensures var o1 := OwnerNext(o, choices[0]);
            var o2 := OwnerNext(o1, choices[1]);
            var o3 := OwnerNext(o2, choices[2]);
            var r := OwnerNext(o3, choices[3]);
            && o1.code != NoCode && o2.code != NoCode && o3.code != NoCode
            && if choices[1] then r.request == Active && r.requestStarted && r.startCounter == 0 && r.code == NoCode
               else r.request == NotStarted && !r.requestStarted && r.decrements == 1
  {
    LooksFirst(o, choices[0]);
    var o1 := OwnerNext(o, choices[0]);
    CallsThen(o1, choices[1]);
    var o2 := OwnerNext(o1, choices[1]);
    hide OwnerNext;
    EndsCall(o2, choices[2], choices[3]);
    hide CodeOk, StopOk, FiberOk, ReturnOk;
  }

  lemma LooksFirst(o: Operation, choice: bool)
    requires o.code == StartCheck && !o.cancelBeforeStart
    ensures OwnerNext(o, choice) == o.(code := StartCall)
  {
  }

  lemma CallsThen(o: Operation, choice: bool)
    requires o.code == StartCall
    ensures OwnerNext(o, choice) ==
            if choice then o.(code := StartMark, request := Active) else o.(code := RefuseWrite)
  {
  }

  lemma EndsCall(o: Operation, choice: bool, last: bool)
    requires o.code == StartMark || o.code == RefuseWrite
    ensures var o1 := OwnerNext(o, choice);
            && o1.code != NoCode
            && OwnerNext(o1, last) ==
               if o.code == StartMark
                   then o.(code := NoCode, requestStarted := true, startCounter := o.startCounter - 1)
               else o.(code := RefuseStart, decrements := o.decrements + 1)
  {
  }

  lemma FourTurns(s: System, choices: seq<bool>)
    requires |choices| == 4
    ensures Turns(s, choices) ==
            Step(Step(Step(Step(s, Owner(choices[0])), Owner(choices[1])), Owner(choices[2])), Owner(choices[3]))
  {
    hide Step;
    assert choices[1..][1..] == choices[2..] && choices[2..][1..] == choices[3..] && choices[3..][1..] == [];
    var s1 := Step(s, Owner(choices[0]));
    var s2 := Step(s1, Owner(choices[1]));
    var s3 := Step(s2, Owner(choices[2]));
    assert Turns(s, choices) == Turns(s1, choices[1..]) == Turns(s2, choices[2..]) == Turns(s3, choices[3..]);
    assert Turns(s3, choices[3..]) == Turns(Step(s3, Owner(choices[3])), []);
  }

  /** On the owner thread the request is started at once, or the loop refuses it. */
  lemma StartsHere(s: System, i: nat, choice: bool)
    requires i < |s.ops| && s.ops[i].pc == Begun && !s.ops[i].away && s.busy.None?
    ensures var s' := Step(s, Fiber(i, choice));
            && |s'.ops| == |s.ops|
            && s'.ops[i].request == (if choice then Active else s.ops[i].request)
            && s'.ops[i].pc == (if choice then Pc.Entry else Undoing)
  {
  }

  /** Once the owner thread has looked, a cancellation comes too late to prevent the start. */
  lemma LookedAt(s: System, i: nat)
    requires Inv(s) && i < |s.ops| && s.ops[i].code == StartCall
    ensures |Step(s, Owner(true)).ops| == |s.ops| && Step(s, Owner(true)).ops[i].request == Active
    ensures |Step(s, Owner(false)).ops| == |s.ops| && Step(s, Owner(false)).ops[i].request == NotStarted
  {
    OwnerTurn(s, i, true);
    OwnerTurn(s, i, false);
    assert OperationOk(s.ops[i]);
    hide Inv, Step, CountersOk, StopOk, FiberOk, ReturnOk;
  }

  // ------------------------------------------------------------------ The ring

  lemma StepWithin(s: System, a: Action)
    requires |s.commands| <= s.capacity
    ensures |Step(s, a).commands| <= Step(s, a).capacity == s.capacity
  {
    hide FiberNext, OwnerNext;
  }

  /** The ring never holds more commands than it has room for. */
  lemma {:induction false} RingBounded(s: System, actions: seq<Action>)
    requires |s.commands| <= s.capacity
    ensures |Run(s, actions).commands| <= Run(s, actions).capacity == s.capacity
    decreases |actions|
  {
    if actions != [] {
      StepWithin(s, actions[0]);
      hide Step;
      RingBounded(Step(s, actions[0]), actions[1..]);
    }
  }

  /** A fiber's command enters the ring, behind all others, exactly if there is room: otherwise the operation that it
      should have started is undone, and the one it should have stopped is waited for. */
  lemma EnqueuesExactly(s: System, i: nat, choice: bool)
    requires i < |s.ops| && s.ops[i].away && (s.ops[i].pc == Enqueueing || s.ops[i].pc == Stopping)
    ensures var s' := Step(s, Fiber(i, choice));
            && |s'.ops| == |s.ops|
            && var o, o' := s.ops[i], s'.ops[i];
               if |s.commands| < s.capacity then
                 && s'.commands == s.commands + [if o.pc == Enqueueing then StartCommand(i) else StopCommand(i)]
                 && (if o.pc == Enqueueing then o'.start else o'.stop) == Queued
               else
                 && s'.commands == s.commands && o'.start == o.start && o'.stop == o.stop
                 && o'.pc == if o.pc == Enqueueing then Undoing else WaitingCounter
  {
  }

  // ------------------------------------------------------------------ Not cancelled

  /** A fiber that has not been cancelled takes its operation for what it is. */
  predicate Undisturbed(o: Operation)
  {
    !o.cancelled ==>
      && !o.cancelBeforeStart && o.stop == Absent && o.request != Stopped && o.request != Closed
      && (Early(o) || o.pc == Pc.Entry || o.pc == Waiting || o.pc == Returned)
      && (o.pc == Returned ==> o.begun)
  }

  lemma UndisturbedEarly(o: Operation, choice: bool, full: bool)
    requires OperationOk(o) && Undisturbed(o) && CanGo(o, choice) && (o.away || o.code == NoCode)
    requires Early(o)
    ensures Undisturbed(FiberNext(o, choice, full))
  {
    hide CountersOk, ReturnOk, CodeOk, StopOk;
  }

  lemma UndisturbedLate(o: Operation, choice: bool, full: bool)
    requires OperationOk(o) && Undisturbed(o) && CanGo(o, choice) && (o.away || o.code == NoCode)
    requires !Early(o)
    ensures Undisturbed(FiberNext(o, choice, full))
  {
    hide CountersOk, ReturnOk, CodeOk, StopOk;
  }

  lemma UndisturbedNext(o: Operation, choice: bool, full: bool)
    requires OperationOk(o) && Undisturbed(o) && CanGo(o, choice) && (o.away || o.code == NoCode)
    ensures Undisturbed(FiberNext(o, choice, full))
  {
    hide OperationOk, Undisturbed, FiberNext, CanGo;
    if Early(o) {
      UndisturbedEarly(o, choice, full);
    } else {
      UndisturbedLate(o, choice, full);
    }
  }

  lemma UndisturbedFiber(o: Operation, o': Operation)
    requires OperationOk(o) && Undisturbed(o) && FiberMove(o, o')
    ensures Undisturbed(o')
  {
    hide OperationOk, Undisturbed, FiberNext, CanGo;
    forall choice, full | CanGo(o, choice) ensures Undisturbed(FiberNext(o, choice, full)) {
      UndisturbedNext(o, choice, full);
    }
  }

  lemma UndisturbedTurn(o: Operation, choice: bool)
    requires OperationOk(o) && Undisturbed(o) && o.code != NoCode
    ensures Undisturbed(OwnerNext(o, choice))
  {
    hide CountersOk, ReturnOk;
  }

  lemma UndisturbedOwner(o: Operation, o': Operation)
    requires OperationOk(o) && Undisturbed(o) && OwnerMove(o, o')
    ensures Undisturbed(o')
  {
    hide OperationOk, Undisturbed, OwnerNext;
    UndisturbedTurn(o, true);
    UndisturbedTurn(o, false);
  }

  lemma UndisturbedLoop(o: Operation, o': Operation)
    requires OperationOk(o) && Undisturbed(o) && LoopMove(o, o')
    ensures Undisturbed(o')
  {
    hide CountersOk, ReturnOk;
  }

  lemma UndisturbedLasts()
    ensures Lasting(Undisturbed)
  {
    forall o, o' | OperationOk(o) && Undisturbed(o) && Moves(o, o') ensures Undisturbed(o') {
      hide OperationOk, FiberMove, OwnerMove, LoopMove, Undisturbed;
      if FiberMove(o, o') {
        UndisturbedFiber(o, o');
      } else if OwnerMove(o, o') {
        UndisturbedOwner(o, o');
      } else {
        UndisturbedLoop(o, o');
      }
    }
  }

  /** A fiber that nobody has cancelled returns only when its request has completed, or when it has not been started
      because the ring was full or the loop has refused it; and nobody has tried to stop it. */
  lemma UncancelledCompletes(s: System, actions: seq<Action>, i: nat)
    requires Initial(s) && i < |s.ops|
    ensures var r := Run(s, actions);
            && |r.ops| == |s.ops|
            && var o := r.ops[i];
               !o.cancelled ==>
                 && !o.cancelBeforeStart && o.stop == Absent && o.request != Stopped && o.request != Closed
                 && (o.pc == Returned ==> o.begun && (o.request == Completed || o.request == NotStarted))
  {
    RunInvariant(s, []);
    UndisturbedLasts();
    assert Run(s, []) == s;
    Lasts(s, actions, i, Undisturbed);
    var o := Run(s, actions).ops[i];
    hide Run, Initial, Inv, Lasting, CountersOk, StopOk, CodeOk;
  }

  // ------------------------------------------------------------------ Cancelled before it has begun, or waits

  predicate NeverBegins(o: Operation)
  {
    && o.cancelled && !o.begun && (o.pc == Fresh || o.pc == Returned)
    && o.start == Absent && o.request == NotStarted && o.code == NoCode && o.counter == 0
  }

  lemma NeverBeginsLasts()
    ensures Lasting(NeverBegins)
  {
    forall o, o' | OperationOk(o) && NeverBegins(o) && Moves(o, o') ensures NeverBegins(o') {
      hide CountersOk, ReturnOk;
    }
  }

  /** A fiber that is cancelled before it asks for an operation gets none: nothing is counted or started. */
  lemma CancelledNeverBegins(s: System, actions: seq<Action>, more: seq<Action>, i: nat)
    requires Initial(s) && i < |s.ops| && |Run(s, actions).ops| == |s.ops|
    requires Run(s, actions).ops[i].pc == Fresh && Run(s, actions).ops[i].cancelled
    ensures var r := Run(Run(s, actions), more);
            && |r.ops| == |s.ops|
            && var o := r.ops[i]; !o.begun && o.counter == 0 && o.start == Absent && o.request == NotStarted
  {
    RunInvariant(s, actions);
    assert OperationOk(Run(s, actions).ops[i]);
    NeverBeginsLasts();
    hide Lasting, Inv;
    LastsFrom(s, actions, more, i, NeverBegins);
    hide Run, Initial;
  }

  predicate NeverWaits(o: Operation)
  {
    o.cancelled && o.pc != Waiting
  }

  lemma NeverWaitsNext(o: Operation, choice: bool, full: bool)
    requires NeverWaits(o)
    ensures NeverWaits(FiberNext(o, choice, full))
  {
  }

  lemma NeverWaitsFiber(o: Operation, o': Operation)
    requires OperationOk(o) && NeverWaits(o) && FiberMove(o, o')
    ensures NeverWaits(o')
  {
    hide OperationOk, NeverWaits, FiberNext, CanGo;
    forall choice, full | CanGo(o, choice) ensures NeverWaits(FiberNext(o, choice, full)) {
      NeverWaitsNext(o, choice, full);
    }
  }

  lemma NeverWaitsTurn(o: Operation, choice: bool)
    requires OperationOk(o) && NeverWaits(o) && o.code != NoCode
    ensures NeverWaits(OwnerNext(o, choice))
  {
    hide OperationOk;
  }

  lemma NeverWaitsOwner(o: Operation, o': Operation)
    requires OperationOk(o) && NeverWaits(o) && OwnerMove(o, o')
    ensures NeverWaits(o')
  {
    hide OperationOk, NeverWaits, OwnerNext;
    NeverWaitsTurn(o, true);
    NeverWaitsTurn(o, false);
  }

  lemma NeverWaitsLoop(o: Operation, o': Operation)
    requires OperationOk(o) && NeverWaits(o) && LoopMove(o, o')
    ensures NeverWaits(o')
  {
    hide OperationOk;
  }

  lemma NeverWaitsLasts()
    ensures Lasting(NeverWaits)
  {
    forall o, o' | OperationOk(o) && NeverWaits(o) && Moves(o, o') ensures NeverWaits(o') {
      hide OperationOk, FiberMove, OwnerMove, LoopMove, NeverWaits;
      if FiberMove(o, o') {
        NeverWaitsFiber(o, o');
      } else if OwnerMove(o, o') {
        NeverWaitsOwner(o, o');
      } else {
        NeverWaitsLoop(o, o');
      }
    }
  }

  /** A fiber that is cancelled before it waits for its operation does not wait for it. */
  lemma CancelledNeverWaits(s: System, actions: seq<Action>, more: seq<Action>, i: nat)
    requires Initial(s) && i < |s.ops| && |Run(s, actions).ops| == |s.ops|
    requires Run(s, actions).ops[i].cancelled && Run(s, actions).ops[i].pc != Waiting
    ensures var r := Run(Run(s, actions), more);
            |r.ops| == |s.ops| && r.ops[i].pc != Waiting
  {
    NeverWaitsLasts();
    hide Lasting, Run, Initial;
    LastsFrom(s, actions, more, i, NeverWaits);
  }

  // ------------------------------------------------------------------ Every run comes to an end

  function PcWork(pc: Pc): nat
  {
    match pc
    case Fresh => 14
    case Counted => 13
    case Begun => 12
    case Enqueueing => 11
    case Entry => 9
    case Waiting => 8
    case Cancelling => 7
    case WaitingStart => 6
    case Stopping => 5
    case ReadingStop => 4
    case WaitingStop => 3
    case WaitingCounter => 2
    case Undoing => 2
    case Undone => 1
    case Returned => 0
  }

  function CodeWork(c: Code): nat
  {
    match c
    case NoCode => 0
    case StartCheck => 13
    case StartCall => 12
    case StartMark => 2
    case StartOpened => 1
    case RefuseWrite => 4
    case RefuseFinish => 3
    case RefuseStart => 2
    case RefuseCounter => 1
    case StopCall => 3
    case StopWrite => 2
    case StopDone => 1
    case CompleteFinish => 2
    case CompleteDone => 1
    case CloseFinish => 2
    case CloseDone => 1
  }

  function RequestWork(r: Request): nat
  {
    if r == Active then 8 else if r == Stopped then 4 else 0
  }

  /** What the owner thread and the event loop have still to do with an operation that its fiber has asked for. */
  function OthersWork(o: Operation): nat
  {
    CodeWork(o.code) + RequestWork(o.request)
    + (if o.start == Queued then 14 else 0) + (if o.stop == Queued then 4 else 0)
  }

  /** A bound on the steps that anybody can still take for an operation. */
  function Work(o: Operation): nat
  {
    30 * PcWork(o.pc) + OthersWork(o)
  }

  function TotalWork(ops: seq<Operation>): nat
  {
    if ops == [] then 0 else Work(ops[0]) + TotalWork(ops[1..])
  }

  lemma {:induction false} WorkOne(ops: seq<Operation>, i: nat, o: Operation)
    requires i < |ops|
    ensures TotalWork(ops[i := o]) + Work(ops[i]) == TotalWork(ops) + Work(o)
  {
    hide Work;
    if i == 0 {
      assert ops[0 := o][1..] == ops[1..];
    } else {
      WorkOne(ops[1..], i - 1, o);
      assert ops[i := o][1..] == ops[1..][i - 1 := o];
    }
  }

  lemma FallsAtStart(o: Operation, choice: bool, full: bool)
    requires o.pc == Fresh || o.pc == Counted || o.pc == Begun || o.pc == Enqueueing
    ensures var o' := FiberNext(o, choice, full); PcWork(o'.pc) < PcWork(o.pc) && o'.code == o.code
  {
  }

  lemma FallsInMiddle(o: Operation, choice: bool, full: bool)
    requires o.pc == Undoing || o.pc == Undone || o.pc == Pc.Entry || o.pc == Waiting || o.pc == Cancelling
    ensures var o' := FiberNext(o, choice, full); PcWork(o'.pc) < PcWork(o.pc) && o'.code == o.code
  {
  }

  lemma FallsAtEnd(o: Operation, choice: bool, full: bool)
    requires o.pc == WaitingStart || o.pc == WaitingCounter || o.pc == Stopping || o.pc == ReadingStop ||
             o.pc == WaitingStop
    ensures var o' := FiberNext(o, choice, full); PcWork(o'.pc) < PcWork(o.pc) && o'.code == o.code
  {
  }

  lemma PcFalls(o: Operation, choice: bool, full: bool)
    requires o.pc != Returned
    ensures var o' := FiberNext(o, choice, full); PcWork(o'.pc) < PcWork(o.pc) && o'.code == o.code
  {
    hide FiberNext, CodeWork, RequestWork;
    if o.pc == Fresh || o.pc == Counted || o.pc == Begun || o.pc == Enqueueing {
      FallsAtStart(o, choice, full);
    } else if o.pc == Undoing || o.pc == Undone || o.pc == Pc.Entry || o.pc == Waiting || o.pc == Cancelling {
      FallsInMiddle(o, choice, full);
    } else {
      FallsAtEnd(o, choice, full);
    }
  }

  lemma FiberWorks(o: Operation, choice: bool, full: bool)
    requires o.pc != Returned
    ensures Work(FiberNext(o, choice, full)) < Work(o)
  {
    PcFalls(o, choice, full);
    hide FiberNext, PcWork, OthersWork;
    OthersBounded(o);
    OthersBounded(FiberNext(o, choice, full));
  }

  /** Of what others have to do, only what belongs to the command or callback under way can be more than this. */
  lemma OthersBounded(o: Operation)
    ensures CodeWork(o.code) <= OthersWork(o) <= CodeWork(o.code) + 26
  {
    hide CodeWork;
  }

  lemma StaysAtStart(o: Operation, choice: bool)
    requires o.code == StartCheck || o.code == StartCall || o.code == StartMark || o.code == StartOpened
    ensures var o' := OwnerNext(o, choice);
            && o'.pc == o.pc && o'.start == o.start && o'.stop == o.stop
            && CodeWork(o'.code) + RequestWork(o'.request) < CodeWork(o.code) + RequestWork(o.request)
  {
  }

  lemma StaysAtRefusal(o: Operation, choice: bool)
    requires o.code == RefuseWrite || o.code == RefuseFinish || o.code == RefuseStart || o.code == RefuseCounter
    ensures var o' := OwnerNext(o, choice);
            && o'.pc == o.pc && o'.start == o.start && o'.stop == o.stop
            && CodeWork(o'.code) + RequestWork(o'.request) < CodeWork(o.code) + RequestWork(o.request)
  {
  }

  lemma StaysAtEnd(o: Operation, choice: bool)
    requires o.code == StopCall || o.code == StopWrite || o.code == StopDone || o.code == CompleteFinish ||
             o.code == CompleteDone || o.code == CloseFinish || o.code == CloseDone
    ensures var o' := OwnerNext(o, choice);
            && o'.pc == o.pc && o'.start == o.start && o'.stop == o.stop
            && CodeWork(o'.code) + RequestWork(o'.request) < CodeWork(o.code) + RequestWork(o.request)
  {
  }

  lemma OwnerStays(o: Operation, choice: bool)
    requires o.code != NoCode
    ensures var o' := OwnerNext(o, choice);
            && o'.pc == o.pc && o'.start == o.start && o'.stop == o.stop
            && CodeWork(o'.code) + RequestWork(o'.request) < CodeWork(o.code) + RequestWork(o.request)
  {
    hide OwnerNext, CodeWork, RequestWork;
    if o.code == StartCheck || o.code == StartCall || o.code == StartMark || o.code == StartOpened {
      StaysAtStart(o, choice);
    } else if o.code == RefuseWrite || o.code == RefuseFinish || o.code == RefuseStart || o.code == RefuseCounter {
      StaysAtRefusal(o, choice);
    } else {
      StaysAtEnd(o, choice);
    }
  }

  lemma OwnerWorks(o: Operation, choice: bool)
    requires o.code != NoCode
    ensures Work(OwnerNext(o, choice)) < Work(o)
  {
    OwnerStays(o, choice);
    hide OwnerNext, PcWork, CodeWork;
  }

  lemma TakeWorks(o: Operation, c: Entry)
    requires o.code == NoCode && if c.StartCommand? then o.start == Queued else o.stop == Queued
    ensures Work(Take(o, c)) < Work(o)
  {
  }

  /** Every step but a cancellation leaves less to do. */
  lemma StepWorks(s: System, a: Action)
    requires Inv(s) && Enabled(s, a)
    ensures if a.Cancel? then TotalWork(Step(s, a).ops) == TotalWork(s.ops)
            else TotalWork(Step(s, a).ops) < TotalWork(s.ops)
  {
    hide RunFiber, RunOwner, FiberNext, OwnerNext, TotalWork, OperationOk, RingOk, Work;
    match a {
      case Fiber(i, choice) =>
        FiberForm(s, i, choice);
        FiberWorks(s.ops[i], choice, Full(s));
        WorkOne(s.ops, i, FiberNext(s.ops[i], choice, Full(s)));
      case Owner(choice) =>
        var i := s.busy.value;
        assert s.ops[i].code != NoCode;
        OwnerForm(s, i, choice);
        OwnerWorks(s.ops[i], choice);
        WorkOne(s.ops, i, OwnerNext(s.ops[i], choice));
      case Drain => DrainWorks(s);
      case Complete(i) => LoopWorks(s, a);
      case Close(i) => LoopWorks(s, a);
      case Cancel(i) => LoopWorks(s, a);
    }
  }

  lemma LoopWorks(s: System, a: Action)
    requires Inv(s) && Enabled(s, a) && (a.Complete? || a.Close? || a.Cancel?)
    ensures if a.Cancel? then TotalWork(Step(s, a).ops) == TotalWork(s.ops)
            else TotalWork(Step(s, a).ops) < TotalWork(s.ops)
  {
    var i := a.op;
    var o := s.ops[i];
    assert o.code != NoCode <==> s.busy == Some(i);
    var o' := Step(s, a).ops[i];
    assert Step(s, a).ops == s.ops[i := o'];
    hide TotalWork, OperationOk, RingOk, PcWork;
    WorkOne(s.ops, i, o');
    assert a.Complete? ==> o' == o.(request := Completed, code := CompleteFinish) && o.code == NoCode;
    assert a.Close? ==> o' == o.(request := Closed, code := CloseFinish) && o.code == NoCode;
    hide Step, Enabled;
  }

  lemma DrainWorks(s: System)
    requires Inv(s) && Enabled(s, Drain)
    ensures TotalWork(Step(s, Drain).ops) < TotalWork(s.ops)
  {
    var c := s.commands[0];
    assert c in s.commands;
    assert if c.StartCommand? then s.ops[c.op].start == Queued else s.ops[c.op].stop == Queued;
    assert s.ops[c.op].code == NoCode;
    hide OperationOk, Work;
    TakeWorks(s.ops[c.op], c);
    WorkOne(s.ops, c.op, Take(s.ops[c.op], c));
  }

  /** Only steps that can be taken. */
  predicate Schedulable(s: System, actions: seq<Action>)
    decreases |actions|
  {
    actions == [] || (Enabled(s, actions[0]) && Schedulable(Step(s, actions[0]), actions[1..]))
  }

  function Advances(actions: seq<Action>): nat
  {
    if actions == [] then 0 else (if actions[0].Cancel? then 0 else 1) + Advances(actions[1..])
  }

  lemma {:induction false} AdvancesBounded(s: System, actions: seq<Action>)
    requires Inv(s) && Schedulable(s, actions)
    ensures Advances(actions) + TotalWork(Run(s, actions).ops) <= TotalWork(s.ops)
    decreases |actions|
  {
    if actions != [] {
      StepWorks(s, actions[0]);
      StepKeeps(s, actions[0]);
      hide Inv, Step, Enabled, TotalWork;
      AdvancesBounded(Step(s, actions[0]), actions[1..]);
    }
  }

  lemma {:induction false} IdleWork(ops: seq<Operation>)
    requires forall i :: 0 <= i < |ops| ==> Idle(ops[i])
    ensures TotalWork(ops) == 420 * |ops|
  {
    if ops != [] {
      assert Idle(ops[0]);
      IdleWork(ops[1..]);
    }
  }

  /** No run goes on for ever: between them fibers, owner thread and event loop take at most 420 steps for each
      operation, however often fibers are cancelled. Where none is left every fiber has returned. */
  lemma RunsAreFinite(s: System, actions: seq<Action>)
    requires Initial(s) && Schedulable(s, actions)
    ensures Advances(actions) <= 420 * |s.ops|
  {
    RunInvariant(s, []);
    assert Run(s, []) == s;
    IdleWork(s.ops);
    hide Initial, Inv, Run, Schedulable, TotalWork;
    AdvancesBounded(s, actions);
  }
}
