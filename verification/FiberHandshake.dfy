/** Fibers that run an operation of the event loop from any thread: the steps of every fiber and of the
    owner thread, so that a run is any interleaving of them. */
module FiberHandshake {

  import opened Wrappers

  /** Where the fiber stands in startOperation, waitForOperation and stopOperation. */
  datatype Pc =
    | Fresh | Counted | Begun | Enqueueing | Undoing | Undone
    | Entry | Waiting | Cancelling | WaitingStart | WaitingCounter
    | Stopping | ReadingStop | WaitingStop | Returned

  /** What the owner thread is executing for the operation. The last constructors belong to the commands'
      failures, to the callback of the request and to the callback of its stop. */
  datatype Code =
    | NoCode
    | StartCheck | StartCall | StartMark | StartOpened
    | RefuseWrite | RefuseFinish | RefuseStart | RefuseCounter
    | StopCall | StopWrite | StopDone
    | CompleteFinish | CompleteDone
    | CloseFinish | CloseDone

  datatype Command = Absent | Queued | Taken

  datatype Request = NotStarted | Active | Completed | Stopped | Closed

  /** One operation: the variables of the fiber's frame, and what others hold of it. `away` says that the fiber
      runs on another thread than the owner. `decrements` counts how often it has been taken from pendingOperations. */
  datatype Operation = Operation(
    away: bool, pc: Pc, code: Code,
    cancelled: bool, cancelBeforeStart: bool, requestStarted: bool, stopFailed: bool,
    counter: int, startCounter: int, stopCounter: int,
    start: Command, stop: Command, request: Request,
    begun: bool, decrements: nat)

  datatype Entry = StartCommand(op: nat) | StopCommand(op: nat)

  /** `busy` is the operation for which the owner thread is executing code; `failed` counts the release
      assertions of operationFinished that did not hold. */
  datatype System = System(
    ops: seq<Operation>, pending: int, commands: seq<Entry>, capacity: nat, busy: Option<nat>, failed: nat)

  datatype Action =
    | Fiber(op: nat, choice: bool)   // the fiber takes its next step; the choice is that of the environment
    | Owner(choice: bool)            // the owner thread goes on with what it is executing
    | Drain                          // the owner thread takes the next command
    | Complete(op: nat)              // the event loop completes a request
    | Close(op: nat)                 // the event loop closes a stopped request
    | Cancel(op: nat)                // somebody cancels the fiber

  // ------------------------------------------------------------------ Steps

  function Put(s: System, i: nat, o: Operation): System
    requires i < |s.ops|
  {
    s.(ops := s.ops[i := o])
  }

  /** operationFinished on the shared counter. */
  function FinishOperation(s: System): System
  {
    (if s.pending > 0 then s else s.(failed := s.failed + 1)).(pending := s.pending - 1)
  }

  function Decremented(o: Operation): Operation
  {
    o.(decrements := o.decrements + 1)
  }

  /** The ring is full. */
  predicate Full(s: System)
  {
    |s.commands| >= s.capacity
  }

  /** The fiber is not blocked. With `choice`, an interruptible wait reports the cancellation. */
  predicate CanGo(o: Operation, choice: bool)
  {
    match o.pc
    case Waiting => if choice then o.cancelled else o.counter == 0
    case WaitingStart => o.startCounter == 0
    case WaitingCounter => o.counter == 0
    case WaitingStop => o.stopCounter == 0
    case Returned => false
    case _ => true
  }

  /** A fiber of the owner thread runs only while that thread executes nothing else. */
  predicate CanRun(s: System, i: nat, choice: bool)
    requires i < |s.ops|
  {
    (s.ops[i].away || s.busy.None?) && CanGo(s.ops[i], choice)
  }

  /** The fiber's own part of its next step. `choice` is the outcome of starting the request on the owner thread,
      and whether a wait that is both complete and interrupted reports the interruption. */
  function FiberNext(o: Operation, choice: bool, full: bool): (o': Operation)
    ensures o'.away == o.away
  {
    match o.pc
    case Fresh => if o.cancelled then o.(pc := Returned) else o.(pc := Counted, counter := o.counter + 1)
    case Counted => o.(pc := Begun, begun := true)
    case Begun =>
      if o.away then o.(pc := Enqueueing, startCounter := o.startCounter + 1)
      else if choice then o.(pc := Pc.Entry, request := Active)
      else o.(pc := Undoing)
    case Enqueueing =>
      if full then o.(pc := Undoing, startCounter := o.startCounter - 1) else o.(pc := Pc.Entry, start := Queued)
    case Undoing => Decremented(o).(pc := Undone)
    case Undone => o.(pc := Returned, counter := o.counter - 1)
    case Entry => o.(pc := if o.cancelled then Cancelling else Waiting)
    case Waiting => o.(pc := if choice then Cancelling else Returned)
    case Cancelling => if o.away then o.(pc := WaitingStart, cancelBeforeStart := true) else o.(pc := Stopping)
    case WaitingStart => o.(pc := if o.requestStarted then Stopping else WaitingCounter)
    case WaitingCounter => o.(pc := Returned)
    case Stopping =>
      if o.away then
        if full then o.(pc := WaitingCounter, stopCounter := o.stopCounter + 1)
        else o.(pc := ReadingStop, stopCounter := o.stopCounter + 1, stop := Queued)
      else if o.request == Active then o.(pc := WaitingStop, stopCounter := o.stopCounter + 1, request := Stopped)
      else o.(pc := Returned, stopCounter := o.stopCounter + 1)
    case ReadingStop => o.(pc := if o.stopFailed then Returned else WaitingStop)
    case WaitingStop => o.(pc := Returned)
    case Returned => o
  }

  function RunFiber(s: System, i: nat, choice: bool): System
    requires i < |s.ops|
  {
    var o := s.ops[i];
    var s1 := Put(s, i, FiberNext(o, choice, Full(s)));
    match o.pc
    case Counted => s1.(pending := s1.pending + 1)
    case Undoing => FinishOperation(s1)
    case Enqueueing => if Full(s) then s1 else s1.(commands := s1.commands + [StartCommand(i)])
    case Stopping => if o.away && !Full(s) then s1.(commands := s1.commands + [StopCommand(i)]) else s1
    case _ => s1
  }

  /** The next access of the owner thread to what belongs to the operation: executeStartCommand, executeStopCommand
      and the callbacks. `choice` is the outcome of starting the request. */
  function OwnerNext(o: Operation, choice: bool): (o': Operation)
    ensures o'.away == o.away
  {
    match o.code
    case NoCode => o
    case StartCheck => o.(code := if o.cancelBeforeStart then RefuseWrite else StartCall)
    case StartCall => if choice then o.(code := StartMark, request := Active) else o.(code := RefuseWrite)
    case StartMark => o.(code := StartOpened, requestStarted := true)
    case StartOpened => o.(code := NoCode, startCounter := o.startCounter - 1)
    case RefuseWrite => o.(code := RefuseFinish)
    case RefuseFinish => Decremented(o).(code := RefuseStart)
    case RefuseStart => o.(code := RefuseCounter, startCounter := o.startCounter - 1)
    case RefuseCounter => o.(code := NoCode, counter := o.counter - 1)
    case StopCall => o.(code := StopWrite, request := if o.request == Active then Stopped else o.request)
    case StopWrite => if o.request == Stopped then o.(code := NoCode) else o.(code := StopDone, stopFailed := true)
    case StopDone => o.(code := NoCode, stopCounter := o.stopCounter - 1)
    case CompleteFinish => Decremented(o).(code := CompleteDone)
    case CompleteDone => o.(code := NoCode, counter := o.counter - 1)
    case CloseFinish => Decremented(o).(code := CloseDone)
    case CloseDone => o.(code := NoCode, stopCounter := o.stopCounter - 1)
  }

  function RunOwner(s: System, i: nat, choice: bool): System
    requires i < |s.ops|
  {
    var o := s.ops[i];
    var o' := OwnerNext(o, choice);
    var s1 := Put(s, i, o').(busy := if o'.code == NoCode then None else Some(i));
    if o.code == RefuseFinish || o.code == CompleteFinish || o.code == CloseFinish then FinishOperation(s1) else s1
  }

  function Take(o: Operation, c: Entry): Operation
  {
    if c.StartCommand? then o.(start := Taken, code := StartCheck) else o.(stop := Taken, code := StopCall)
  }

  predicate Enabled(s: System, a: Action)
  {
    match a
    case Fiber(i, choice) => i < |s.ops| && CanRun(s, i, choice)
    case Owner(_) => s.busy.Some? && s.busy.value < |s.ops|
    case Drain => s.busy.None? && s.commands != [] && s.commands[0].op < |s.ops|
    case Complete(i) => s.busy.None? && i < |s.ops| && s.ops[i].request == Active
    case Close(i) => s.busy.None? && i < |s.ops| && s.ops[i].request == Stopped
    case Cancel(i) => i < |s.ops|
  }

  function Step(s: System, a: Action): System
  {
    if !Enabled(s, a) then s
    else match a
      case Fiber(i, choice) => RunFiber(s, i, choice)
      case Owner(choice) => RunOwner(s, s.busy.value, choice)
      case Drain =>
        var i := s.commands[0].op;
        Put(s, i, Take(s.ops[i], s.commands[0])).(commands := s.commands[1..], busy := Some(i))
      case Complete(i) => Put(s, i, s.ops[i].(request := Completed, code := CompleteFinish)).(busy := Some(i))
      case Close(i) => Put(s, i, s.ops[i].(request := Closed, code := CloseFinish)).(busy := Some(i))
      case Cancel(i) => Put(s, i, s.ops[i].(cancelled := true))
  }

  function Run(s: System, actions: seq<Action>): System
    decreases |actions|
  {
    if actions == [] then s else Run(Step(s, actions[0]), actions[1..])
  }

  predicate Idle(o: Operation)
  {
    o == Operation(o.away, Fresh, NoCode, o.cancelled, false, false, false, 0, 0, 0, Absent, Absent, NotStarted, false,
        0)
  }

  predicate Initial(s: System)
  {
    && (forall i :: 0 <= i < |s.ops| ==> Idle(s.ops[i]))
    && s.pending == 0 && s.commands == [] && s.busy.None? && s.failed == 0
  }
}
