/** What holds of every operation between any two atomic steps. */
module FiberInvariant {

  import opened Wrappers
  import opened FiberHandshake

  // ------------------------------------------------------------------ One operation

  /** The owner thread is executing the start command. */
  predicate InStart(c: Code)
  {
    c == StartCheck || c == StartCall || c == StartMark || c == StartOpened
    || c == RefuseWrite || c == RefuseFinish || c == RefuseStart || c == RefuseCounter
  }

  predicate InStop(c: Code)
  {
    c == StopCall || c == StopWrite || c == StopDone
  }

  /** The operation has not been counted, or has been refused before anybody else knew of it. */
  predicate Early(o: Operation)
  {
    o.pc == Fresh || o.pc == Counted || o.pc == Begun || o.pc == Enqueueing || o.pc == Undoing || o.pc == Undone
  }

  /** The fiber has returned without involving anybody else. */
  predicate Rejected(o: Operation)
  {
    o.pc == Returned && o.start == Absent && o.request == NotStarted
  }

  /** The operation has been taken from pendingOperations. */
  predicate Spent(o: Operation)
  {
    || o.pc == Undone || (Rejected(o) && o.begun)
    || (o.start == Taken && o.request == NotStarted
        && o.code != StartCheck && o.code != StartCall && o.code != RefuseWrite && o.code != RefuseFinish)
    || (o.request == Completed && o.code != CompleteFinish)
    || (o.request == Closed && o.code != CloseFinish)
  }

  predicate CountersOk(o: Operation)
  {
    && o.decrements == (if Spent(o) then 1 else 0)
    && o.counter == (if o.pc == Fresh || Rejected(o)
                        || (o.start == Taken && o.request == NotStarted && !InStart(o.code))
                        || (o.request == Completed && o.code != CompleteFinish && o.code != CompleteDone) then 0 else 1)
    && o.startCounter == (if o.pc == Enqueueing || o.start == Queued
                             || (o.start == Taken && InStart(o.code) && o.code != RefuseCounter) then 1 else 0)
    && (o.requestStarted <==> o.start == Taken && o.request != NotStarted && o.code != StartMark)
  }

  predicate CodeOk(o: Operation)
  {
    && (InStart(o.code) ==> o.start == Taken)
    && (o.code == StartMark || o.code == StartOpened ==> o.request == Active)
    && (InStart(o.code) && o.code != StartMark && o.code != StartOpened ==> o.request == NotStarted)
    && (InStop(o.code) ==> o.stop == Taken && o.requestStarted)
    && (o.code == StopCall ==> o.request == Active || o.request == Completed)
    && (o.code == StopWrite ==> o.request == Stopped || o.request == Completed)
    && (o.code == StopDone ==> o.stopFailed)
    && (o.code == StopCall || o.code == StopWrite ==> !o.stopFailed)
    && (o.code == CompleteFinish || o.code == CompleteDone ==> o.request == Completed)
    && (o.code == CloseFinish || o.code == CloseDone ==> o.request == Closed)
    && (o.stopFailed ==>
          o.stop == Taken && o.request == Completed && o.code != CompleteFinish && o.code != CompleteDone)
  }

  predicate StopTold(o: Operation)
  {
    (o.stopFailed && o.code != StopDone) || (o.request == Closed && o.code != CloseFinish && o.code != CloseDone)
  }

  /** The counter of the stop is set from the request to stop until its outcome has been told. */
  predicate StopOk(o: Operation)
  {
    && (o.stop != Absent ==> o.away && o.requestStarted && !InStart(o.code)
                             && (o.pc == ReadingStop || o.pc == WaitingStop || o.pc == Returned))
    && (o.stop == Queued ==> (o.request == Active || o.request == Completed) && o.pc != Returned && !o.stopFailed)
    && (o.stop != Absent ==> o.stopCounter == (if StopTold(o) then 0 else 1))
    && (o.stop == Taken && !InStop(o.code) ==> o.stopFailed || o.request == Stopped || o.request == Closed)
    && (o.request == Stopped || o.request == Closed ==>
          o.pc == ReadingStop || o.pc == WaitingStop || (o.pc == Returned && o.request == Closed && o.code == NoCode))
    && (o.away && (o.request == Stopped || o.request == Closed) ==> o.stop == Taken)
    && (!o.away && o.pc == WaitingStop ==>
          (o.request == Stopped || o.request == Closed) && o.stopCounter == (if StopTold(o) then 0 else 1))
    && (o.pc == ReadingStop ==> o.away && o.stop != Absent)
    && (Early(o) || Rejected(o) || o.pc == Pc.Entry || o.pc == Waiting || o.pc == Cancelling ==> o.stopCounter == 0)
    && (o.pc == WaitingStart || o.pc == Stopping ==> o.stopCounter == 0)
    && (o.away && o.pc == WaitingStop ==> o.stop != Absent)
  }

  predicate FiberOk(o: Operation)
  {
    && (o.pc == Fresh || o.pc == Counted ==> !o.begun)
    && (o.pc != Fresh && o.pc != Counted && o.pc != Returned ==> o.begun)
    && (o.pc == Returned && !o.begun ==> Rejected(o))
    && (Early(o) ==> o.start == Absent && o.request == NotStarted && o.code == NoCode)
    && (Rejected(o) ==> o.code == NoCode && o.stop == Absent)
    && (o.start != Absent ==> o.away)
    && (o.away && o.start == Absent ==> Early(o) || Rejected(o))
    && (!o.away ==> o.start == Absent && o.stop == Absent && o.pc != Enqueueing && o.pc != WaitingStart
                    && o.pc != WaitingCounter && o.pc != ReadingStop)
    && (!o.away && !Early(o) && !Rejected(o) ==> o.request != NotStarted)
    && (o.start == Queued ==> o.request == NotStarted && o.code == NoCode)
    && (o.away && (o.pc == Stopping || o.pc == ReadingStop || o.pc == WaitingStop) ==>
          o.requestStarted && o.startCounter == 0)
    && (o.pc == WaitingCounter ==>
          o.startCounter == 0 && (o.requestStarted || o.request == NotStarted) && o.stop == Absent)
    && (o.pc == Stopping ==> o.stop == Absent && (o.request == Active || o.request == Completed))
  }

  /** Nobody will touch the fiber's frame any more, except a stop command that has found its request completed. */
  predicate Quiet(o: Operation)
  {
    && (o.code == NoCode || o.code == StopDone) && o.start != Queued && o.stop != Queued
    && (o.request == NotStarted || o.request == Completed || o.request == Closed)
  }

  predicate ReturnOk(o: Operation)
  {
    o.pc == Returned ==> Quiet(o) && (o.begun ==> o.decrements == 1)
  }

  predicate OperationOk(o: Operation)
  {
    CountersOk(o) && CodeOk(o) && StopOk(o) && FiberOk(o) && ReturnOk(o)
  }

  // ------------------------------------------------------------------ The system

  function Live(o: Operation): nat
  {
    if o.begun && o.decrements == 0 then 1 else 0
  }

  function TotalLive(ops: seq<Operation>): nat
  {
    if ops == [] then 0 else Live(ops[0]) + TotalLive(ops[1..])
  }

  /** The ring holds exactly the commands that operations wait for, each once. */
  predicate RingOk(s: System)
  {
    && (forall k :: 0 <= k < |s.commands| ==> s.commands[k].op < |s.ops|)
    && (forall k, l :: 0 <= k < l < |s.commands| ==> s.commands[k] != s.commands[l])
    && (forall i :: 0 <= i < |s.ops| ==>
          && (s.ops[i].start == Queued <==> StartCommand(i) in s.commands)
          && (s.ops[i].stop == Queued <==> StopCommand(i) in s.commands))
  }

  /** Every operation is sound, and the owner thread executes the code of at most one. */
  predicate OperationsOk(s: System)
  {
    && (forall i :: 0 <= i < |s.ops| ==> OperationOk(s.ops[i]) && (s.ops[i].code != NoCode <==> s.busy == Some(i)))
    && (s.busy.Some? ==> s.busy.value < |s.ops|)
  }

  predicate Inv(s: System)
  {
    OperationsOk(s) && RingOk(s) && s.pending == TotalLive(s.ops) && s.failed == 0
  }

  // ------------------------------------------------------------------ Every step of one operation keeps its part

  lemma {:induction false} LiveOne(ops: seq<Operation>, i: nat, o: Operation)
    requires i < |ops|
    ensures TotalLive(ops[i := o]) + Live(ops[i]) == TotalLive(ops) + Live(o)
  {
    if i == 0 {
      assert ops[0 := o][1..] == ops[1..];
    } else {
      LiveOne(ops[1..], i - 1, o);
      assert ops[i := o][1..] == ops[1..][i - 1 := o];
    }
  }

  /** What a step of the fiber means for the ring and for pendingOperations. */
  predicate FiberEffect(o: Operation, o': Operation, full: bool)
  {
    && o'.code == o.code
    && (o'.start == Queued <==> o.start == Queued || (o.pc == Enqueueing && !full))
    && (o'.stop == Queued <==> o.stop == Queued || (o.pc == Stopping && o.away && !full))
    && (o.pc == Enqueueing ==> o.start != Queued) && (o.pc == Stopping ==> o.stop != Queued)
    && Live(o') == Live(o) + (if o.pc == Counted then 1 else if o.pc == Undoing then -1 else 0)
    && (o.pc == Undoing ==> Live(o) == 1)
  }

  /** What a step of the owner thread means for them. */
  predicate OwnerEffect(o: Operation, o': Operation)
  {
    var finish := o.code == RefuseFinish || o.code == CompleteFinish || o.code == CloseFinish;
    && o'.start == o.start && o'.stop == o.stop
    && Live(o') == Live(o) - (if finish then 1 else 0) && (finish ==> Live(o) == 1)
  }

  lemma BeginKeeps(o: Operation, choice: bool, full: bool)
    requires OperationOk(o) && Early(o) && (!o.away ==> o.code == NoCode)
    ensures OperationOk(FiberNext(o, choice, full)) && FiberEffect(o, FiberNext(o, choice, full), full)
  {
    if o.pc == Fresh || o.pc == Counted || o.pc == Begun {
      CountingOk(o, choice, full);
    } else {
      EnqueueingOk(o, choice, full);
    }
    hide OperationOk;
  }

  lemma CountingOk(o: Operation, choice: bool, full: bool)
    requires OperationOk(o) && (o.pc == Fresh || o.pc == Counted || o.pc == Begun) && (!o.away ==> o.code == NoCode)
    ensures OperationOk(FiberNext(o, choice, full))
  {
    hide FiberEffect;
  }

  lemma EnqueueingOk(o: Operation, choice: bool, full: bool)
    requires OperationOk(o) && (o.pc == Enqueueing || o.pc == Undoing || o.pc == Undone) &&
             (!o.away ==> o.code == NoCode)
    ensures OperationOk(FiberNext(o, choice, full))
  {
    hide FiberEffect;
  }

  lemma WaitKeeps(o: Operation, choice: bool, full: bool)
    requires OperationOk(o) && CanGo(o, choice) && (!o.away ==> o.code == NoCode)
    requires o.pc == Pc.Entry || o.pc == Waiting || o.pc == Cancelling
    ensures OperationOk(FiberNext(o, choice, full)) && FiberEffect(o, FiberNext(o, choice, full), full)
  {
    WaitOk(o, choice, full);
    hide OperationOk;
  }

  lemma WaitOk(o: Operation, choice: bool, full: bool)
    requires OperationOk(o) && CanGo(o, choice) && (!o.away ==> o.code == NoCode)
    requires o.pc == Pc.Entry || o.pc == Waiting || o.pc == Cancelling
    ensures OperationOk(FiberNext(o, choice, full))
  {
    hide FiberEffect;
  }

  lemma RefusedKeeps(o: Operation, choice: bool, full: bool)
    requires OperationOk(o) && CanGo(o, choice) && (!o.away ==> o.code == NoCode)
    requires o.pc == WaitingStart || o.pc == WaitingCounter
    ensures OperationOk(FiberNext(o, choice, full)) && FiberEffect(o, FiberNext(o, choice, full), full)
  {
  }

  lemma StoppingKeeps(o: Operation, choice: bool, full: bool)
    requires OperationOk(o) && (!o.away ==> o.code == NoCode) && (o.pc == Stopping || o.pc == ReadingStop)
    ensures OperationOk(FiberNext(o, choice, full)) && FiberEffect(o, FiberNext(o, choice, full), full)
  {
  }

  lemma StoppedKeeps(o: Operation, choice: bool, full: bool)
    requires OperationOk(o) && CanGo(o, choice) && (!o.away ==> o.code == NoCode) && o.pc == WaitingStop
    ensures OperationOk(FiberNext(o, choice, full)) && FiberEffect(o, FiberNext(o, choice, full), full)
  {
  }

  /** Every step of a fiber. */
  lemma FiberKeeps(o: Operation, choice: bool, full: bool)
    requires OperationOk(o) && CanGo(o, choice) && (!o.away ==> o.code == NoCode)
    ensures OperationOk(FiberNext(o, choice, full)) && FiberEffect(o, FiberNext(o, choice, full), full)
  {
    hide OperationOk, FiberNext, FiberEffect;
    match o.pc {
      case Fresh | Counted | Begun | Enqueueing | Undoing | Undone => BeginKeeps(o, choice, full);
      case Entry | Waiting | Cancelling => WaitKeeps(o, choice, full);
      case WaitingStart | WaitingCounter => RefusedKeeps(o, choice, full);
      case Stopping | ReadingStop => StoppingKeeps(o, choice, full);
      case WaitingStop => StoppedKeeps(o, choice, full);
      case Returned =>
    }
  }

  lemma StartKeeps(o: Operation, choice: bool)
    requires OperationOk(o) &&
             (o.code == StartCheck || o.code == StartCall || o.code == StartMark || o.code == StartOpened)
    ensures OperationOk(OwnerNext(o, choice)) && OwnerEffect(o, OwnerNext(o, choice))
  {
  }

  lemma RefuseKeeps(o: Operation, choice: bool)
    requires OperationOk(o)
    requires o.code == RefuseWrite || o.code == RefuseFinish || o.code == RefuseStart || o.code == RefuseCounter
    ensures OperationOk(OwnerNext(o, choice)) && OwnerEffect(o, OwnerNext(o, choice))
  {
  }

  lemma StopKeeps(o: Operation, choice: bool)
    requires OperationOk(o) && InStop(o.code)
    ensures OperationOk(OwnerNext(o, choice)) && OwnerEffect(o, OwnerNext(o, choice))
  {
  }

  lemma CompleteKeeps(o: Operation, choice: bool)
    requires OperationOk(o) && (o.code == CompleteFinish || o.code == CompleteDone)
    ensures OperationOk(OwnerNext(o, choice)) && OwnerEffect(o, OwnerNext(o, choice))
  {
  }

  lemma ClosingKeeps(o: Operation, choice: bool)
    requires OperationOk(o) && o.code == CloseFinish
    ensures OperationOk(OwnerNext(o, choice)) && OwnerEffect(o, OwnerNext(o, choice))
  {
  }

  lemma ClosedKeeps(o: Operation, choice: bool)
    requires OperationOk(o) && o.code == CloseDone
    ensures OperationOk(OwnerNext(o, choice)) && OwnerEffect(o, OwnerNext(o, choice))
  {
    ClosedOk(o, choice);
    hide OperationOk;
  }

  lemma ClosedOk(o: Operation, choice: bool)
    requires OperationOk(o) && o.code == CloseDone
    ensures OperationOk(OwnerNext(o, choice))
  {
    hide OwnerEffect;
  }

  /** Every step of the owner thread. */
  lemma OwnerKeeps(o: Operation, choice: bool)
    requires OperationOk(o) && o.code != NoCode
    ensures OperationOk(OwnerNext(o, choice)) && OwnerEffect(o, OwnerNext(o, choice))
  {
    hide OperationOk, OwnerNext, OwnerEffect;
    if o.code == StartCheck || o.code == StartCall || o.code == StartMark || o.code == StartOpened {
      StartKeeps(o, choice);
    } else if InStart(o.code) {
      RefuseKeeps(o, choice);
    } else if InStop(o.code) {
      StopKeeps(o, choice);
    } else if o.code == CompleteFinish || o.code == CompleteDone {
      CompleteKeeps(o, choice);
    } else if o.code == CloseFinish {
      ClosingKeeps(o, choice);
    } else {
      ClosedKeeps(o, choice);
    }
  }

  lemma TakeKeeps(o: Operation, c: Entry)
    requires OperationOk(o) && o.code == NoCode && (if c.StartCommand? then o.start == Queued else o.stop == Queued)
    ensures OperationOk(Take(o, c))
  {
  }

  lemma LoopKeeps(o: Operation)
    requires OperationOk(o) && o.code == NoCode
    ensures o.request == Active ==> OperationOk(o.(request := Completed, code := CompleteFinish))
    ensures o.request == Stopped ==> OperationOk(o.(request := Closed, code := CloseFinish))
    ensures OperationOk(o.(cancelled := true))
  {
  }

  // ------------------------------------------------------------------ The shared counter

  lemma {:induction false} LiveBound(ops: seq<Operation>, i: nat)
    requires i < |ops|
    ensures TotalLive(ops) >= Live(ops[i])
  {
    if i > 0 {
      LiveBound(ops[1..], i - 1);
    }
  }

  // ------------------------------------------------------------------ The ring of commands

  lemma RingSame(s: System, s': System, i: nat)
    requires RingOk(s) && i < |s.ops| == |s'.ops| && s'.commands == s.commands
    requires forall j :: 0 <= j < |s.ops| && j != i ==> s'.ops[j] == s.ops[j]
    requires s'.ops[i].start == Queued <==> s.ops[i].start == Queued
    requires s'.ops[i].stop == Queued <==> s.ops[i].stop == Queued
    ensures RingOk(s')
  {
  }

  lemma RingAppend(s: System, s': System, i: nat, c: Entry)
    requires RingOk(s) && i < |s.ops| == |s'.ops| && c.op == i && c !in s.commands && s'.commands == s.commands + [c]
    requires forall j :: 0 <= j < |s.ops| && j != i ==> s'.ops[j] == s.ops[j]
    requires s'.ops[i].start == Queued <==> s.ops[i].start == Queued || c.StartCommand?
    requires s'.ops[i].stop == Queued <==> s.ops[i].stop == Queued || c.StopCommand?
    ensures RingOk(s')
  {
    assert forall x: Entry :: x in s'.commands <==> x in s.commands || x == c;
  }

  lemma RingPop(s: System, s': System, i: nat)
    requires RingOk(s) && s.commands != [] && i == s.commands[0].op < |s.ops| == |s'.ops| &&
             s'.commands == s.commands[1..]
    requires forall j :: 0 <= j < |s.ops| && j != i ==> s'.ops[j] == s.ops[j]
    requires s'.ops[i].start == Queued <==> s.ops[i].start == Queued && !s.commands[0].StartCommand?
    requires s'.ops[i].stop == Queued <==> s.ops[i].stop == Queued && !s.commands[0].StopCommand?
    ensures RingOk(s')
  {
    var c := s.commands[0];
    assert s.commands == [c] + s'.commands;
    assert c !in s'.commands;
    assert forall x: Entry :: x in s'.commands <==> x in s.commands && x != c;
  }
}
