/** AsyncEventLoopMonitor: a thread that blocks in the kernel for the event loop of the main thread. The main
    thread alternates startMonitoring and stopMonitoringAndDispatchCompletions; a run is any interleaving of the
    atomic steps of the two threads, of the operating system and of other threads that wake the loop. */
module Monitor {

  datatype MainPc =
    | Stopped      // not monitoring
    | Submitting   // startMonitoring, submitRequests
    | Entering     // about to signal eventObjectEnterBlockingMode
    | Monitoring   // the polling thread is in charge
    | Waking       // needsWakeUp was set: about to wake the loop
    | Waiting      // on eventObjectExitBlockingMode
    | Resetting    // about to set needsWakeUp again
    | Dispatching  // dispatchCompletions
    | Deciding     // whether one more step of the loop is needed
    | Extra        // runOnce

  datatype PollPc =
    | Blocked      // on eventObjectEnterBlockingMode
    | Polling      // blockingPoll
    | Clearing     // about to clear needsWakeUp
    | Announcing   // onNewEventsAvailable
    | Exiting      // about to signal eventObjectExitBlockingMode

  /** `enter` and `exit` are the binary events. `pending` is the counter of the monitor's own wake-up and `latch` that
      of the loop; a notification is `inKernel` until a poll collects it into the events buffer, then `inBatch` until
      it is dispatched. `mustSend` and `called` are wakeUpMustBeSent and wakeUpHasBeenCalled. */
  datatype System = System(
    main: MainPc, poll: PollPc, enter: bool, exit: bool,
    needsWakeUp: bool, mustSend: bool, called: bool,
    pending: nat, latch: bool, inKernel: bool, inBatch: bool)

  datatype Action =
    | Main(collect: bool)         // the main thread goes on
    | Poll(io: bool, collect: bool) // the polling thread goes on; I/O may be ready, the notification may be collected
    | Other                       // some other thread wakes the loop

  /** wakeUpFromExternalThread: only the thread that sets the latch notifies the kernel. */
  function Notify(s: System): System
  {
    if s.latch then s else s.(latch := true, inKernel := true)
  }

  /** The notification is collected by a poll when it is there and there is room for it. */
  function Collect(s: System, collect: bool): System
  {
    if s.inKernel && collect then s.(inKernel := false, inBatch := true) else s
  }

  /** executeWakeUps, when the events buffer holds the notification; the monitor's callback reactivates its wake-up. */
  function Dispatch(s: System): System
  {
    if s.inBatch then
      s.(inBatch := false, latch := false, called := s.called || s.pending > 0, pending := 0)
    else s
  }

  predicate Enabled(s: System, a: Action)
  {
    match a
    case Main(collect) =>
      if s.main == Waiting then s.exit
      else if s.main == Extra then s.inKernel   // a step of the loop blocks until it has an event
      else true
    case Poll(io, collect) =>
      if s.poll == Blocked then s.enter
      else if s.poll == Polling then io || (s.inKernel && collect)
      else true
    case Other => true
  }

  function RunMain(s: System, collect: bool): System
  {
    match s.main
    case Stopped => s.(main := Submitting)
    case Submitting => s.(main := Entering)
    case Entering => s.(enter := true, main := Monitoring)
    case Monitoring =>
      s.(mustSend := s.needsWakeUp, called := if s.needsWakeUp then false else s.called,
         main := if s.needsWakeUp then Waking else Waiting)
    case Waking =>
      var s1 := s.(pending := s.pending + 1, main := Waiting);
      if s.pending == 0 then Notify(s1) else s1
    case Waiting => s.(exit := false, main := Resetting)
    case Resetting => s.(needsWakeUp := true, main := Dispatching)
    case Dispatching => Dispatch(s).(main := Deciding)
    case Deciding => s.(main := if s.mustSend && !s.called then Extra else Stopped)
    case Extra => Dispatch(Collect(s, collect)).(main := Stopped)
  }

  function RunPoll(s: System, collect: bool): System
  {
    match s.poll
    case Blocked => s.(enter := false, poll := Polling)
    case Polling => Collect(s, collect).(poll := Clearing)
    case Clearing => s.(needsWakeUp := false, poll := Announcing)
    case Announcing => s.(poll := Exiting)
    case Exiting => s.(exit := true, poll := Blocked)
  }

  function Step(s: System, a: Action): System
  {
    if !Enabled(s, a) then s
    else match a
      case Main(collect) => RunMain(s, collect)
      case Poll(_, collect) => RunPoll(s, collect)
      case Other => Notify(s)
  }

  function Run(s: System, actions: seq<Action>): System
    decreases |actions|
  {
    if actions == [] then s else Run(Step(s, actions[0]), actions[1..])
  }

  /** After create. */
  predicate Initial(s: System)
  {
    s == System(Stopped, Blocked, false, false, true, false, false, 0, false, false, false)
  }

  // ------------------------------------------------------------------ The invariant

  /** The polling thread has been let in and has not been waited for yet. */
  predicate Session(m: MainPc)
  {
    m == Monitoring || m == Waking || m == Waiting
  }

  predicate Inv(s: System)
  {
    && (s.enter ==> Session(s.main) && s.poll == Blocked && !s.exit && s.needsWakeUp)
    && (s.exit ==> Session(s.main) && s.poll == Blocked && !s.needsWakeUp)
    && (s.poll != Blocked ==> Session(s.main))
    && (Session(s.main) && s.poll == Blocked ==> s.enter || s.exit)
    && (s.poll == Polling || s.poll == Clearing ==> s.needsWakeUp)
    && (s.poll == Announcing || s.poll == Exiting ==> !s.needsWakeUp)
    && (!Session(s.main) && s.main != Resetting ==> s.needsWakeUp)
    && (s.latch <==> s.inKernel || s.inBatch) && !(s.inKernel && s.inBatch)
    && (s.pending > 0 ==> s.latch)
    && (s.inBatch ==> (Session(s.main) && (s.poll == Clearing || s.poll == Announcing || s.poll == Exiting || s.exit))
                      || s.main == Resetting || s.main == Dispatching)
    && (s.main == Waking ==> s.mustSend && !s.called)
    && (s.main == Waiting || s.main == Resetting || s.main == Dispatching ==>
          (s.mustSend ==> s.pending > 0 && !s.called))
    && (s.main == Waiting && !s.mustSend ==> !s.needsWakeUp)
    && (s.main == Deciding || s.main == Extra ==> (s.mustSend && !s.called ==> s.pending > 0))
    && (s.main == Extra ==> s.mustSend && !s.called)
  }

  lemma MainKeeps(s: System, collect: bool)
    requires Inv(s) && Enabled(s, Main(collect))
    ensures Inv(RunMain(s, collect))
  {
  }

  lemma PollKeeps(s: System, io: bool, collect: bool)
    requires Inv(s) && Enabled(s, Poll(io, collect))
    ensures Inv(RunPoll(s, collect))
  {
  }

  lemma StepKeeps(s: System, a: Action)
    requires Inv(s)
    ensures Inv(Step(s, a))
  {
    if Enabled(s, a) {
      match a {
        case Main(collect) => MainKeeps(s, collect);
        case Poll(io, collect) => PollKeeps(s, io, collect);
        case Other =>
      }
      hide RunMain, RunPoll, Enabled;
    }
  }

  lemma {:induction false} RunKeeps(s: System, actions: seq<Action>)
    requires Inv(s)
    ensures Inv(Run(s, actions))
    decreases |actions|
  {
    if actions != [] {
      StepKeeps(s, actions[0]);
      RunKeeps(Step(s, actions[0]), actions[1..]);
    }
  }

  // ------------------------------------------------------------------ What holds of every run

  /** The main thread and the polling thread never use the kernel events at once. */
  lemma EventsExclusive(s: System, actions: seq<Action>)
    requires Initial(s)
    ensures var r := Run(s, actions);
            r.main == Submitting || r.main == Dispatching || r.main == Deciding || r.main == Extra ==>
              r.poll == Blocked && !r.enter
  {
    RunKeeps(s, actions);
    hide Run;
  }

  /** The polling thread can get to the signal that the main thread waits for without any I/O: it is never
      blocked in the kernel while the main thread waits, unless a notification is there to unblock it. */
  lemma WaitIsSatisfiable(s: System, actions: seq<Action>)
    requires Initial(s)
    ensures var r := Run(s, actions);
            r.main == Waiting ==> Enabled(r, Main(true)) || Enabled(r, Poll(false, true))
  {
    RunKeeps(s, actions);
    hide Run;
  }

  function Polls(s: System, n: nat): System
    decreases n
  {
    if n == 0 then s else Polls(Step(s, Poll(false, true)), n - 1)
  }

  /** From any state in which the main thread waits, five steps of the polling thread are enough. */
  lemma WaitEnds(s: System, actions: seq<Action>)
    requires Initial(s) && Run(s, actions).main == Waiting
    ensures var r := Polls(Run(s, actions), 5); r.main == Waiting && r.exit
  {
    RunKeeps(s, actions);
    hide Run, Polls;
    Exits(Run(s, actions), 5);
  }

  /** How far the polling thread is from its signal. */
  function Distance(s: System): nat
  {
    if s.exit then 0
    else match s.poll
      case Blocked => 5
      case Polling => 4
      case Clearing => 3
      case Announcing => 2
      case Exiting => 1
  }

  lemma {:induction false} Exits(s: System, n: nat)
    requires Inv(s) && s.main == Waiting && Distance(s) <= n
    ensures Polls(s, n).main == Waiting && Polls(s, n).exit
    decreases n
  {
    if n > 0 {
      var s1 := Step(s, Poll(false, true));
      StepKeeps(s, Poll(false, true));
      assert s1.main == Waiting && Distance(s1) <= n - 1;
      hide Inv, Step;
      Exits(s1, n - 1);
    }
  }

  /** The extra step of the loop runs only while the notification of the wake-up that was sent is still in the
      kernel, so that it cannot block for ever. */
  lemma ExtraStepReturns(s: System, actions: seq<Action>)
    requires Initial(s)
    ensures var r := Run(s, actions); r.main == Extra ==> r.pending > 0 && r.inKernel
  {
    RunKeeps(s, actions);
    hide Run;
  }

  // ------------------------------------------------------------------ Monitoring comes to an end

  /** The main thread goes on if it can; while it waits, the polling thread does, without any I/O. */
  function Serve(s: System): System
  {
    if Enabled(s, Main(true)) then Step(s, Main(true)) else Step(s, Poll(false, true))
  }

  /** ... until the main thread has stopped monitoring. */
  function Served(s: System, n: nat): System
    decreases n
  {
    if n == 0 || s.main == Stopped then s else Served(Serve(s), n - 1)
  }

  function ToStop(s: System): nat
  {
    match s.main
    case Stopped => 0
    case Submitting => 15
    case Entering => 14
    case Monitoring => 13
    case Waking => 12
    case Waiting => 6 + Distance(s)
    case Resetting => 4
    case Dispatching => 3
    case Deciding => 2
    case Extra => 1
  }

  lemma ServeAdvances(s: System)
    requires Inv(s) && s.main != Stopped
    ensures Inv(Serve(s)) && ToStop(Serve(s)) < ToStop(s)
  {
    if Enabled(s, Main(true)) {
      StepKeeps(s, Main(true));
      MainAdvances(s);
    } else {
      StepKeeps(s, Poll(false, true));
      assert s.main == Waiting;
    }
  }

  lemma MainAdvances(s: System)
    requires Inv(s) && s.main != Stopped && Enabled(s, Main(true))
    ensures ToStop(RunMain(s, true)) < ToStop(s)
  {
  }

  lemma {:induction false} ServedStops(s: System, n: nat)
    requires Inv(s) && ToStop(s) <= n
    ensures Served(s, n).main == Stopped
    decreases n
  {
    if n > 0 && s.main != Stopped {
      ServeAdvances(s);
      hide Inv, Serve, ToStop;
      ServedStops(Serve(s), n - 1);
    }
  }

  /** From every reachable state the main thread is through with monitoring after fifteen steps at most, its own and
      those of the polling thread that it waits for. */
  lemma MonitoringEnds(s: System, actions: seq<Action>)
    requires Initial(s)
    ensures Served(Run(s, actions), 15).main == Stopped
  {
    RunKeeps(s, actions);
    hide Run, Inv;
    ServedStops(Run(s, actions), 15);
  }

  // ------------------------------------------------------------------ The wake-up that was sent

  lemma ServeDelivers(s: System)
    requires Inv(s) && s.main != Stopped
    ensures Inv(Serve(s))
    ensures Serve(s).main == Stopped && Serve(s).mustSend ==> Serve(s).called
  {
    if Enabled(s, Main(true)) {
      StepKeeps(s, Main(true));
    } else {
      StepKeeps(s, Poll(false, true));
    }
  }

  lemma {:induction false} ServedDelivers(s: System, n: nat)
    requires Inv(s) && s.main != Stopped && ToStop(s) <= n
    ensures Served(s, n).main == Stopped && (Served(s, n).mustSend ==> Served(s, n).called)
    decreases n
  {
    ServeAdvances(s);
    ServeDelivers(s);
    var s1 := Serve(s);
    if s1.main == Stopped {
      assert Served(s1, n - 1) == s1;
    } else {
      hide Inv, Serve, ToStop;
      ServedDelivers(s1, n - 1);
    }
  }

  /** A stop that has had to wake the polling thread is not through before the callback of that wake-up has run, if need
      be in an extra step of the loop; and a session begins as soon as the main thread asks for it. */
  lemma StopDelivers(s: System, actions: seq<Action>)
    requires Initial(s)
    ensures var r := Run(s, actions);
            && (r.main == Stopped ==> Step(r, Main(true)).main == Submitting)
            && (r.main != Stopped ==>
                  Served(r, 15).main == Stopped && (Served(r, 15).mustSend ==> Served(r, 15).called))
            && (r.main == Deciding ==> Step(r, Main(true)).main == if r.mustSend && !r.called then Extra else Stopped)
  {
    RunKeeps(s, actions);
    var r := Run(s, actions);
    hide Run;
    if r.main != Stopped {
      assert ToStop(r) <= 15;
      hide Inv;
      ServedDelivers(r, 15);
    }
  }

  // ------------------------------------------------------------------ Single steps, in every state

  /** The threads wait for their events; the polling thread and the extra step for the kernel. */
  lemma WaitsExactly(s: System, io: bool, collect: bool)
    ensures s.main == Waiting ==> (Step(s, Main(collect)) != s <==> s.exit)
    ensures s.main == Extra ==> (Step(s, Main(collect)) != s <==> s.inKernel)
    ensures s.poll == Blocked ==> (Step(s, Poll(io, collect)) != s <==> s.enter)
    ensures s.poll == Polling ==> (Step(s, Poll(io, collect)) != s <==> io || (s.inKernel && collect))
  {
  }

  /** stopMonitoring wakes the loop if and only if the polling thread has not announced events yet; the kernel is
      notified if and only if neither the monitor nor anybody else has done so. */
  lemma StopSends(s: System, collect: bool)
    requires s.main == Monitoring
    ensures var r := Step(s, Main(collect));
            && r.mustSend == s.needsWakeUp
            && (!s.needsWakeUp ==> r == s.(mustSend := false, main := Waiting))
            && (s.needsWakeUp ==>
                  Step(r, Main(collect)) ==
                  s.(mustSend := true, called := false, main := Waiting, pending := s.pending + 1,
                     latch := s.latch || s.pending == 0, inKernel := s.inKernel || (s.pending == 0 && !s.latch)))
  {
  }

  /** The monitor's callback has run by the end of a dispatch if and only if it had before, or the notification was
      dispatched with a call pending; then no call is pending, and the next one notifies the kernel again. */
  lemma DispatchCalls(s: System, collect: bool)
    requires s.main == Dispatching
    ensures var r := Step(s, Main(collect));
            && (r.called <==> s.called || (s.inBatch && s.pending > 0))
            && (s.inBatch ==> r.pending == 0 && !r.latch && !r.inBatch)
            && (!s.inBatch ==> r == s.(main := Deciding))
  {
  }
}
