/** Wake-ups of the event loop from any thread: a counter per wake-up, one latch that coalesces kernel
    notifications, and the loop's dispatch; a run is any interleaving of their atomic steps. All wake-ups are
    active when a dispatch begins and their callbacks always reactivate them. */
module WakeUps {

  /** `calls` and `delivered` are history: the wakeUp calls since start, and the counts given to callbacks. */
  datatype WakeUp = WakeUp(coalesce: bool, pending: nat, calls: nat, delivered: nat)

  /** A thread has raised a counter from zero, or has won the latch and owes the kernel a notification. */
  datatype Thread = Idle | Raised(wake: nat) | Signalling

  /** The loop sleeps until it is notified; it clears the latch, then visits the wake-ups in order. After a
      callback it looks at the counter again, and takes the latch if the counter is not zero. */
  datatype Loop = Sleeping | Clearing | Visiting(k: nat) | Checking(k: nat) | Rearming(k: nat) | Notifying(k: nat)

  datatype System = System(wakes: seq<WakeUp>, threads: seq<Thread>, latch: bool, notified: nat, loop: Loop)

  datatype Action =
    | Call(thread: nat, wake: nat)  // a thread begins wakeUp
    | Go(thread: nat)               // it goes on
    | Turn                          // the loop goes on

  function SetWake(s: System, w: nat, x: WakeUp): System
    requires w < |s.wakes|
  {
    s.(wakes := s.wakes[w := x])
  }

  function SetThread(s: System, t: nat, x: Thread): System
    requires t < |s.threads|
  {
    s.(threads := s.threads[t := x])
  }

  /** What consumePendingWakeUps takes: everything, or one. */
  function Consumed(x: WakeUp): nat
  {
    if x.coalesce then x.pending else if x.pending > 0 then 1 else 0
  }

  predicate Enabled(s: System, a: Action)
  {
    match a
    case Call(t, w) => t < |s.threads| && s.threads[t] == Idle && w < |s.wakes|
    case Go(t) => t < |s.threads| && s.threads[t] != Idle
    case Turn => s.loop == Sleeping ==> s.notified > 0
  }

  function RunLoop(s: System): System
  {
    match s.loop
    case Sleeping => s.(notified := 0, loop := Clearing)
    case Clearing => s.(latch := false, loop := Visiting(0))
    case Visiting(k) =>
      if k >= |s.wakes| then s.(loop := Sleeping)
      else
        var x := s.wakes[k];
        var d := Consumed(x);
        SetWake(s, k, x.(pending := x.pending - d, delivered := x.delivered + d)).(
          loop := if d > 0 then Checking(k) else Visiting(k + 1))
    case Checking(k) =>
      s.(loop := if k < |s.wakes| && s.wakes[k].pending > 0 then Rearming(k) else Visiting(k + 1))
    case Rearming(k) => s.(latch := true, loop := if s.latch then Visiting(k + 1) else Notifying(k))
    case Notifying(k) => s.(notified := s.notified + 1, loop := Visiting(k + 1))
  }

  function Step(s: System, a: Action): System
  {
    if !Enabled(s, a) then s
    else match a
      case Call(t, w) =>
        var x := s.wakes[w];
        var s1 := SetWake(s, w, x.(pending := x.pending + 1, calls := x.calls + 1));
        if x.pending == 0 then SetThread(s1, t, Raised(w)) else s1
      case Go(t) =>
        if s.threads[t].Raised? then SetThread(s, t, if s.latch then Idle else Signalling).(latch := true)
        else SetThread(s, t, Idle).(notified := s.notified + 1)
      case Turn => RunLoop(s)
  }

  function Run(s: System, actions: seq<Action>): System
    decreases |actions|
  {
    if actions == [] then s else Run(Step(s, actions[0]), actions[1..])
  }

  predicate Initial(s: System)
  {
    && (forall w :: 0 <= w < |s.wakes| ==>
          s.wakes[w].pending == 0 && s.wakes[w].calls == 0 && s.wakes[w].delivered == 0)
    && (forall t :: 0 <= t < |s.threads| ==> s.threads[t] == Idle)
    && !s.latch && s.notified == 0 && s.loop == Sleeping
  }

  // ------------------------------------------------------------------ The invariant

  /** The current dispatch has still to look at wake-up w. */
  predicate Covers(loop: Loop, w: nat)
  {
    match loop
    case Sleeping => false
    case Clearing => true
    case Visiting(k) => k <= w
    case Checking(k) => k <= w
    case Rearming(k) => k <= w
    case Notifying(k) => k < w
  }

  /** Some thread is between its increment of wake-up w and its turn at the latch. */
  ghost predicate HasRaised(s: System, w: nat)
  {
    exists t :: 0 <= t < |s.threads| && s.threads[t] == Raised(w)
  }

  /** Whoever has set the latch has notified the kernel or is about to, or the loop is about to clear it. */
  ghost predicate LatchServed(s: System)
  {
    || s.notified > 0 || s.loop == Clearing || s.loop.Notifying?
    || exists t :: 0 <= t < |s.threads| && s.threads[t] == Signalling
  }

  ghost predicate Inv(s: System)
  {
    && (forall w :: 0 <= w < |s.wakes| ==>
          && s.wakes[w].delivered + s.wakes[w].pending == s.wakes[w].calls
          && (s.wakes[w].pending > 0 ==> s.latch || Covers(s.loop, w) || HasRaised(s, w)))
    && (s.latch ==> LatchServed(s))
    && (s.loop.Notifying? ==> s.latch)
    && (s.loop.Rearming? || s.loop.Checking? || s.loop.Notifying? ==> s.loop.k < |s.wakes|)
  }

  // ------------------------------------------------------------------ Every step keeps it

  lemma RaisedKeeps(s: System, s': System, t: nat, w: nat)
    requires t < |s.threads| == |s'.threads| && s'.threads == s.threads[t := s'.threads[t]]
    requires HasRaised(s, w) && s.threads[t] != Raised(w)
    ensures HasRaised(s', w)
  {
    var u :| 0 <= u < |s.threads| && s.threads[u] == Raised(w);
    assert s'.threads[u] == Raised(w);
  }

  lemma ServedKeeps(s: System, s': System, t: nat)
    requires t < |s.threads| == |s'.threads| && s'.threads == s.threads[t := s'.threads[t]]
    requires LatchServed(s) && (s.threads[t] == Signalling ==> s'.threads[t] == Signalling || s'.notified > 0)
    requires s'.notified >= s.notified && s'.loop == s.loop
    ensures LatchServed(s')
  {
    if u :| 0 <= u < |s.threads| && s.threads[u] == Signalling {
      assert u != t ==> s'.threads[u] == Signalling;
      assert s'.threads[t] == Signalling || u != t || s'.notified > 0;
    }
  }

  lemma CallKeeps(s: System, t: nat, w: nat)
    requires Inv(s) && Enabled(s, Call(t, w))
    ensures Inv(Step(s, Call(t, w)))
  {
    var s' := Step(s, Call(t, w));
    assert s'.threads == s.threads[t := s'.threads[t]];
    if s.latch { ServedKeeps(s, s', t); }
    forall v | 0 <= v < |s.wakes| && s'.wakes[v].pending > 0
        ensures s'.latch || Covers(s'.loop, v) || HasRaised(s', v) {
      if v == w && s.wakes[w].pending == 0 {
        assert s'.threads[t] == Raised(w);
      } else if HasRaised(s, v) {
        RaisedKeeps(s, s', t, v);
      }
    }
  }

  lemma GoKeeps(s: System, t: nat)
    requires Inv(s) && Enabled(s, Go(t))
    ensures Inv(Step(s, Go(t)))
  {
    var s' := Step(s, Go(t));
    assert s'.threads == s.threads[t := s'.threads[t]];
    if s.latch {
      ServedKeeps(s, s', t);
    } else if s'.latch {
      assert s'.threads[t] == Signalling;
    }
    forall v | 0 <= v < |s.wakes| && s'.wakes[v].pending > 0
        ensures s'.latch || Covers(s'.loop, v) || HasRaised(s', v) {
      if !s'.latch && HasRaised(s, v) {
        RaisedKeeps(s, s', t, v);
      }
    }
  }

  lemma TurnKeeps(s: System)
    requires Inv(s) && Enabled(s, Turn)
    ensures Inv(RunLoop(s))
  {
    var s' := RunLoop(s);
    assert s'.threads == s.threads;
    forall v | 0 <= v < |s.wakes| && s'.wakes[v].pending > 0
        ensures s'.latch || Covers(s'.loop, v) || HasRaised(s', v) {
      assert s.wakes[v].pending > 0;
      if HasRaised(s, v) {
        var u :| 0 <= u < |s.threads| && s.threads[u] == Raised(v);
        assert s'.threads[u] == Raised(v);
      }
    }
    if s'.latch && s.latch {
      if u :| 0 <= u < |s.threads| && s.threads[u] == Signalling {
        assert s'.threads[u] == Signalling;
      }
    }
  }

  lemma {:induction false} RunKeeps(s: System, actions: seq<Action>)
    requires Inv(s)
    ensures Inv(Run(s, actions))
    decreases |actions|
  {
    if actions != [] {
      var a := actions[0];
      if Enabled(s, a) {
        match a {
          case Call(t, w) => CallKeeps(s, t, w);
          case Go(t) => GoKeeps(s, t);
          case Turn => TurnKeeps(s);
        }
      }
      hide Inv, Step, Enabled;
      RunKeeps(Step(s, a), actions[1..]);
    }
  }

  // ------------------------------------------------------------------ What holds of every run

  /** No call is lost or counted twice: what callbacks have been told and what is still pending are the calls. */
  lemma Conservation(s: System, actions: seq<Action>, w: nat)
    requires Initial(s) && w < |Run(s, actions).wakes|
    ensures var r := Run(s, actions); r.wakes[w].delivered + r.wakes[w].pending == r.wakes[w].calls
  {
    RunKeeps(s, actions);
    hide Run;
  }

  /** A pending wake-up is covered: by the latch, by the dispatch under way, or by a thread that is about to take
      the latch; and a latch that is set is covered by a notification of the kernel. */
  lemma NoLostWakeUp(s: System, actions: seq<Action>, w: nat)
    requires Initial(s) && w < |Run(s, actions).wakes|
    ensures var r := Run(s, actions);
            && (r.wakes[w].pending > 0 ==> r.latch || Covers(r.loop, w) || HasRaised(r, w))
            && (r.latch ==> LatchServed(r))
  {
    RunKeeps(s, actions);
    hide Run;
  }

  /** Only new calls can happen. */
  ghost predicate Quiescent(s: System)
  {
    !Enabled(s, Turn) && forall t :: !Enabled(s, Go(t))
  }

  /** When neither the loop nor any thread has anything to do, every call has been delivered. */
  lemma EverythingDelivered(s: System, actions: seq<Action>, w: nat)
    requires Initial(s) && w < |Run(s, actions).wakes| && Quiescent(Run(s, actions))
    ensures var r := Run(s, actions); r.wakes[w].pending == 0 && r.wakes[w].delivered == r.wakes[w].calls
  {
    RunKeeps(s, actions);
    var r := Run(s, actions);
    hide Run;
    assert forall t :: 0 <= t < |r.threads| ==> r.threads[t] == Idle by {
      forall t | 0 <= t < |r.threads| ensures r.threads[t] == Idle { assert !Enabled(r, Go(t)); }
    }
  }

  // ------------------------------------------------------------------ What a dispatch delivers

  /** The loop goes on until it sleeps, and nobody else does anything. */
  function Dispatched(s: System, n: nat): System
    decreases n
  {
    if n == 0 || s.loop == Sleeping then s else Dispatched(RunLoop(s), n - 1)
  }

  /** How many steps a dispatch has still to take. */
  function ToSleep(loop: Loop, count: nat): nat
  {
    match loop
    case Sleeping => 0
    case Clearing => 4 * count + 2
    case Visiting(k) => if k >= count then 1 else 4 * (count - k) + 1
    case Checking(k) => if k >= count then 4 else 4 * (count - k)
    case Rearming(k) => if k >= count then 3 else 4 * (count - k) - 1
    case Notifying(k) => if k >= count then 2 else 4 * (count - k) - 2
  }

  /** What the callback of a wake-up is told when the dispatch comes to it: all calls, or one of them. */
  function Told(x: WakeUp): WakeUp
  {
    var all := if x.coalesce || x.pending == 0 then x.pending else 1;
    x.(pending := x.pending - all, delivered := x.delivered + all)
  }

  /** The dispatch has still to come to wake-up w. */
  predicate Ahead(loop: Loop, w: nat)
  {
    || loop == Clearing || (loop.Visiting? && loop.k <= w)
    || ((loop.Checking? || loop.Rearming? || loop.Notifying?) && loop.k < w)
  }

  lemma {:induction false} DispatchOf(s: System, n: nat, w: nat)
    requires Inv(s) && w < |s.wakes| && ToSleep(s.loop, |s.wakes|) <= n
    ensures var r := Dispatched(s, n);
            && r.loop == Sleeping && |r.wakes| == |s.wakes| && r.threads == s.threads
            && r.wakes[w] == (if Ahead(s.loop, w) then Told(s.wakes[w]) else s.wakes[w])
    decreases n
  {
    if n > 0 && s.loop != Sleeping {
      TurnKeeps(s);
      TurnTells(s, w);
      hide Inv, RunLoop, Told, Ahead, ToSleep;
      DispatchOf(RunLoop(s), n - 1, w);
    }
  }

  lemma TurnTells(s: System, w: nat)
    requires Inv(s) && w < |s.wakes| && s.loop != Sleeping
    ensures var s' := RunLoop(s);
            && |s'.wakes| == |s.wakes| && s'.threads == s.threads
            && ToSleep(s'.loop, |s.wakes|) < ToSleep(s.loop, |s.wakes|)
            && if Ahead(s.loop, w) && !Ahead(s'.loop, w) then s'.wakes[w] == Told(s.wakes[w])
               else s'.wakes[w] == s.wakes[w] && (Ahead(s'.loop, w) ==> Ahead(s.loop, w))
  {
  }

  /** A dispatch that nobody disturbs comes to an end, and each wake-up is told once: of all its calls if they are
      coalesced, and of one otherwise. */
  lemma DispatchDelivers(s: System, actions: seq<Action>, w: nat)
    requires Initial(s) && w < |Run(s, actions).wakes| && Run(s, actions).loop == Clearing
    ensures var r := Run(s, actions);
            var r' := Dispatched(r, 4 * |r.wakes| + 2);
            && r'.loop == Sleeping && |r'.wakes| == |r.wakes|
            && r'.wakes[w].pending ==
               (if r.wakes[w].coalesce || r.wakes[w].pending == 0 then 0 else r.wakes[w].pending - 1)
            && r'.wakes[w].delivered == r.wakes[w].delivered + (r.wakes[w].pending - r'.wakes[w].pending)
            && r'.wakes[w].calls == r.wakes[w].calls
  {
    RunKeeps(s, actions);
    var r := Run(s, actions);
    hide Run, Inv, Dispatched;
    DispatchOf(r, 4 * |r.wakes| + 2, w);
  }

  // ------------------------------------------------------------------ Who notifies the kernel

  /** Some wake-up from number k on will still have calls after its callback. */
  ghost predicate Remains(s: System, k: nat)
  {
    exists w :: k <= w < |s.wakes| && Told(s.wakes[w]).pending > 0
  }

  /** The dispatch will notify the kernel, so that another one follows. */
  ghost predicate WillNotify(s: System)
  {
    match s.loop
    case Sleeping => false
    case Clearing => Remains(s, 0)
    case Visiting(k) => !s.latch && Remains(s, k)
    case Checking(k) => !s.latch && ((k < |s.wakes| && s.wakes[k].pending > 0) || Remains(s, k + 1))
    case Rearming(_) => !s.latch
    case Notifying(_) => true
  }

  lemma RemainsFrom(s: System, k: nat)
    ensures Remains(s, k) <==> (k < |s.wakes| && Told(s.wakes[k]).pending > 0) || Remains(s, k + 1)
  {
    hide Told;
    if k < |s.wakes| && Told(s.wakes[k]).pending > 0 {
      assert Remains(s, k);
    }
  }

  lemma RemainsSame(s: System, s': System, k: nat)
    requires |s'.wakes| == |s.wakes| && forall w :: k <= w < |s.wakes| ==> s'.wakes[w] == s.wakes[w]
    ensures Remains(s', k) == Remains(s, k)
  {
    hide Told;
  }

  lemma TurnNotifies(s: System)
    requires Inv(s) && s.loop != Sleeping
    ensures var s' := RunLoop(s);
            && s'.notified + (if WillNotify(s') then 1 else 0) == s.notified + (if WillNotify(s) then 1 else 0)
            && (s.loop != Clearing && s.latch ==> s'.latch)
            && (WillNotify(s) ==> WillNotify(s') || s'.latch) &&
                  (s'.latch ==> WillNotify(s) || (s.latch && s.loop != Clearing))
  {
    var s' := RunLoop(s);
    match s.loop {
      case Clearing => RemainsSame(s, s', 0);
      case Visiting(k) =>
        RemainsFrom(s, k);
        RemainsSame(s, s', k + 1);
      case Checking(k) => RemainsSame(s, s', k + 1);
      case Rearming(k) =>
      case Notifying(k) =>
    }
    hide Remains, Inv;
  }

  lemma {:induction false} DispatchNotifies(s: System, n: nat)
    requires Inv(s) && ToSleep(s.loop, |s.wakes|) <= n
    ensures var r := Dispatched(s, n);
            && r.notified == s.notified + (if WillNotify(s) then 1 else 0)
            && r.latch == (WillNotify(s) || (s.latch && s.loop != Clearing))
    decreases n
  {
    if n > 0 && s.loop != Sleeping {
      TurnKeeps(s);
      TurnNotifies(s);
      TurnAdvances(s);
      hide Inv, RunLoop, WillNotify, ToSleep;
      DispatchNotifies(RunLoop(s), n - 1);
    }
  }

  lemma TurnAdvances(s: System)
    requires Inv(s) && s.loop != Sleeping
    ensures |RunLoop(s).wakes| == |s.wakes| && ToSleep(RunLoop(s).loop, |s.wakes|) < ToSleep(s.loop, |s.wakes|)
    ensures RunLoop(s).loop != Clearing
  {
  }

  /** The loop takes all notifications at once, and an undisturbed dispatch leaves one behind, with the latch, if and
      only if some wake-up has still calls to be told of: otherwise the loop sleeps on. */
  lemma RearmsExactly(s: System, actions: seq<Action>)
    requires Initial(s) && Run(s, actions).loop == Sleeping && Run(s, actions).notified > 0
    ensures var r := Run(s, actions);
            var r1 := Step(r, Turn);
            var r' := Dispatched(r1, 4 * |r.wakes| + 2);
            && r1.loop == Clearing && r1.notified == 0 && r1.wakes == r.wakes
            && r'.notified ==
               (if exists w :: 0 <= w < |r.wakes| && !r.wakes[w].coalesce && r.wakes[w].pending > 1 then 1 else 0)
            && r'.latch == (r'.notified > 0)
  {
    RunKeeps(s, actions);
    var r := Run(s, actions);
    hide Run;
    var r1 := Step(r, Turn);
    TurnKeeps(r);
    assert r1.loop == Clearing && r1.notified == 0 && r1.wakes == r.wakes;
    hide Inv, Dispatched;
    DispatchNotifies(r1, 4 * |r.wakes| + 2);
    assert Remains(r1, 0) <==> exists w :: 0 <= w < |r.wakes| && !r.wakes[w].coalesce && r.wakes[w].pending > 1 by {
      if w :| 0 <= w < |r.wakes| && !r.wakes[w].coalesce && r.wakes[w].pending > 1 {
        assert Told(r1.wakes[w]).pending > 0;
      }
    }
  }

  /** A thread that calls a wake-up, and that nobody disturbs, notifies the kernel if and only if the wake-up had no
      calls pending and nobody else has: all other calls are coalesced. */
  lemma NotifiesExactly(s: System, t: nat, w: nat)
    requires t < |s.threads| && s.threads[t] == Idle && w < |s.wakes|
    ensures var r := Step(Step(Step(s, Call(t, w)), Go(t)), Go(t));
            && r.threads == s.threads && |r.wakes| == |s.wakes| && r.wakes[w].pending == s.wakes[w].pending + 1
            && r.notified == s.notified + (if s.wakes[w].pending == 0 && !s.latch then 1 else 0)
            && r.latch == (s.latch || s.wakes[w].pending == 0)
            && (s.wakes[w].pending > 0 ==> Step(s, Call(t, w)).threads == s.threads)
  {
    var s1 := Step(s, Call(t, w));
    assert s.threads[t := Idle] == s.threads;
    var s2 := Step(s1, Go(t));
    assert s2.threads == s.threads || s2.threads == s.threads[t := Signalling];
  }

  /** What one visit does, in every state: it tells of all pending calls, or of one, and looks at the wake-up again if
      and only if it has told of any. Nothing else changes, and a sleeping loop stays asleep until it is notified. */
  lemma VisitsExactly(s: System)
    ensures s.loop == Sleeping ==> (Step(s, Turn) != s <==> s.notified > 0)
    ensures s.loop.Visiting? && s.loop.k < |s.wakes| ==>
              var k, r := s.loop.k, Step(s, Turn);
              var x, y := s.wakes[k], r.wakes[k];
              && r == s.(wakes := s.wakes[k := y], loop := if x.pending > 0 then Checking(k) else Visiting(k + 1))
              && y.delivered + y.pending == x.delivered + x.pending && y.calls == x.calls && y.coalesce == x.coalesce
              && y.pending == if x.coalesce || x.pending == 0 then 0 else x.pending - 1
  {
  }
}
