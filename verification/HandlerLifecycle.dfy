/** The process-wide signal handlers of growing stacks: a counter that is a readers-writer lock. Threads register
    while they need the handlers; an installer or closer takes the lock only when nobody is registered. A run is
    any interleaving of the threads' atomic steps, and the operating system may refuse any change of an action. */
module HandlerLifecycle {

  import opened Wrappers

  const CLOSING := -1

  datatype Pc =
    | Idle
    | Trying(expected: int)      // registerThreadHandler has read the counter
    | Checking                   // registered, about to look for complete process handlers
    | Active                     // past installHandler
    | Leaving                    // about to unregister
    | Installing(owner: nat)     // installProcessHandler holds the lock
    | SettingSegv(owner: nat) | SettingBus(owner: nat)
    | ClosingBus(owner: nat) | ClosingSegv(owner: nat) | Disowning(owner: nat)  // closeProcessHandler holds the lock
    | Releasing                  // about to store zero

  /** What a prototype records about the process handlers. */
  datatype Prototype = Prototype(owner: bool, segv: bool, bus: bool)

  datatype System = System(lifecycle: int, installed: Option<nat>, prototypes: seq<Prototype>, threads: seq<Pc>,
      failed: nat)

  datatype Request = Enter | Install(prototype: nat) | Close(prototype: nat)

  datatype Action =
    | Begin(thread: nat, request: Request)
    | Go(thread: nat, ok: bool)   // the outcome of a system call, or of a weak compare-and-swap

  function Put(s: System, t: nat, pc: Pc): System
    requires t < |s.threads|
  {
    s.(threads := s.threads[t := pc])
  }

  function Mark(s: System, p: nat, x: Prototype): System
    requires p < |s.prototypes|
  {
    s.(prototypes := s.prototypes[p := x])
  }

  predicate Enabled(s: System, a: Action)
  {
    match a
    case Begin(t, r) =>
      t < |s.threads| && s.threads[t] == Idle && (r.Enter? || r.prototype < |s.prototypes|)
    case Go(t, _) => t < |s.threads| && s.threads[t] != Idle
  }

  function Start(s: System, t: nat, r: Request): System
    requires t < |s.threads|
  {
    match r
    case Enter => Put(s, t, Trying(s.lifecycle))
    case Install(p) => if s.lifecycle == 0 then Put(s, t, Installing(p)).(lifecycle := CLOSING) else s
    case Close(p) =>
      if p < |s.prototypes| && s.prototypes[p].owner && s.lifecycle == 0
      then Put(s, t, ClosingBus(p)).(lifecycle := CLOSING)
      else s
  }

  function Continue(s: System, t: nat, ok: bool): System
    requires t < |s.threads|
  {
    match s.threads[t]
    case Idle => s
    case Trying(expected) =>
      if expected < 0 then Put(s, t, Idle)
      else if s.lifecycle == expected && ok then Put(s, t, Checking).(lifecycle := expected + 1)
      else Put(s, t, Trying(s.lifecycle))
    case Checking =>
      (match s.installed
       case Some(p) =>
         Put(s, t, if p < |s.prototypes| && s.prototypes[p].segv && s.prototypes[p].bus then Active else Leaving)
       case None => Put(s, t, Leaving))
    case Active => Put(s, t, Leaving)
    case Leaving =>
      Put(if s.lifecycle > 0 then s else s.(failed := s.failed + 1), t, Idle).(lifecycle := s.lifecycle - 1)
    case Installing(p) =>
      if s.installed.Some? || p >= |s.prototypes| then Put(s, t, Releasing)
      else Put(Mark(s, p, s.prototypes[p].(owner := true)), t, SettingSegv(p)).(installed := Some(p))
    case SettingSegv(p) =>
      if p >= |s.prototypes| then Put(s, t, Releasing)
      else if ok then Put(Mark(s, p, s.prototypes[p].(segv := true)), t, SettingBus(p))
      else Put(Mark(s, p, s.prototypes[p].(owner := false)), t, Releasing).(installed := None)
    case SettingBus(p) =>
      if p >= |s.prototypes| then Put(s, t, Releasing)
      else if ok then Put(Mark(s, p, s.prototypes[p].(bus := true)), t, Releasing)
      else Put(Mark(s, p, s.prototypes[p].(segv := false, owner := false)), t, Releasing).(installed := None)
    case ClosingBus(p) =>
      if p >= |s.prototypes| then Put(s, t, Releasing)
      else if !s.prototypes[p].bus then Put(s, t, ClosingSegv(p))
      else if ok then Put(Mark(s, p, s.prototypes[p].(bus := false)), t, ClosingSegv(p))
      else Put(s, t, Releasing)
    case ClosingSegv(p) =>
      if p >= |s.prototypes| then Put(s, t, Releasing)
      else if !s.prototypes[p].segv then Put(s, t, Disowning(p))
      else if ok then Put(Mark(s, p, s.prototypes[p].(segv := false)), t, Disowning(p))
      else Put(s, t, Releasing)
    case Disowning(p) =>
      if p < |s.prototypes| && s.installed == Some(p)
      then Put(Mark(s, p, s.prototypes[p].(owner := false)), t, Releasing).(installed := None)
      else Put(s, t, Releasing)
    case Releasing => Put(s, t, Idle).(lifecycle := 0)
  }

  function Step(s: System, a: Action): System
  {
    if !Enabled(s, a) then s
    else match a
      case Begin(t, r) => Start(s, t, r)
      case Go(t, ok) => Continue(s, t, ok)
  }

  function Run(s: System, actions: seq<Action>): System
    decreases |actions|
  {
    if actions == [] then s else Run(Step(s, actions[0]), actions[1..])
  }

  predicate Initial(s: System)
  {
    && s.lifecycle == 0 && s.installed.None? && s.failed == 0
    && (forall p :: 0 <= p < |s.prototypes| ==> s.prototypes[p] == Prototype(false, false, false))
    && (forall t :: 0 <= t < |s.threads| ==> s.threads[t] == Idle)
  }

  // ------------------------------------------------------------------ The invariant

  predicate Registered(pc: Pc)
  {
    pc == Checking || pc == Active || pc == Leaving
  }

  /** The thread holds the lock exclusively. */
  predicate Holds(pc: Pc)
  {
    pc.Installing? || pc.SettingSegv? || pc.SettingBus? || pc.ClosingBus? || pc.ClosingSegv? || pc.Disowning? ||
        pc == Releasing
  }

  function CountRegistered(threads: seq<Pc>): nat
  {
    if threads == [] then 0 else (if Registered(threads[0]) then 1 else 0) + CountRegistered(threads[1..])
  }

  function CountHolders(threads: seq<Pc>): nat
  {
    if threads == [] then 0 else (if Holds(threads[0]) then 1 else 0) + CountHolders(threads[1..])
  }

  predicate Complete(s: System)
  {
    s.installed.Some? && s.installed.value < |s.prototypes|
    && s.prototypes[s.installed.value].segv && s.prototypes[s.installed.value].bus
  }

  predicate Inv(s: System)
  {
    && CountHolders(s.threads) <= 1
    && s.lifecycle == (if CountHolders(s.threads) == 1 then CLOSING else CountRegistered(s.threads))
    && (CountHolders(s.threads) == 1 ==> CountRegistered(s.threads) == 0)
    && (forall t :: 0 <= t < |s.threads| && s.threads[t] == Active ==> Complete(s))
    && s.failed == 0
  }

  lemma {:induction false} CountsOne(threads: seq<Pc>, t: nat, pc: Pc)
    requires t < |threads|
    ensures CountRegistered(threads[t := pc]) + (if Registered(threads[t]) then 1 else 0)
         == CountRegistered(threads) + (if Registered(pc) then 1 else 0)
    ensures CountHolders(threads[t := pc]) + (if Holds(threads[t]) then 1 else 0)
         == CountHolders(threads) + (if Holds(pc) then 1 else 0)
  {
    if t == 0 {
      assert threads[0 := pc][1..] == threads[1..];
    } else {
      CountsOne(threads[1..], t - 1, pc);
      assert threads[t := pc][1..] == threads[1..][t - 1 := pc];
    }
  }

  lemma {:induction false} CountsIn(threads: seq<Pc>, t: nat)
    requires t < |threads|
    ensures Registered(threads[t]) ==> CountRegistered(threads) > 0
    ensures Holds(threads[t]) ==> CountHolders(threads) > 0
  {
    if t > 0 {
      CountsIn(threads[1..], t - 1);
    }
  }

  /** While a thread holds the lock no other is past installHandler. */
  lemma AloneInside(s: System, t: nat)
    requires Inv(s) && t < |s.threads| && Holds(s.threads[t])
    ensures forall u :: 0 <= u < |s.threads| ==> !Registered(s.threads[u])
    ensures s.lifecycle == CLOSING && CountRegistered(s.threads) == 0 && CountHolders(s.threads) == 1
  {
    CountsIn(s.threads, t);
    forall u | 0 <= u < |s.threads| ensures !Registered(s.threads[u]) {
      CountsIn(s.threads, u);
    }
  }

  lemma ContinueKeeps(s: System, t: nat, ok: bool)
    requires Inv(s) && t < |s.threads|
    ensures Inv(Continue(s, t, ok))
  {
    var s' := Continue(s, t, ok);
    assert s'.threads == s.threads[t := s'.threads[t]];
    CountsOne(s.threads, t, s'.threads[t]);
    CountsIn(s.threads, t);
    if Holds(s.threads[t]) {
      AloneInside(s, t);
      HolderKeeps(s, t, ok);
    }
    hide CountRegistered, CountHolders;
  }

  lemma HolderKeeps(s: System, t: nat, ok: bool)
    requires Inv(s) && t < |s.threads| && Holds(s.threads[t]) && s.lifecycle == CLOSING &&
             CountRegistered(s.threads) == 0
    requires forall u :: 0 <= u < |s.threads| ==> !Registered(s.threads[u])
    ensures Inv(Continue(s, t, ok))
  {
    CountsOne(s.threads, t, Continue(s, t, ok).threads[t]);
    hide CountRegistered, CountHolders;
  }

  lemma StartKeeps(s: System, t: nat, r: Request)
    requires Inv(s) && Enabled(s, Begin(t, r))
    ensures Inv(Start(s, t, r))
  {
    var s' := Start(s, t, r);
    assert s'.threads == s.threads[t := s'.threads[t]];
    CountsOne(s.threads, t, s'.threads[t]);
    hide CountRegistered, CountHolders;
  }

  lemma {:induction false} RunKeeps(s: System, actions: seq<Action>)
    requires Inv(s)
    ensures Inv(Run(s, actions))
    decreases |actions|
  {
    if actions != [] {
      var a := actions[0];
      if Enabled(s, a) {
        match a {
          case Begin(t, r) => StartKeeps(s, t, r);
          case Go(t, ok) => ContinueKeeps(s, t, ok);
        }
      }
      hide Inv, Start, Continue, Enabled;
      RunKeeps(Step(s, a), actions[1..]);
    }
  }

  lemma {:induction false} NoneCounted(threads: seq<Pc>)
    requires forall t :: 0 <= t < |threads| ==> threads[t] == Idle
    ensures CountRegistered(threads) == 0 && CountHolders(threads) == 0
  {
    if threads != [] {
      NoneCounted(threads[1..]);
    }
  }

  lemma RunInvariant(s: System, actions: seq<Action>)
    requires Initial(s)
    ensures Inv(Run(s, actions))
  {
    NoneCounted(s.threads);
    RunKeeps(s, actions);
  }

  // ------------------------------------------------------------------ What holds of every run

  /** The counter is -1 exactly while one thread installs or closes the process handlers, and otherwise the
      number of registered threads; its assertion never fails. */
  lemma CounterIsExact(s: System, actions: seq<Action>)
    requires Initial(s)
    ensures var r := Run(s, actions);
            && CountHolders(r.threads) <= 1 && r.failed == 0
            && (r.lifecycle == CLOSING <==> CountHolders(r.threads) == 1)
            && (r.lifecycle != CLOSING ==> r.lifecycle == CountRegistered(r.threads))
  {
    RunInvariant(s, actions);
    hide Run, CountHolders, CountRegistered;
  }

  /** A thread past installHandler sees both actions installed, and no step by anybody changes what is installed
      while a thread is registered. */
  lemma HandlersAreStable(s: System, actions: seq<Action>, t: nat, a: Action)
    requires Initial(s) && t < |Run(s, actions).threads| && Registered(Run(s, actions).threads[t])
    ensures var r := Run(s, actions);
            && (r.threads[t] == Active ==> Complete(r))
            && Step(r, a).installed == r.installed && Step(r, a).prototypes == r.prototypes
  {
    RunInvariant(s, actions);
    var r := Run(s, actions);
    CountsIn(r.threads, t);
    if a.Go? && a.thread < |r.threads| {
      CountsIn(r.threads, a.thread);
    }
    hide Run, CountHolders, CountRegistered;
  }

  // ------------------------------------------------------------------ What each operation achieves

  /** A thread goes on, with these outcomes, while the others stand still. */
  function Alone(s: System, t: nat, oks: seq<bool>): System
    decreases |oks|
  {
    if oks == [] then s else Alone(Step(s, Go(t, oks[0])), t, oks[1..])
  }

  lemma AloneTwo(s: System, t: nat, a: bool, b: bool)
    ensures Alone(s, t, [a, b]) == Step(Step(s, Go(t, a)), Go(t, b))
  {
    hide Step;
    assert [a, b][1..] == [b];
    assert Alone(Step(s, Go(t, a)), t, [b]) == Alone(Step(Step(s, Go(t, a)), Go(t, b)), t, []);
  }

  lemma AloneFour(s: System, t: nat, oks: seq<bool>)
    requires |oks| == 4
    ensures Alone(s, t, oks) == Step(Step(Step(Step(s, Go(t, oks[0])), Go(t, oks[1])), Go(t, oks[2])), Go(t, oks[3]))
  {
    hide Step;
    var s2 := Step(Step(s, Go(t, oks[0])), Go(t, oks[1]));
    AloneTwo(s2, t, oks[2], oks[3]);
    assert oks[1..][1..] == [oks[2], oks[3]];
    assert Alone(s, t, oks) == Alone(Step(s, Go(t, oks[0])), t, oks[1..]) == Alone(s2, t, oks[1..][1..]);
  }

  /** A thread that asks to be registered is, if and only if nobody holds the lock; it is told at once if somebody does,
      and tries again while the counter changes under it. */
  lemma RegistersExactly(s: System, t: nat)
    requires Inv(s) && t < |s.threads| && s.threads[t] == Idle
    ensures var s1 := Step(s, Begin(t, Enter));
            var s2 := Step(s1, Go(t, true));
            && |s2.threads| == |s.threads| && s2.installed == s.installed && s2.prototypes == s.prototypes
            && s2.threads[t] == (if CountHolders(s.threads) == 0 then Checking else Idle)
            && s2.lifecycle == s.lifecycle + (if CountHolders(s.threads) == 0 then 1 else 0)
  {
    hide CountHolders, CountRegistered;
  }

  lemma TriesAgain(s: System, t: nat, ok: bool)
    requires t < |s.threads| && s.threads[t].Trying? && s.threads[t].expected >= 0
    requires s.lifecycle != s.threads[t].expected || !ok
    ensures Step(s, Go(t, ok)) == s.(threads := s.threads[t := Trying(s.lifecycle)])
  {
  }

  /** A registered thread gets past installHandler if and only if both actions are installed; otherwise, and when it
      has done its work, it unregisters. */
  lemma ChecksExactly(s: System, t: nat, ok: bool)
    requires Inv(s) && t < |s.threads|
    ensures s.threads[t] == Checking ==>
              Step(s, Go(t, ok)) == s.(threads := s.threads[t := if Complete(s) then Active else Leaving])
    ensures s.threads[t] == Active ==> Step(s, Go(t, ok)) == s.(threads := s.threads[t := Leaving])
    ensures s.threads[t] == Leaving ==>
              s.lifecycle > 0 && Step(s, Go(t, ok)) == s.(threads := s.threads[t := Idle], lifecycle := s.lifecycle - 1)
  {
    CountsIn(s.threads, t);
    hide CountHolders, CountRegistered;
  }

  /** Unregistering asserts that the counter is positive, in every state. */
  lemma LeavesExactly(s: System, t: nat, ok: bool)
    requires t < |s.threads| && s.threads[t] == Leaving
    ensures var r := Step(s, Go(t, ok));
            && r.failed == s.failed + (if s.lifecycle > 0 then 0 else 1)
            && r == s.(failed := r.failed, threads := s.threads[t := Idle], lifecycle := s.lifecycle - 1)
  {
  }

  /** The lock is taken, to install or to close, if and only if nobody is registered and nobody holds it; only an owner
      closes. */
  lemma LocksExactly(s: System, t: nat, p: nat)
    requires Inv(s) && t < |s.threads| && s.threads[t] == Idle && p < |s.prototypes|
    ensures var free := CountRegistered(s.threads) == 0 && CountHolders(s.threads) == 0;
            && Step(s, Begin(t, Install(p))) ==
               (if free then s.(threads := s.threads[t := Installing(p)], lifecycle := CLOSING) else s)
            && Step(s, Begin(t, Close(p))) ==
               (if free && s.prototypes[p].owner
                then s.(threads := s.threads[t := ClosingBus(p)], lifecycle := CLOSING) else s)
  {
    hide CountHolders, CountRegistered;
  }

  /** What an installer leaves. With something installed, nothing changes. Otherwise both actions are set and recorded;
      or, when the system refuses one of them, everything is as it was before. */
  lemma InstallsOrRollsBack(s: System, t: nat, p: nat, oks: seq<bool>)
    requires t < |s.threads| && s.threads[t] == Installing(p) && p < |s.prototypes| && |oks| == 4
    requires s.installed.None? && s.prototypes[p] == Prototype(false, false, false)
    ensures var r := Alone(s, t, oks);
            && r.threads == s.threads[t := Idle] && r.lifecycle == 0
            && if oks[1] && oks[2] then
                 r.installed == Some(p) && r.prototypes == s.prototypes[p := Prototype(true, true, true)]
               else r.installed.None? && r.prototypes == s.prototypes
  {
    AloneFour(s, t, oks);
    hide Alone;
    var s1 := Step(s, Go(t, oks[0]));
    assert s1.prototypes == s.prototypes[p := Prototype(true, false, false)] && s1.threads[t] == SettingSegv(p);
    var s2 := Step(s1, Go(t, oks[1]));
    assert s.prototypes[p := s.prototypes[p]] == s.prototypes;
    assert s2.prototypes == if oks[1] then s.prototypes[p := Prototype(true, true, false)] else s.prototypes;
    var s3 := Step(s2, Go(t, oks[2]));
    hide Enabled;
  }

  lemma InstalledAlready(s: System, t: nat, p: nat, a: bool, b: bool)
    requires t < |s.threads| && s.threads[t] == Installing(p) && s.installed.Some?
    ensures Alone(s, t, [a, b]) == s.(threads := s.threads[t := Idle], lifecycle := 0)
  {
    AloneTwo(s, t, a, b);
    hide Alone;
  }

  /** What a closer leaves: nothing installed and nothing recorded; or, when the system refuses to take an action back,
      that action and all behind it as they were. What is not installed is not taken back: after a close that failed
      another one goes on where it stopped. */
  lemma ClosesOrKeeps(s: System, t: nat, p: nat, oks: seq<bool>)
    requires t < |s.threads| && s.threads[t] == ClosingBus(p) && |oks| == 4
    requires s.installed == Some(p) && p < |s.prototypes| && s.prototypes[p].owner
    ensures var r, x := Alone(s, t, oks), s.prototypes[p];
            && r.threads == s.threads[t := Idle] && r.lifecycle == 0
            && if (x.bus ==> oks[0]) && (x.segv ==> oks[1]) then
                 r.installed.None? && r.prototypes == s.prototypes[p := Prototype(false, false, false)]
               else r.installed == s.installed && r.prototypes == s.prototypes[p := x.(bus := x.bus && !oks[0])]
  {
    AloneFour(s, t, oks);
    hide Alone;
    var x := s.prototypes[p];
    assert s.prototypes[p := x] == s.prototypes;
    var s1 := Step(s, Go(t, oks[0]));
    assert s1.prototypes == s.prototypes[p := x.(bus := x.bus && !oks[0])];
    var s2 := Step(s1, Go(t, oks[1]));
    var s3 := Step(s2, Go(t, oks[2]));
    hide Enabled;
  }
}
