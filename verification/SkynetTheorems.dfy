/** What holds of every Skynet run, for every depth and every interleaving. */
module SkynetTheorems {

  import opened Wrappers
  import opened SkynetModel
  import opened SkynetInvariant
  import opened SkynetProofs
  import opened SkynetRanges

  lemma Starts(s: State)
    requires Started(s)
    ensures Inv(s) && Sum(Steps, s.nodes, s.maxDepth, 1) == TreeSteps(s.maxDepth)
  {
    assert s.nodes[0].job == Ready;
    assert Sum(Slots, s.nodes, s.maxDepth, 0) == 0 && Sum(Steps, s.nodes, s.maxDepth, 0) == 0;
    assert NodeCount(0) == 1 && TreeSteps(0) == 3;
    hide NodeCount, TreeSteps, Value, Partial, PowerOfTen;
    assert NodeOk(s, 0);
  }

  lemma InitialAdvances(s: State, n: nat)
    requires Inv(s) && Enabled(s, Initial(n))
    ensures Advances(s, RunInitial(s, n))
  {
    var x := s.nodes[n];
    hide Inv, Advances, RunInitial;
    match x.job {
      case Ready =>
        JobBound(s, n);
        if x.depth == s.maxDepth { LeafRuns(s, n); } else { ClaimsRange(s, n); }
      case Claimed => PreparesChildren(s, n);
      case Prepared => SpawnsChildren(s, n);
      case Completing =>
        if x.parent.None? { RootLeafEnds(s, n); } else { DecreasesInitial(s, n); }
      case Resuming => WakesInitial(s, n);
      case _ =>
    }
  }

  lemma JobBound(s: State, n: nat)
    requires Inv(s) && n < |s.nodes| && s.nodes[n].job == Ready
    ensures s.nodes[n].depth <= s.maxDepth
  {
    Part(s, n);
    LocalOf(s, n);
  }

  lemma DecreaseForm(s: State, n: nat, p: nat)
    requires n < |s.nodes| && s.nodes[n].parent == Some(p) && p < |s.nodes| && p != n && s.nodes[p].pending >= 1
    ensures s.nodes[n].job == Completing ==> RunInitial(s, n) == Decrease(s, p, n)
    ensures s.nodes[n].job != Completing && s.nodes[n].continuation == Finishing ==>
            RunContinued(s, n) == Decrease(s, p, n)
  {
    hide Fill, SpawnChildren, Wake;
  }

  lemma AwakeForm(s: State, n: nat, p: nat)
    requires n < |s.nodes| && s.nodes[n].parent == Some(p) && p < |s.nodes| && p != n && s.nodes[p].continuation == Idle
    ensures s.nodes[n].job == Resuming ==> RunInitial(s, n) == Awake(s, p, n)
    ensures s.nodes[n].job != Resuming && s.nodes[n].continuation == Waking ==> RunContinued(s, n) == Awake(s, p, n)
  {
    hide Fill, SpawnChildren, Decrement;
  }

  lemma DecreasesInitial(s: State, n: nat)
    requires Inv(s) && n < |s.nodes| && s.nodes[n].job == Completing && s.nodes[n].parent.Some?
    ensures Advances(s, RunInitial(s, n))
  {
    hide Inv, Advances, RunInitial, Decrease;
    Decreases(s, n);
    DecreaseForm(s, n, s.nodes[n].parent.value);
  }

  lemma WakesInitial(s: State, n: nat)
    requires Inv(s) && n < |s.nodes| && s.nodes[n].job == Resuming
    ensures Advances(s, RunInitial(s, n))
  {
    hide Inv, Advances, RunInitial, Awake, ChildrenDone;
    Wakes(s, n);
    AwakeForm(s, n, s.nodes[n].parent.value);
  }

  lemma DecreasesContinued(s: State, n: nat)
    requires Inv(s) && n < |s.nodes| && s.nodes[n].continuation == Finishing && s.nodes[n].parent.Some?
    ensures Advances(s, RunContinued(s, n))
  {
    hide Inv, Advances, RunContinued, Decrease, NodeOk;
    Continuing(s, n);
    Decreases(s, n);
    DecreaseForm(s, n, s.nodes[n].parent.value);
  }

  lemma WakesContinued(s: State, n: nat)
    requires Inv(s) && n < |s.nodes| && s.nodes[n].continuation == Waking
    ensures Advances(s, RunContinued(s, n))
  {
    hide Inv, Advances, RunContinued, Awake, ChildrenDone, NodeOk;
    Continuing(s, n);
    Wakes(s, n);
    AwakeForm(s, n, s.nodes[n].parent.value);
  }

  lemma FinishingHasParent(s: State, n: nat)
    requires Inv(s) && n < |s.nodes| && s.nodes[n].continuation == Finishing
    ensures s.nodes[n].parent.Some?
  {
    Continuing(s, n);
    LocalOf(s, n);
    hide Inv, NodeOk, Value, Partial, PowerOfTen, UpOk, DownOk, PendingOk;
  }

  lemma ContinuedAdvances(s: State, n: nat)
    requires Inv(s) && Enabled(s, Continued(n))
    ensures Advances(s, RunContinued(s, n))
  {
    var x := s.nodes[n];
    hide Inv, Advances, RunContinued;
    match x.continuation {
      case Queued => Begins(s, n);
      case Summing(k) => Reading(s, n, k);
      case Finishing =>
        FinishingHasParent(s, n);
        DecreasesContinued(s, n);
      case Waking => WakesContinued(s, n);
      case _ =>
    }
  }

  /** Every step that a thread can take keeps the invariant and leaves fewer steps to take. */
  lemma StepAdvances(s: State, a: Actor)
    requires Inv(s) && Enabled(s, a)
    ensures Advances(s, Step(s, a))
  {
    hide Inv, Advances, RunInitial, RunContinued;
    match a {
      case Initial(n) => InitialAdvances(s, n);
      case Continued(n) => ContinuedAdvances(s, n);
    }
  }

  function StepsLeft(s: State): int
  {
    if s.nextNode <= |s.nodes| then Sum(Steps, s.nodes, s.maxDepth, s.nextNode) else 0
  }

  lemma WeightNotNegative(x: Node, i: nat, depth: nat)
    requires LocalOk(x, depth) || x == RAW
    ensures Weight(Steps, x, i, depth) >= 0
  {
    hide Value, Partial, PowerOfTen;
    if x.depth < depth {
      assert TreeSteps(depth - x.depth) >= 17;
    }
  }

  lemma {:induction false} SumNotNegative(s: State, k: nat)
    requires Inv(s) && k <= s.nextNode
    ensures k <= |s.nodes| && Sum(Steps, s.nodes, s.maxDepth, k) >= 0
    decreases k
  {
    hide Inv, Weight, LocalOk;
    InBounds(s);
    if k > 0 {
      NodeLocal(s, k - 1);
      WeightNotNegative(s.nodes[k - 1], k - 1, s.maxDepth);
      SumNotNegative(s, k - 1);
    }
  }

  lemma NodeLocal(s: State, i: nat)
    requires Inv(s) && i < s.nextNode
    ensures i < |s.nodes| && (LocalOk(s.nodes[i], s.maxDepth) || s.nodes[i] == RAW)
  {
    hide LocalOk, UpOk, DownOk, PendingOk, Disjoint, Counted;
  }

  lemma {:induction false} RunKeeps(s: State, schedule: seq<Actor>)
    requires Inv(s) && Schedulable(s, schedule)
    ensures var r := Run(s, schedule);
            Inv(r) && r.maxDepth == s.maxDepth && StepsLeft(r) + |schedule| <= StepsLeft(s)
    decreases |schedule|
  {
    hide Inv, Sum, Enabled;
    if schedule != [] {
      StepAdvances(s, schedule[0]);
      InBounds(Step(s, schedule[0]));
      hide Step;
      RunKeeps(Step(s, schedule[0]), schedule[1..]);
    }
  }

  lemma InBounds(s: State)
    requires Inv(s)
    ensures s.nextNode <= |s.nodes|
  {
  }

  lemma RunInvariant(s: State, schedule: seq<Actor>)
    requires Started(s) && Schedulable(s, schedule)
    ensures var r := Run(s, schedule);
            Inv(r) && r.maxDepth == s.maxDepth && StepsLeft(r) + |schedule| <= TreeSteps(s.maxDepth)
  {
    Starts(s);
    hide Inv, Started, Run, TreeSteps, Sum;
    RunKeeps(s, schedule);
  }

  /** Every run is finite: no schedule is longer than the steps of the whole tree. */
  lemma RunsAreFinite(s: State, schedule: seq<Actor>)
    requires Started(s) && Schedulable(s, schedule)
    ensures |schedule| <= TreeSteps(s.maxDepth)
  {
    RunInvariant(s, schedule);
    var r := Run(s, schedule);
    hide Run, Inv, Started, TreeSteps, Sum;
    InBounds(r);
    SumNotNegative(r, r.nextNode);
  }

  // ------------------------------------------------------------------ Safety

  /** In every reachable state: no job has failed; no two nodes have claimed the same slot, and none a slot
      outside the array; each continuation has been spawned at most once, and only with its counter at zero. */
  lemma SafeClaims(s: State, schedule: seq<Actor>, p: nat, q: nat)
    requires Started(s) && Schedulable(s, schedule) && p < |Run(s, schedule).nodes| && q < |Run(s, schedule).nodes| &&
             p != q
    requires HasRange(Run(s, schedule).nodes[p], s.maxDepth)
    ensures var r := Run(s, schedule);
            && r.failed == 0 && r.nextNode <= |r.nodes| == NodeCount(s.maxDepth)
            && r.nodes[p].firstChild + FAN <= |r.nodes|
            && (HasRange(r.nodes[q], s.maxDepth) ==> Apart(r.nodes[p], r.nodes[q]))
            && r.nodes[p].spawns <= 1 && (r.nodes[p].spawns == 1 ==> r.nodes[p].pending == 0)
  {
    RunInvariant(s, schedule);
    var r := Run(s, schedule);
    hide Run, Started, NodeCount, TreeSteps, Families, Disjoint, Counted;
    RangeInside(r, p);
    if HasRange(r.nodes[q], s.maxDepth) {
      RangeInside(r, q);
      Separate(r, p, q);
    }
  }

  lemma RangeInside(s: State, p: nat)
    requires Inv(s) && p < |s.nodes| && HasRange(s.nodes[p], s.maxDepth)
    ensures p < s.nextNode && s.nodes[p].firstChild + FAN <= s.nextNode <= |s.nodes|
    ensures s.nodes[p].spawns <= 1 && (s.nodes[p].spawns == 1 ==> s.nodes[p].pending == 0)
  {
    assert s.nodes[p] != RAW;
    assert NodeOk(s, p);
    LocalOf(s, p);
    hide Inv, NodeOk, UpOk, PendingOk, Value, Partial, PowerOfTen;
  }

  lemma Separate(s: State, p: nat, q: nat)
    requires Inv(s) && p < s.nextNode && q < s.nextNode && p != q
    requires HasRange(s.nodes[p], s.maxDepth) && HasRange(s.nodes[q], s.maxDepth)
    ensures Apart(s.nodes[p], s.nodes[q])
  {
    hide Families, Counted, NodeCount;
  }

  /** The result of the node will not change any more. */
  predicate Final(x: Node, depth: nat)
  {
    x.job == Completing || x.job == Resuming || (x.depth >= depth && x.job == Finished)
    || x.continuation == Finishing || x.continuation == Waking || x.continuation == Over
  }

  /** It is the sum of the numbers of the leaves below the node. */
  predicate HoldsSum(x: Node, depth: nat)
  {
    x.depth <= depth && x.result == Value(x.base, PowerOfTen(depth - x.depth))
  }

  /** A continuation runs only when all ten children have told their parent, with final results;
      and a node that is final holds the sum of the numbers of the leaves below it. */
  lemma ResultsAreFinal(s: State, schedule: seq<Actor>, n: nat, k: nat)
    requires Started(s) && Schedulable(s, schedule) && n < |Run(s, schedule).nodes| && k < FAN
    ensures var r := Run(s, schedule);
            && (r.nodes[n].continuation != Idle ==> FinalChild(r, n, k))
            && (Final(r.nodes[n], s.maxDepth) ==> HoldsSum(r.nodes[n], s.maxDepth))
  {
    hide Run, Started, Inv, FinalChild, Final, HoldsSum, Schedulable, TreeSteps, Sum;
    RunInvariant(s, schedule);
    var r := Run(s, schedule);
    if r.nodes[n].continuation != Idle {
      ChildIsFinal(r, n, k);
    }
    if Final(r.nodes[n], s.maxDepth) {
      FinalValue(r, n);
    }
  }

  lemma FinalValue(s: State, n: nat)
    requires Inv(s) && n < |s.nodes| && Final(s.nodes[n], s.maxDepth)
    ensures HoldsSum(s.nodes[n], s.maxDepth)
  {
    assert s.nodes[n] != RAW;
    assert NodeOk(s, n);
    LocalOf(s, n);
    assert PowerOfTen(0) == 1;
    hide Inv, NodeOk, UpOk, DownOk, PendingOk, Value, Partial;
  }

  // ------------------------------------------------------------------ What a run ends with

  /** No thread has anything left to do. */
  ghost predicate Quiescent(s: State)
  {
    forall a: Actor :: !Enabled(s, a)
  }

  lemma QuietJobs(s: State, n: nat)
    requires Quiescent(s) && n < |s.nodes|
    ensures s.nodes[n].job == Unspawned || s.nodes[n].job == Finished
    ensures s.nodes[n].continuation == Idle || s.nodes[n].continuation == Over
  {
    assert !Enabled(s, Initial(n)) && !Enabled(s, Continued(n));
  }

  lemma {:induction false} CountAll(nodes: seq<Node>, depth: nat, first: nat, k: nat)
    requires first + k <= |nodes| && forall i :: first <= i < first + k ==> Done(nodes[i], depth)
    ensures DoneCount(nodes, depth, first, k) == k
  {
    if k > 0 {
      CountAll(nodes, depth, first, k - 1);
    }
  }

  /** At rest every node that was spawned has told its parent. */
  lemma {:induction false} RestDone(s: State, n: nat)
    requires Inv(s) && Quiescent(s) && n < |s.nodes| && s.nodes[n].job != Unspawned
    ensures Done(s.nodes[n], s.maxDepth)
    decreases s.maxDepth - s.nodes[n].depth
  {
    Part(s, n);
    QuietJobs(s, n);
    if s.nodes[n].depth < s.maxDepth {
      Family(s, n);
      LocalOf(s, n);
      hide Inv, Quiescent, NodeOk, LocalOk, Done;
      var x := s.nodes[n];
      forall j | InRange(x, j) ensures Done(s.nodes[j], s.maxDepth) && !Owes(s.nodes[j]) {
        assert UpOk(s, j);
        QuietJobs(s, j);
        RestDone(s, j);
      }
      CountAll(s.nodes, s.maxDepth, x.firstChild, FAN);
      assert x.continuation != Idle;
      assert Done(x, s.maxDepth) by { OverIsDone(x, s.maxDepth); }
    }
  }

  lemma OverIsDone(x: Node, depth: nat)
    requires x.depth < depth && x.continuation == Over
    ensures Done(x, depth)
  {
  }

  /** At rest the whole tree has been built, and every node has been spawned. */
  lemma RestFilled(s: State, n: nat)
    requires Inv(s) && Quiescent(s) && n < s.nextNode
    ensures n < |s.nodes| && Filled(s, n) && s.nodes[n].job == Finished
  {
    InBounds(s);
    QuietJobs(s, n);
    if !Filled(s, n) {
      assert Reserved(s, n) by { hide NodeOk; }
      var p :| 0 <= p < s.nextNode && s.nodes[p].job == Claimed && s.nodes[p].depth < s.maxDepth &&
          InRange(s.nodes[p], n);
      QuietJobs(s, p);
      assert false;
    } else if s.nodes[n].job == Unspawned {
      RestSpawned(s, n);
    }
  }

  lemma RestSpawned(s: State, n: nat)
    requires Inv(s) && Quiescent(s) && n < s.nextNode && Filled(s, n)
    ensures n < |s.nodes| && s.nodes[n].job != Unspawned
  {
    InBounds(s);
    assert NodeOk(s, n) by { hide NodeOk, Disjoint, Counted; }
    LocalOf(s, n);
    hide Inv, NodeOk, LocalOk, DownOk, PendingOk, PowerOfTen, Quiescent;
    if s.nodes[n].parent.Some? {
      QuietJobs(s, s.nodes[n].parent.value);
    }
  }

  lemma RestWeight(x: Node, i: nat, depth: nat)
    requires x.job == Finished && (i == 0 || x.parent.Some?)
    ensures Weight(Slots, x, i, depth) == 1
  {
  }

  lemma {:induction false} RestSum(s: State, k: nat)
    requires Inv(s) && Quiescent(s) && k <= s.nextNode
    ensures k <= |s.nodes| && Sum(Slots, s.nodes, s.maxDepth, k) == k
    decreases k
  {
    hide Inv, Weight, Quiescent;
    InBounds(s);
    if k > 0 {
      RestFilled(s, k - 1);
      RestWeight(s.nodes[k - 1], k - 1, s.maxDepth);
      RestSum(s, k - 1);
    }
  }

  /** What a finished run leaves in a node. */
  predicate Complete(x: Node, depth: nat)
  {
    && HoldsSum(x, depth) && Done(x, depth) && x.job == Finished
    && x.spawns == (if x.depth < depth then 1 else 0)
  }

  lemma RestComplete(s: State, n: nat)
    requires Inv(s) && Quiescent(s) && n < s.nextNode
    ensures n < |s.nodes| && Complete(s.nodes[n], s.maxDepth)
  {
    RestFilled(s, n);
    RestDone(s, n);
    QuietJobs(s, n);
    Part(s, n);
    LocalOf(s, n);
    var x := s.nodes[n];
    assert Final(x, s.maxDepth) by { hide Inv, NodeOk, LocalOk, Quiescent; }
    assert x.spawns == (if x.depth < s.maxDepth then 1 else 0)
           by { hide Inv, NodeOk, Value, Partial, PowerOfTen, Quiescent; }
    hide Inv, NodeOk, LocalOk, Quiescent, Final, HoldsSum;
    FinalValue(s, n);
  }

  /** The whole tree has been built, the continuation of each interior node has been spawned exactly once,
      and the root holds the sum of the numbers of all leaves. */
  ghost predicate Correct(s: State)
  {
    var leaves := PowerOfTen(s.maxDepth);
    && s.failed == 0 && s.nextNode == |s.nodes| == NodeCount(s.maxDepth)
    && (forall n :: 0 <= n < |s.nodes| ==> Complete(s.nodes[n], s.maxDepth))
    && s.nodes[0].result == leaves * (leaves - 1) / 2
  }

  lemma RestNodes(s: State)
    requires Inv(s) && Quiescent(s)
    ensures s.failed == 0 && s.nextNode == |s.nodes| == NodeCount(s.maxDepth)
    ensures forall n :: 0 <= n < |s.nodes| ==> Complete(s.nodes[n], s.maxDepth)
  {
    RestSlots(s);
    hide Inv, Complete, Quiescent, NodeCount;
    forall n | 0 <= n < |s.nodes| ensures Complete(s.nodes[n], s.maxDepth) {
      RestComplete(s, n);
    }
  }

  lemma RestSlots(s: State)
    requires Inv(s) && Quiescent(s)
    ensures s.failed == 0 && s.nextNode == |s.nodes| == NodeCount(s.maxDepth)
  {
    hide Quiescent, NodeCount, Sum, Families, Disjoint;
    RestSum(s, s.nextNode);
  }

  lemma RestCorrect(s: State)
    requires Inv(s) && Quiescent(s)
    ensures Correct(s)
  {
    hide Inv, Complete, Quiescent, NodeCount, PowerOfTen;
    RestNodes(s);
    RootNode(s);
    RootValue(s.nodes[0], s.maxDepth);
  }

  /** For every depth and every interleaving, a run that has nothing left to do is correct. */
  lemma RunsAreCorrect(s: State, schedule: seq<Actor>)
    requires Started(s) && Schedulable(s, schedule) && Quiescent(Run(s, schedule))
    ensures Correct(Run(s, schedule)) && Run(s, schedule).maxDepth == s.maxDepth
  {
    hide Run, Started, Schedulable, Inv, Quiescent, Correct, TreeSteps, Sum;
    RunInvariant(s, schedule);
    RestCorrect(Run(s, schedule));
  }

  lemma RootNode(s: State)
    requires Inv(s)
    ensures |s.nodes| > 0 && s.nodes[0].depth == 0 && s.nodes[0].base == 0
  {
    assert NodeOk(s, 0);
    LocalOf(s, 0);
    hide Inv, NodeOk, LocalOk, DownOk, PendingOk, PowerOfTen;
  }

  lemma RootValue(x: Node, depth: nat)
    requires Complete(x, depth) && x.depth == 0 && x.base == 0
    ensures x.result == PowerOfTen(depth) * (PowerOfTen(depth) - 1) / 2
  {
    hide PowerOfTen;
    assert PowerOfTen(depth) * 0 == 0;
  }

  // ------------------------------------------------------------------ Errors

  /** The slots that the node has claimed do not all exist. */
  predicate Overclaimed(s: State, n: nat)
    requires n < |s.nodes|
  {
    s.nodes[n].firstChild + FAN > |s.nodes|
  }

  predicate HasParent(s: State, n: nat)
    requires n < |s.nodes|
  {
    s.nodes[n].parent.Some? && s.nodes[n].parent.value < |s.nodes|
  }

  /** Some parent has no counter left for this completion, or a continuation that is not idle. */
  predicate Refused(s: State, n: nat, waking: bool)
    requires n < |s.nodes|
  {
    s.nodes[n].parent.Some? &&
    (HasParent(s, n) ==>
       var p := s.nodes[s.nodes[n].parent.value]; if waking then p.continuation != Idle else p.pending <= 0)
  }

  predicate GoesWrong(s: State, a: Actor)
    requires a.node < |s.nodes|
  {
    var x := s.nodes[a.node];
    match a
    case Initial(n) =>
      (x.job in {Claimed, Prepared} && Overclaimed(s, n)) || (x.job == Completing && Refused(s, n, false)) ||
      (x.job == Resuming && Refused(s, n, true))
    case Continued(n) =>
      (x.continuation.Summing? && x.continuation.k != FAN && x.firstChild + x.continuation.k >= |s.nodes|) ||
      (x.continuation == Finishing && Refused(s, n, false)) || (x.continuation == Waking && Refused(s, n, true))
  }

  /** Nothing has been spawned. */
  predicate SpawnsNothing(s: State, r: State)
  {
    |r.nodes| == |s.nodes| && forall j :: 0 <= j < |s.nodes| ==>
      r.nodes[j].spawns == s.nodes[j].spawns && (r.nodes[j].job == Ready ==> s.nodes[j].job == Ready)
  }

  lemma InitialErrors(s: State, n: nat)
    requires Enabled(s, Initial(n))
    ensures var r := RunInitial(s, n);
            && r.failed == s.failed + (if GoesWrong(s, Initial(n)) then 1 else 0)
            && (GoesWrong(s, Initial(n)) ==> SpawnsNothing(s, r) && r.nodes[n].job == Finished)
  {
    hide PowerOfTen, ChildNode;
  }

  lemma ContinuedErrors(s: State, n: nat)
    requires Enabled(s, Continued(n))
    ensures var r := RunContinued(s, n);
            && r.failed == s.failed + (if GoesWrong(s, Continued(n)) then 1 else 0)
            && (GoesWrong(s, Continued(n)) ==> SpawnsNothing(s, r) && r.nodes[n].continuation == Over)
  {
  }

  /** In every state, also one that no run reaches: a step records one error if and only if it finds something wrong. It
      then spawns nothing, and the job that has failed is over. */
  lemma ErrorsExact(s: State, a: Actor)
    requires Enabled(s, a)
    ensures var r := Step(s, a);
            && r.failed == s.failed + (if GoesWrong(s, a) then 1 else 0)
            && (GoesWrong(s, a) ==>
                  && SpawnsNothing(s, r)
                  && match a case Initial(n) => r.nodes[n].job == Finished
                             case Continued(n) => r.nodes[n].continuation == Over)
  {
    hide RunInitial, RunContinued, GoesWrong;
    match a
    case Initial(n) => InitialErrors(s, n);
    case Continued(n) => ContinuedErrors(s, n);
  }
}
