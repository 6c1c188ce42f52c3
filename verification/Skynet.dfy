/** The Skynet benchmark in place: the node array, the shared counters, and the loops of the source. */
module Skynet {

  import opened Wrappers
  import opened SkynetModel
  import opened SkynetInvariant
  import opened SkynetTheorems
  import SkynetProofs

  // ------------------------------------------------------------------ Machine widths

  const INT32_MAX := 0x7fff_ffff
  const UINT32 := 0x1_0000_0000
  const UINT64 := 0x1_0000_0000_0000_0000

  lemma {:induction false} PowersGrow(a: nat, b: nat)
    requires a <= b
    ensures PowerOfTen(a) <= PowerOfTen(b) && NodeCount(a) <= NodeCount(b)
    decreases b - a
  {
    if a < b {
      PowersGrow(a, b - 1);
      assert NodeCount(b) == 1 + FAN * NodeCount(b - 1);
    }
  }

  lemma PowerOfNine()
    ensures PowerOfTen(9) == 1_000_000_000 && NodeCount(9) == 1_111_111_111
  {
    assert PowerOfTen(3) == 1000;
    assert PowerOfTen(6) == 1_000_000;
    assert NodeCount(3) == 1111;
    assert NodeCount(6) == 1_111_111;
  }

  /** Up to depth 9 (the program accepts 6) the signed node index does not overflow and the sums fit in 64 bits. */
  lemma FitsMachine(depth: nat, level: nat)
    requires level <= depth <= 9
    ensures NodeCount(depth) <= INT32_MAX
    ensures var leaves := PowerOfTen(depth); leaves * (leaves - 1) / 2 < UINT64
    ensures forall b: nat :: b < PowerOfTen(depth) ==> Value(b, PowerOfTen(level)) < UINT64
  {
    PowersGrow(level, depth);
    PowersGrow(depth, 9);
    PowerOfNine();
    var leaves := PowerOfTen(depth);
    SmallProduct(leaves, leaves - 1);
    forall b: nat | b < leaves ensures Value(b, PowerOfTen(level)) < UINT64 {
      SmallProduct(PowerOfTen(level), b);
      SmallProduct(PowerOfTen(level), PowerOfTen(level) - 1);
    }
  }

  lemma SmallProduct(a: nat, b: nat)
    requires a <= 1_000_000_000 && b <= 1_000_000_000
    ensures a * b <= 1_000_000_000_000_000_000
  {
    MonotoneProduct(a, b, 1_000_000_000);
    MonotoneProduct(1_000_000_000, a, 1_000_000_000);
  }

  lemma MonotoneProduct(a: nat, b: nat, c: nat)
    requires b <= c
    ensures a * b <= a * c
  {
  }

  /** powerOfTen, in 64 bits. */
  method PowerOfTenLoop(exponent: nat) returns (value: nat)
    requires exponent <= 9
    ensures value == PowerOfTen(exponent) < UINT64
  {
    PowersGrow(exponent, 9);
    PowerOfNine();
    value := 1;
    var left := exponent;
    while left > 0
      invariant 0 <= left <= exponent && value * PowerOfTen(left) == PowerOfTen(exponent)
    {
      TimesTen(value, PowerOfTen(left - 1));
      value := value * 10;
      left := left - 1;
    }
  }

  lemma TimesTen(a: nat, b: nat)
    ensures a * (10 * b) == a * 10 * b
  {
  }

  /** nodeCountForDepth, in 32 bits. */
  method NodeCountForDepth(depth: nat) returns (count: nat)
    requires depth <= 9
    ensures count == NodeCount(depth) < UINT32
  {
    FitsMachine(depth, 0);
    count := 1;
    var level := 1;
    var current := 0;
    while current < depth
      invariant 0 <= current <= depth && level == PowerOfTen(current)
      invariant count == NodeCount(current)
    {
      NodeCountNext(current);
      level := level * 10;
      count := count + level;
      current := current + 1;
    }
  }

  /** One more level adds its leaves. */
  lemma {:induction false} NodeCountNext(depth: nat)
    ensures NodeCount(depth + 1) == NodeCount(depth) + PowerOfTen(depth + 1)
  {
    if depth > 0 {
      NodeCountNext(depth - 1);
    }
  }

  // ------------------------------------------------------------------ The ready queue

  /** The jobs and continuations that wait for a worker. */
  function Waiting(nodes: seq<Node>): nat
  {
    if nodes == [] then 0
    else
      (if nodes[0].job == Ready then 1 else 0) + (if nodes[0].continuation == Queued then 1 else 0)
      + Waiting(nodes[1..])
  }

  lemma {:induction false} WaitingBound(nodes: seq<Node>)
    requires forall i :: 0 <= i < |nodes| ==> nodes[i].job != Ready || nodes[i].continuation != Queued
    ensures Waiting(nodes) <= |nodes|
  {
    if nodes != [] {
      WaitingBound(nodes[1..]);
    }
  }

  /** What waits at once never exceeds the node count, which is the capacity of the ready queue. */
  lemma ReadyCapacity(s: State, schedule: seq<Actor>)
    requires Started(s) && Schedulable(s, schedule)
    ensures Waiting(Run(s, schedule).nodes) <= NodeCount(s.maxDepth)
  {
    hide Started, Schedulable, Run, NodeCount;
    RunInvariant(s, schedule);
    WaitsOnce(Run(s, schedule));
    WaitingBound(Run(s, schedule).nodes);
  }

  lemma WaitsOnce(s: State)
    requires Inv(s)
    ensures |s.nodes| == NodeCount(s.maxDepth)
    ensures forall i :: 0 <= i < |s.nodes| ==> s.nodes[i].job != Ready || s.nodes[i].continuation != Queued
  {
    hide NodeCount, Disjoint, Counted, UpOk, DownOk, PendingOk, Partial, Value, PowerOfTen;
  }

  // ------------------------------------------------------------------ In place

  class Runtime {
    const maxDepth: nat
    const nodes: array<Node>
    var nextNode: nat
    var failed: nat

    ghost function Snapshot(): State
      reads this, nodes
    {
      State(maxDepth, nodes[..], nextNode, failed)
    }

    constructor (depth: nat)
      requires depth <= 9
      ensures maxDepth == depth && nodes.Length == NodeCount(depth) && fresh(nodes)
    {
      var count := NodeCountForDepth(depth);
      maxDepth := depth;
      nodes := new Node[count](_ => RAW);
      nextNode, failed := 1, 0;
    }

    /** measure: the nodes are reset and the job of the root is spawned. */
    method Measure()
      requires nodes.Length == NodeCount(maxDepth)
      modifies this, nodes
      ensures Started(Snapshot())
    {
      nextNode, failed := 1, 0;
      var i := 0;
      while i < nodes.Length
        invariant 0 <= i <= nodes.Length && forall j :: 0 <= j < i ==> nodes[j] == RAW
        invariant nextNode == 1 && failed == 0
      {
        nodes[i] := RAW;
        i := i + 1;
      }
      nodes[0] := nodes[0].(job := Ready);
    }

    /** The loop that prepares the children of node n, in slots that the reset has left as they are. */
    method PrepareChildren(n: nat)
      requires n < nodes.Length && nodes[n].firstChild + FAN <= nodes.Length && nodes[n].depth < maxDepth <= 9
      requires forall j :: InRange(nodes[n], j) ==> nodes[j] == RAW && j != n
      modifies nodes
      ensures nodes[..] == Fill(old(Snapshot()), n, 0)
    {
      ghost var s := Snapshot();
      var x := nodes[n];
      var depthOffset := PowerOfTenLoop(maxDepth - x.depth - 1);
      var index := 0;
      while index < FAN
        invariant 0 <= index <= FAN
        invariant forall j :: 0 <= j < nodes.Length ==>
                    nodes[j] == if x.firstChild <= j < x.firstChild + index
                                then ChildNode(s, n, j - x.firstChild) else s.nodes[j]
      {
        var c := x.firstChild + index;
        assert nodes[c] == RAW;
        nodes[c] := nodes[c].(parent := Some(n), base := x.base + depthOffset * index, depth := x.depth + 1);
        index := index + 1;
      }
    }

    /** The loop of the continuation, when no other thread writes the results of the children. */
    method SumChildren(n: nat) returns (sum: nat)
      requires n < nodes.Length && nodes[n].firstChild + FAN <= nodes.Length && nodes[n].depth < maxDepth
      requires forall j: nat :: InRange(nodes[n], j) ==>
                 var m := PowerOfTen(maxDepth - nodes[n].depth - 1);
                 nodes[j].result == Value(nodes[n].base + m * (j - nodes[n].firstChild), m)
      ensures sum == Value(nodes[n].base, PowerOfTen(maxDepth - nodes[n].depth))
    {
      var x := nodes[n];
      ghost var m := PowerOfTen(maxDepth - x.depth - 1);
      assert PowerOfTen(maxDepth - x.depth) == 10 * m;
      SkynetProofs.TenChildren(x.base, m);
      hide Value, PowerOfTen, Partial;
      sum := 0;
      var k := 0;
      NextPartial(x.base, m, 0);
      while k < FAN
        invariant 0 <= k <= FAN && sum == Partial(x.base, m, k)
      {
        NextPartial(x.base, m, k);
        assert InRange(x, x.firstChild + k);
        sum := sum + nodes[x.firstChild + k].result;
        k := k + 1;
      }
    }

    static lemma NextPartial(b: nat, m: nat, k: nat)
      ensures Partial(b, m, 0) == 0 && Partial(b, m, k + 1) == Partial(b, m, k) + Value(b + m * k, m)
    {
    }
  }
}
