/** Every atomic step of a Skynet run keeps the invariant and uses up one of the steps left. */
module SkynetProofs {

  import opened Wrappers
  import opened SkynetModel
  import opened SkynetInvariant

  // ------------------------------------------------------------------ Sums

  lemma {:induction false} SumOne(m: Measure, nodes: seq<Node>, x: Node, depth: nat, n: nat, k: nat)
    requires n < |nodes| && k <= |nodes|
    ensures Sum(m, nodes[n := x], depth, k) ==
            Sum(m, nodes, depth, k) + (if n < k then Weight(m, x, n, depth) - Weight(m, nodes[n], n, depth) else 0)
    decreases k
  {
    if k > 0 {
      hide Weight;
      SumOne(m, nodes, x, depth, n, k - 1);
    }
  }

  lemma {:induction false} DoneSame(nodes: seq<Node>, nodes': seq<Node>, depth: nat, first: nat, k: nat)
    requires first + k <= |nodes| == |nodes'|
    requires forall i :: first <= i < first + k ==> Done(nodes[i], depth) == Done(nodes'[i], depth)
    ensures DoneCount(nodes', depth, first, k) == DoneCount(nodes, depth, first, k)
    decreases k
  {
    if k > 0 {
      hide Done;
      DoneSame(nodes, nodes', depth, first, k - 1);
    }
  }

  // ---------------------------------------------------------------- A step of one node that its family does not notice

  /** The node plays the same part for its parent and its children. */
  predicate SameRole(x: Node, x': Node, depth: nat)
  {
    && x'.parent == x.parent && x'.base == x.base && x'.depth == x.depth
    && x'.firstChild == x.firstChild && x'.pending == x.pending
    && (x.parent.Some? ==> Done(x, depth) == Done(x', depth))
    && Owes(x) == Owes(x')
    && (x.job == Unspawned <==> x'.job == Unspawned)
    && (x.depth < depth ==> x'.job == x.job)
    && (x.continuation == Idle <==> x'.continuation == Idle)
  }

  lemma QuietUp(s: State, n: nat, x: Node, i: nat)
    requires n < |s.nodes| && i < |s.nodes| && SameRole(s.nodes[n], x, s.maxDepth)
    requires UpOk(s, i)
    ensures UpOk(SetNode(s, n, x), i)
  {
    hide Done, HasRange;
  }

  lemma QuietDown(s: State, n: nat, x: Node, i: nat)
    requires n < |s.nodes| && i < |s.nodes| && SameRole(s.nodes[n], x, s.maxDepth) && DownOk(s, i)
    requires s.nodes[n].job != Unspawned
    requires n == i ==> LocalOk(x, s.maxDepth) && LocalOk(s.nodes[n], s.maxDepth)
    ensures DownOk(SetNode(s, n, x), i)
  {
    hide Done, Owes;
  }

  lemma QuietPending(s: State, n: nat, x: Node, i: nat)
    requires n < |s.nodes| && i < |s.nodes| && SameRole(s.nodes[n], x, s.maxDepth) && DownOk(s, i) && PendingOk(s, i)
    ensures PendingOk(SetNode(s, n, x), i)
  {
    var s' := SetNode(s, n, x);
    var y := s.nodes[i];
    hide Done, Owes;
    if Expanded(s'.nodes[i], s.maxDepth) && y.firstChild + FAN <= |s.nodes| {
      assert forall j :: InRange(y, j) ==> s.nodes[j].parent == Some(i) && Owes(s'.nodes[j]) == Owes(s.nodes[j]);
      DoneSame(s.nodes, s'.nodes, s.maxDepth, y.firstChild, FAN);
    }
  }

  lemma QuietNode(s: State, n: nat, x: Node, i: nat)
    requires n < |s.nodes| && i < |s.nodes| && SameRole(s.nodes[n], x, s.maxDepth) && LocalOk(x, s.maxDepth)
    requires NodeOk(s, i) && NodeOk(s, n) && s.nodes[n].job != Unspawned
    ensures NodeOk(SetNode(s, n, x), i)
  {
    hide UpOk, DownOk, PendingOk, LocalOk, SameRole;
    QuietUp(s, n, x, i);
    QuietDown(s, n, x, i);
    QuietPending(s, n, x, i);
  }

  lemma QuietFamilies(s: State, n: nat, x: Node)
    requires n < s.nextNode <= |s.nodes| && Families(s) && SameRole(s.nodes[n], x, s.maxDepth) && LocalOk(x, s.maxDepth)
    requires Filled(s, n) && s.nodes[n].job != Unspawned
    ensures Families(SetNode(s, n, x))
  {
    var s' := SetNode(s, n, x);
    assert NodeOk(s, n);
    hide NodeOk, LocalOk, Reserved;
    forall i | 0 <= i < s.nextNode
      ensures if Filled(s', i) then NodeOk(s', i) else s'.nodes[i] == RAW && Reserved(s', i)
    {
      if Filled(s, i) {
        QuietNode(s, n, x, i);
      } else {
        QuietReserved(s, n, x, i);
      }
    }
  }

  lemma QuietWeight(x: Node, x': Node, n: nat, depth: nat)
    requires SameRole(x, x', depth) && LocalOk(x, depth) && LocalOk(x', depth)
    ensures Weight(Slots, x', n, depth) == Weight(Slots, x, n, depth)
  {
    hide NodeCount, TreeSteps, Partial, PowerOfTen, Value;
  }

  lemma QuietBounds(s: State, n: nat, x: Node)
    requires Bounds(s) && n < s.nextNode
    ensures Bounds(SetNode(s, n, x))
  {
    hide NodeCount;
  }

  /** What every step does: it keeps the invariant, and leaves fewer steps to take. */
  ghost predicate Advances(s: State, s': State)
  {
    && Inv(s') && s'.maxDepth == s.maxDepth && s.nextNode <= |s.nodes|
    && Sum(Steps, s'.nodes, s'.maxDepth, s'.nextNode) < Sum(Steps, s.nodes, s.maxDepth, s.nextNode)
  }

  /** Such a step keeps the invariant. */
  lemma Quiet(s: State, n: nat, x: Node)
    requires Inv(s) && n < s.nextNode && Filled(s, n) && SameRole(s.nodes[n], x, s.maxDepth) && LocalOk(x, s.maxDepth)
    requires s.nodes[n].job != Unspawned
    requires Weight(Steps, x, n, s.maxDepth) < Weight(Steps, s.nodes[n], n, s.maxDepth)
    ensures Advances(s, SetNode(s, n, x))
  {
    assert LocalOk(s.nodes[n], s.maxDepth) by { assert NodeOk(s, n); }
    SumOne(Steps, s.nodes, x, s.maxDepth, n, s.nextNode);
    assert s.nextNode <= |s.nodes|;
    QuietCounted(s, n, x);
    hide Families, Disjoint, SameRole, LocalOk, Weight, Sum, Bounds, NodeCount, Counted;
    QuietBounds(s, n, x);
    QuietFamilies(s, n, x);
    QuietDisjoint(s, n, x);
  }

  lemma QuietCounted(s: State, n: nat, x: Node)
    requires n < s.nextNode <= |s.nodes| && SameRole(s.nodes[n], x, s.maxDepth)
    requires LocalOk(s.nodes[n], s.maxDepth) && LocalOk(x, s.maxDepth) && Counted(s)
    ensures Counted(SetNode(s, n, x))
  {
    hide SameRole, LocalOk, Weight, Sum, NodeCount;
    QuietWeight(s.nodes[n], x, n, s.maxDepth);
    SumOne(Slots, s.nodes, x, s.maxDepth, n, s.nextNode);
  }

  lemma QuietReserved(s: State, n: nat, x: Node, i: nat)
    requires n < |s.nodes| && s.nextNode <= |s.nodes| && SameRole(s.nodes[n], x, s.maxDepth) && Reserved(s, i)
    ensures Reserved(SetNode(s, n, x), i)
  {
    var p :| 0 <= p < s.nextNode && s.nodes[p].job == Claimed && s.nodes[p].depth < s.maxDepth &&
        InRange(s.nodes[p], i);
    var y := SetNode(s, n, x).nodes[p];
    assert y.job == Claimed && y.depth < s.maxDepth && InRange(y, i);
  }

  lemma QuietDisjoint(s: State, n: nat, x: Node)
    requires n < |s.nodes| && s.nextNode <= |s.nodes| && SameRole(s.nodes[n], x, s.maxDepth) && Disjoint(s)
    ensures Disjoint(SetNode(s, n, x))
  {
  }

  // ------------------------------------------------------------------ Arithmetic

  lemma {:induction false} EvenProduct(m: nat)
    ensures m * (m - 1) % 2 == 0 && 2 * (m * (m - 1) / 2) == m * (m - 1)
  {
    if m > 0 {
      EvenProduct(m - 1);
      assert m * (m - 1) == (m - 1) * (m - 2) + 2 * (m - 1);
    }
  }

  lemma TwiceValue(b: nat, m: nat)
    ensures 2 * Value(b, m) == 2 * (m * b) + m * (m - 1)
  {
    EvenProduct(m);
  }

  lemma Distribute(a: int, b: int, c: int)
    ensures a * (b + c) == a * b + a * c && (b + c) * a == b * a + c * a
  {
  }

  lemma TwiceShifted(b: nat, m: nat, j: nat)
    ensures 2 * Value(b + m * j, m) == 2 * (m * b + m * m * j) + m * (m - 1)
  {
    TwiceValue(b + m * j, m);
    Distribute(m, b, m * j);
    assert m * (m * j) == m * m * j;
  }

  /** Twice the sum of the first k results. */
  lemma {:induction false} TwicePartial(b: nat, m: nat, k: nat)
    ensures 2 * Partial(b, m, k) == 2 * (k * (m * b)) + m * m * (k * (k - 1)) + k * (m * (m - 1))
  {
    if k > 0 {
      hide Value;
      TwicePartial(b, m, k - 1);
      TwiceShifted(b, m, k - 1);
      TwiceNext(m * b, m * m, m * (m - 1), k - 1);
    }
  }

  lemma TwiceNext(a: int, q: int, w: int, j: int)
    ensures 2 * (j * a) + q * (j * (j - 1)) + j * w + (2 * (a + q * j) + w)
         == 2 * ((j + 1) * a) + q * ((j + 1) * j) + (j + 1) * w
  {
    Distribute(a, j, 1);
    Distribute(w, j, 1);
    assert (j + 1) * j == j * (j - 1) + 2 * j;
    Distribute(q, j * (j - 1), 2 * j);
    assert q * (2 * j) == 2 * (q * j);
  }

  /** The results of ten children that cover m leaves each are the value of a node that covers ten times as many. */
  lemma TenChildren(b: nat, m: nat)
    ensures Partial(b, m, FAN) == Value(b, 10 * m)
  {
    TwicePartial(b, m, 10);
    TwiceValue(b, 10 * m);
    assert 10 * m * b == 10 * (m * b);
    assert 10 * m * (10 * m - 1) == 100 * (m * m) - 10 * m;
    assert m * (m - 1) == m * m - m;
  }

  lemma ValueOfOne(b: nat)
    ensures Value(b, 1) == b
  {
  }

  // ------------------------------------------------------------------ Steps of one job

  /** Every node that has been spawned is part of the tree. */
  lemma Part(s: State, n: nat)
    requires Inv(s) && n < |s.nodes| && s.nodes[n].job != Unspawned
    ensures n < s.nextNode && Filled(s, n) && NodeOk(s, n)
  {
  }

  lemma LeafForm(x: Node, n: nat, depth: nat)
    requires x.job == Ready && x.depth == depth && LocalOk(x, depth) && (n == 0 || x.parent.Some?)
    ensures var x' := x.(result := x.base, job := Completing);
            && LocalOk(x', depth) && SameRole(x, x', depth) && Weight(Steps, x', n, depth) < Weight(Steps, x, n, depth)
  {
    ValueOfOne(x.base);
    hide Value, Partial, PowerOfTen;
  }

  lemma LeafRuns(s: State, n: nat)
    requires Inv(s) && n < |s.nodes| && s.nodes[n].job == Ready && s.nodes[n].depth == s.maxDepth
    ensures Advances(s, RunInitial(s, n))
  {
    Part(s, n);
    LocalOf(s, n);
    LeafForm(s.nodes[n], n, s.maxDepth);
    hide Inv, NodeOk, Advances, LocalOk, SameRole, Weight, UpOk, DownOk, PendingOk;
    Quiet(s, n, s.nodes[n].(result := s.nodes[n].base, job := Completing));
  }

  lemma LocalOf(s: State, n: nat)
    requires n < |s.nodes| && NodeOk(s, n)
    ensures LocalOk(s.nodes[n], s.maxDepth) && UpOk(s, n) && DownOk(s, n) && PendingOk(s, n)
  {
  }

  lemma RootLeafEnds(s: State, n: nat)
    requires Inv(s) && n < |s.nodes| && s.nodes[n].job == Completing && s.nodes[n].parent.None?
    ensures Advances(s, RunInitial(s, n))
  {
    Part(s, n);
    LocalOf(s, n);
    hide Inv, NodeOk, Advances;
    Quiet(s, n, s.nodes[n].(job := Finished));
  }

  /** A node whose continuation runs is an interior one. */
  lemma Continuing(s: State, n: nat)
    requires Inv(s) && n < |s.nodes| && s.nodes[n].continuation != Idle
    ensures n < s.nextNode && Filled(s, n) && NodeOk(s, n) && s.nodes[n].job == Finished &&
            s.nodes[n].depth < s.maxDepth
    ensures s.nodes[n].pending == 0 && s.nodes[n].firstChild + FAN <= s.nextNode <= |s.nodes|
  {
    assert s.nodes[n] != RAW;
    assert NodeOk(s, n);
    assert LocalOk(s.nodes[n], s.maxDepth) && DownOk(s, n);
  }

  lemma {:induction false} AllDone(nodes: seq<Node>, depth: nat, first: nat, k: nat, j: nat)
    requires first + k <= |nodes| && DoneCount(nodes, depth, first, k) == k && j < k
    ensures Done(nodes[first + j], depth)
  {
    if j < k - 1 {
      AllDone(nodes, depth, first, k - 1, j);
    }
  }

  /** Child k of node n has decremented its counter and its result is final. */
  ghost predicate FinalChild(s: State, n: nat, k: nat)
    requires n < |s.nodes|
  {
    var x := s.nodes[n];
    && x.depth < s.maxDepth && x.firstChild + k < |s.nodes| && Done(s.nodes[x.firstChild + k], s.maxDepth)
    && var m := PowerOfTen(s.maxDepth - x.depth - 1);
       s.nodes[x.firstChild + k].result == Value(x.base + m * k, m)
  }

  lemma DoneIsFinal(s: State, n: nat, k: nat)
    requires n < |s.nodes| && s.nodes[n].depth < s.maxDepth && s.nodes[n].firstChild + k < |s.nodes|
    requires var c := s.nodes[n].firstChild + k;
             s.nodes[c].parent == Some(n) && LocalOk(s.nodes[c], s.maxDepth) && UpOk(s, c) &&
                 Done(s.nodes[c], s.maxDepth)
    ensures FinalChild(s, n, k)
  {
    assert PowerOfTen(0) == 1;
    hide Value, Partial;
  }

  /** When a continuation runs, the results of all ten children are final. */
  lemma ChildIsFinal(s: State, n: nat, k: nat)
    requires Inv(s) && n < |s.nodes| && s.nodes[n].continuation != Idle && k < FAN
    ensures FinalChild(s, n, k)
  {
    Continuing(s, n);
    LocalOf(s, n);
    var c := s.nodes[n].firstChild + k;
    ChildIsDone(s, n, k);
    LocalOf(s, c);
    hide Inv, NodeOk, FinalChild, LocalOk, UpOk, Done;
    DoneIsFinal(s, n, k);
  }

  lemma ChildIsDone(s: State, n: nat, k: nat)
    requires Inv(s) && n < |s.nodes| && s.nodes[n].continuation != Idle && k < FAN
    ensures var c := s.nodes[n].firstChild + k;
            c < |s.nodes| && s.nodes[c].parent == Some(n) && Done(s.nodes[c], s.maxDepth) && NodeOk(s, c)
  {
    hide Inv, NodeOk, Done, DoneCount;
    Continuing(s, n);
    var c := s.nodes[n].firstChild + k;
    assert InRange(s.nodes[n], c);
    hide InRange;
    AllCounted(s, n, c);
    AllDone(s.nodes, s.maxDepth, s.nodes[n].firstChild, FAN, k);
    NodeOf(s, c);
  }

  lemma NodeOf(s: State, c: nat)
    requires Inv(s) && c < s.nextNode && c < |s.nodes| && Filled(s, c)
    ensures NodeOk(s, c)
  {
    hide NodeOk, Disjoint, Counted, Bounds;
  }

  lemma AllCounted(s: State, n: nat, c: nat)
    requires n < |s.nodes| && NodeOk(s, n) && s.nodes[n].job == Finished && s.nodes[n].depth < s.maxDepth
    requires s.nodes[n].pending == 0 && s.nodes[n].firstChild + FAN <= s.nextNode <= |s.nodes| && InRange(s.nodes[n], c)
    ensures DoneCount(s.nodes, s.maxDepth, s.nodes[n].firstChild, FAN) == FAN && s.nodes[c].parent == Some(n)
  {
    hide LocalOk, UpOk, Done, DoneCount;
  }

  /** The step of a continuation that reads, or that starts or stops reading. */
  function Reads(x: Node, k: nat, result: nat): Node
  {
    if k == FAN then x.(continuation := if x.parent.None? then Over else Finishing)
    else x.(result := x.result + result, continuation := Summing(k + 1))
  }

  /** What the continuation reads is the sum of the leaves of child k. */
  predicate ReadsValue(x: Node, depth: nat, k: nat, result: nat)
  {
    x.depth < depth && (k < FAN ==> var m := PowerOfTen(depth - x.depth - 1); result == Value(x.base + m * k, m))
  }

  lemma ReadForm(x: Node, n: nat, depth: nat, k: nat, result: nat)
    requires x.continuation == Summing(k) && LocalOk(x, depth) && (n == 0 || x.parent.Some?)
    requires ReadsValue(x, depth, k, result)
    ensures var x' := Reads(x, k, result);
            LocalOk(x', depth) && SameRole(x, x', depth) && Weight(Steps, x', n, depth) < Weight(Steps, x, n, depth)
  {
    var m := PowerOfTen(depth - x.depth - 1);
    assert Partial(x.base, m, k + 1) == Partial(x.base, m, k) + Value(x.base + m * k, m);
    TenChildren(x.base, m);
    assert PowerOfTen(depth - x.depth) == 10 * m;
    hide Value, Partial, PowerOfTen;
  }

  /** The result of the child that is read next. */
  function NextResult(s: State, n: nat, k: nat): nat
    requires n < |s.nodes|
  {
    if k < FAN && s.nodes[n].firstChild + k < |s.nodes| then s.nodes[s.nodes[n].firstChild + k].result else 0
  }

  lemma ReadingForm(s: State, n: nat, k: nat)
    requires n < |s.nodes| && s.nodes[n].continuation == Summing(k) && k <= FAN &&
             s.nodes[n].firstChild + FAN <= |s.nodes|
    ensures RunContinued(s, n) == SetNode(s, n, Reads(s.nodes[n], k, NextResult(s, n, k)))
  {
    hide Decrement, Wake;
  }

  lemma SummingBound(x: Node, depth: nat, k: nat)
    requires LocalOk(x, depth) && x.continuation == Summing(k)
    ensures k <= FAN
  {
    hide Partial, Value, PowerOfTen;
  }

  lemma ReadsFinal(s: State, n: nat, k: nat)
    requires Inv(s) && n < |s.nodes| && s.nodes[n].continuation == Summing(k)
    ensures k <= FAN && ReadsValue(s.nodes[n], s.maxDepth, k, NextResult(s, n, k))
  {
    hide Inv, NodeOk, UpOk, DownOk, PendingOk, Value, PowerOfTen, LocalOk, Done;
    Continuing(s, n);
    LocalOf(s, n);
    SummingBound(s.nodes[n], s.maxDepth, k);
    if k < FAN {
      ChildIsFinal(s, n, k);
    }
  }

  lemma Reading(s: State, n: nat, k: nat)
    requires Inv(s) && n < |s.nodes| && s.nodes[n].continuation == Summing(k)
    ensures Advances(s, RunContinued(s, n))
  {
    hide Inv, NodeOk, Advances, LocalOk, SameRole, Weight, UpOk, DownOk, PendingOk, NextResult, RunContinued;
    Continuing(s, n);
    LocalOf(s, n);
    ReadsFinal(s, n, k);
    ReadingForm(s, n, k);
    ReadForm(s.nodes[n], n, s.maxDepth, k, NextResult(s, n, k));
    hide Reads;
    Quiet(s, n, Reads(s.nodes[n], k, NextResult(s, n, k)));
  }

  lemma Begins(s: State, n: nat)
    requires Inv(s) && n < |s.nodes| && s.nodes[n].continuation == Queued
    ensures Advances(s, RunContinued(s, n))
  {
    var x := s.nodes[n];
    Continuing(s, n);
    LocalOf(s, n);
    BeginForm(x, n, s.maxDepth);
    hide Inv, NodeOk, Advances, LocalOk, SameRole, Weight, UpOk, DownOk, PendingOk;
    Quiet(s, n, x.(continuation := Summing(0)));
  }

  lemma BeginForm(x: Node, n: nat, depth: nat)
    requires x.continuation == Queued && x.depth < depth && LocalOk(x, depth) && (n == 0 || x.parent.Some?)
    ensures var x' := x.(continuation := Summing(0));
            LocalOk(x', depth) && SameRole(x, x', depth) && Weight(Steps, x', n, depth) < Weight(Steps, x, n, depth)
  {
    hide Value, PowerOfTen;
  }

  // ------------------------------------------------------------------ A child and its parent change together

  function SetTwo(s: State, p: nat, y: Node, n: nat, x: Node): State
    requires p < |s.nodes| && n < |s.nodes|
  {
    s.(nodes := s.nodes[p := y][n := x])
  }

  /** What no change of a child and its parent touches. */
  predicate SamePlace(x: Node, x': Node, depth: nat)
  {
    && x'.parent == x.parent && x'.base == x.base && x'.depth == x.depth && x'.firstChild == x.firstChild
    && (x.job == Unspawned <==> x'.job == Unspawned)
    && (x.depth < depth ==> x'.job == x.job)
    && x.job != Unspawned
  }

  lemma PairDown(s: State, p: nat, y: Node, n: nat, x: Node, i: nat)
    requires p < |s.nodes| && n < |s.nodes| && p != n && i < |s.nodes|
    requires SamePlace(s.nodes[p], y, s.maxDepth) && SamePlace(s.nodes[n], x, s.maxDepth) && DownOk(s, i)
    ensures DownOk(SetTwo(s, p, y, n, x), i)
  {
  }

  lemma PairReserved(s: State, p: nat, y: Node, n: nat, x: Node, i: nat)
    requires p < |s.nodes| && n < |s.nodes| && p != n && s.nextNode <= |s.nodes|
    requires SamePlace(s.nodes[p], y, s.maxDepth) && SamePlace(s.nodes[n], x, s.maxDepth) && Reserved(s, i)
    ensures Reserved(SetTwo(s, p, y, n, x), i)
  {
    var q :| 0 <= q < s.nextNode && s.nodes[q].job == Claimed && s.nodes[q].depth < s.maxDepth &&
        InRange(s.nodes[q], i);
    var z := SetTwo(s, p, y, n, x).nodes[q];
    assert z.job == Claimed && z.depth < s.maxDepth && InRange(z, i);
  }

  lemma PairDisjoint(s: State, p: nat, y: Node, n: nat, x: Node)
    requires p < |s.nodes| && n < |s.nodes| && p != n && s.nextNode <= |s.nodes|
    requires SamePlace(s.nodes[p], y, s.maxDepth) && SamePlace(s.nodes[n], x, s.maxDepth) && Disjoint(s)
    ensures Disjoint(SetTwo(s, p, y, n, x))
  {
  }

  lemma PairWeight(x: Node, x': Node, n: nat, depth: nat)
    requires SamePlace(x, x', depth) && LocalOk(x, depth) && LocalOk(x', depth)
    ensures Weight(Slots, x', n, depth) == Weight(Slots, x, n, depth)
  {
    hide NodeCount, TreeSteps, Partial, PowerOfTen, Value;
  }

  ghost predicate NodesOk(s: State)
    requires s.nextNode <= |s.nodes|
  {
    forall i :: 0 <= i < s.nextNode && Filled(s, i) ==> NodeOk(s, i)
  }

  lemma PairFamilies(s: State, p: nat, y: Node, n: nat, x: Node)
    requires p < s.nextNode <= |s.nodes| && n < s.nextNode && p != n && Families(s)
    requires SamePlace(s.nodes[p], y, s.maxDepth) && SamePlace(s.nodes[n], x, s.maxDepth)
    requires Filled(s, p) && Filled(s, n) && NodesOk(SetTwo(s, p, y, n, x))
    ensures Families(SetTwo(s, p, y, n, x))
  {
    var s' := SetTwo(s, p, y, n, x);
    hide NodeOk, Reserved, SamePlace, SetTwo;
    forall i | 0 <= i < s.nextNode
      ensures if Filled(s', i) then NodeOk(s', i) else s'.nodes[i] == RAW && Reserved(s', i)
    {
      PairPlace(s, p, y, n, x, i);
      if !Filled(s, i) {
        PairReserved(s, p, y, n, x, i);
      }
    }
  }

  lemma PairPlace(s: State, p: nat, y: Node, n: nat, x: Node, i: nat)
    requires p < |s.nodes| && n < |s.nodes| && p != n && i < |s.nodes|
    requires SamePlace(s.nodes[p], y, s.maxDepth) && SamePlace(s.nodes[n], x, s.maxDepth) && Filled(s, p) &&
             Filled(s, n)
    ensures var s' := SetTwo(s, p, y, n, x);
            && |s'.nodes| == |s.nodes| && s'.nextNode == s.nextNode && s'.maxDepth == s.maxDepth
            && Filled(s', i) == Filled(s, i) && (!Filled(s, i) ==> s'.nodes[i] == s.nodes[i])
  {
  }

  /** Such a pair of changes keeps the invariant if it keeps that of every node. */
  lemma Pair(s: State, p: nat, y: Node, n: nat, x: Node)
    requires Inv(s) && p < s.nextNode && n < s.nextNode && p != n && Filled(s, p) && Filled(s, n)
    requires SamePlace(s.nodes[p], y, s.maxDepth) && SamePlace(s.nodes[n], x, s.maxDepth)
    requires LocalOk(s.nodes[p], s.maxDepth) && LocalOk(s.nodes[n], s.maxDepth) && LocalOk(x, s.maxDepth) &&
             LocalOk(y, s.maxDepth)
    requires NodesOk(SetTwo(s, p, y, n, x))
    requires Weight(Steps, x, n, s.maxDepth) + Weight(Steps, y, p, s.maxDepth)
             < Weight(Steps, s.nodes[n], n, s.maxDepth) + Weight(Steps, s.nodes[p], p, s.maxDepth)
    ensures Advances(s, SetTwo(s, p, y, n, x))
  {
    hide Families, Disjoint, SamePlace, LocalOk, Weight, Sum, NodesOk, NodeCount;
    PairWeight(s.nodes[p], y, p, s.maxDepth);
    PairWeight(s.nodes[n], x, n, s.maxDepth);
    forall m: Measure
      ensures Sum(m, SetTwo(s, p, y, n, x).nodes, s.maxDepth, s.nextNode) ==
              Sum(m, s.nodes, s.maxDepth, s.nextNode)
              + Weight(m, x, n, s.maxDepth) - Weight(m, s.nodes[n], n, s.maxDepth)
              + Weight(m, y, p, s.maxDepth) - Weight(m, s.nodes[p], p, s.maxDepth)
    {
      SumOne(m, s.nodes, y, s.maxDepth, p, s.nextNode);
      SumOne(m, s.nodes[p := y], x, s.maxDepth, n, s.nextNode);
    }
    PairFamilies(s, p, y, n, x);
    PairDisjoint(s, p, y, n, x);
  }

  // ------------------------------------------------------------------ The decrement of the parent's counter

  lemma {:induction false} DoneOne(nodes: seq<Node>, nodes': seq<Node>, depth: nat, first: nat, k: nat, n: nat)
    requires first + k <= |nodes| == |nodes'| && first <= n < first + k
    requires forall i :: first <= i < first + k && i != n ==> Done(nodes[i], depth) == Done(nodes'[i], depth)
    requires !Done(nodes[n], depth) && Done(nodes'[n], depth)
    ensures DoneCount(nodes', depth, first, k) == DoneCount(nodes, depth, first, k) + 1
    decreases k
  {
    hide Done;
    if n == first + k - 1 {
      DoneSame(nodes, nodes', depth, first, k - 1);
    } else {
      DoneOne(nodes, nodes', depth, first, k - 1, n);
    }
  }

  /** The node after its decrement: the last one owes the continuation. */
  function Decremented(x: Node, last: bool): Node
  {
    if x.job == Completing then x.(job := if last then Resuming else Finished)
    else x.(continuation := if last then Waking else Over)
  }

  predicate Deciding(x: Node)
  {
    x.job == Completing || x.continuation == Finishing
  }

  function Decrease(s: State, p: nat, n: nat): State
    requires p < |s.nodes| && n < |s.nodes|
  {
    var y := s.nodes[p];
    SetTwo(s, p, y.(pending := y.pending - 1), n, Decremented(s.nodes[n], y.pending == 1))
  }

  lemma DecidingRole(x: Node, last: bool, depth: nat)
    requires LocalOk(x, depth) && Deciding(x)
    ensures var x' := Decremented(x, last);
            && SamePlace(x, x', depth) && LocalOk(x', depth) && !Done(x, depth) && Done(x', depth)
            && !Owes(x) && (Owes(x') <==> last) && (x.depth < depth ==> x.continuation == Finishing)
            && x'.pending == x.pending
  {
    hide Value, Partial, PowerOfTen;
  }

  /** The counter of a node with a child that has not decremented it is positive. */
  lemma PendingPositive(s: State, p: nat, n: nat)
    requires p < |s.nodes| && n < |s.nodes| && PendingOk(s, p) && DownOk(s, p) && Expanded(s.nodes[p], s.maxDepth)
    requires LocalOk(s.nodes[p], s.maxDepth)
    requires InRange(s.nodes[p], n) && !Done(s.nodes[n], s.maxDepth)
    ensures s.nodes[p].pending >= 1 && s.nodes[p].continuation == Idle
  {
    var x := s.nodes[p];
    if DoneCount(s.nodes, s.maxDepth, x.firstChild, FAN) == FAN {
      AllDone(s.nodes, s.maxDepth, x.firstChild, FAN, n - x.firstChild);
    }
    hide Done, DoneCount, Value, Partial, PowerOfTen;
  }

  lemma DecUp(s: State, p: nat, n: nat, i: nat)
    requires p < |s.nodes| && n < |s.nodes| && p != n && i < |s.nodes| && UpOk(s, i)
    requires s.nodes[p].pending >= 1 && s.nodes[p].continuation == Idle
    requires LocalOk(s.nodes[n], s.maxDepth) && Deciding(s.nodes[n]) && s.nodes[n].parent == Some(p)
    ensures UpOk(Decrease(s, p, n), i)
  {
    DecidingRole(s.nodes[n], s.nodes[p].pending == 1, s.maxDepth);
    hide LocalOk, PowerOfTen, Deciding, Done;
  }

  /** While the counter is positive no child owes the continuation. */
  lemma NobodyOwes(s: State, p: nat)
    requires p < |s.nodes| && DownOk(s, p) && Expanded(s.nodes[p], s.maxDepth) && s.nodes[p].pending >= 1
    requires forall j :: InRange(s.nodes[p], j) ==> UpOk(s, j)
    ensures forall j :: InRange(s.nodes[p], j) ==> !Owes(s.nodes[j])
  {
    hide PowerOfTen;
    forall j | InRange(s.nodes[p], j) ensures !Owes(s.nodes[j]) {
      assert UpOk(s, j) && s.nodes[j].parent == Some(p);
    }
  }

  /** One more child is done, and owes the continuation if it was the last. */
  lemma PendingFalls(s: State, s': State, p: nat, n: nat)
    requires p < |s.nodes| == |s'.nodes| && s'.maxDepth == s.maxDepth && n < |s.nodes|
    requires PendingOk(s, p) && Expanded(s.nodes[p], s.maxDepth) && InRange(s.nodes[p], n) && s.nodes[p].pending >= 1
    requires s'.nodes[p] == s.nodes[p].(pending := s.nodes[p].pending - 1)
    requires forall j :: InRange(s.nodes[p], j) && j < |s.nodes| && j != n ==> s'.nodes[j] == s.nodes[j]
    requires !Done(s.nodes[n], s.maxDepth) && Done(s'.nodes[n], s.maxDepth)
    requires forall j :: InRange(s.nodes[p], j) && j < |s.nodes| ==> !Owes(s.nodes[j])
    requires Owes(s'.nodes[n]) <==> s.nodes[p].pending == 1
    ensures PendingOk(s', p)
  {
    hide Done, Owes;
    if s.nodes[p].firstChild + FAN <= |s.nodes| {
      DoneOne(s.nodes, s'.nodes, s.maxDepth, s.nodes[p].firstChild, FAN, n);
    }
  }

  lemma DecPendingParent(s: State, p: nat, n: nat)
    requires p < |s.nodes| && n < |s.nodes| && p != n && PendingOk(s, p) && DownOk(s, p) &&
             Expanded(s.nodes[p], s.maxDepth)
    requires InRange(s.nodes[p], n) && s.nodes[p].pending >= 1
    requires forall j :: InRange(s.nodes[p], j) ==> UpOk(s, j)
    requires !InRange(s.nodes[p], p)
    requires LocalOk(s.nodes[n], s.maxDepth) && Deciding(s.nodes[n])
    ensures PendingOk(Decrease(s, p, n), p)
  {
    var s' := Decrease(s, p, n);
    var y := s.nodes[p];
    DecidingRole(s.nodes[n], y.pending == 1, s.maxDepth);
    hide LocalOk, PowerOfTen, Deciding, Decremented;
    assert forall j :: InRange(y, j) && j != n ==> s'.nodes[j] == s.nodes[j];
    NobodyOwes(s, p);
    hide UpOk, DownOk, PendingOk, Owes, Done;
    PendingFalls(s, s', p, n);
  }

  lemma DecPendingOther(s: State, p: nat, n: nat, i: nat)
    requires p < |s.nodes| && n < |s.nodes| && p != n && i < |s.nodes| && i != p && PendingOk(s, i) && DownOk(s, i)
    requires s.nodes[n].parent == Some(p) && LocalOk(s.nodes[n], s.maxDepth) && Deciding(s.nodes[n])
    requires SamePlace(s.nodes[p], s.nodes[p].(pending := 0), s.maxDepth)
    ensures PendingOk(Decrease(s, p, n), i)
  {
    var s' := Decrease(s, p, n);
    var x := s.nodes[i];
    DecidingRole(s.nodes[n], s.nodes[p].pending == 1, s.maxDepth);
    hide LocalOk, Deciding;
    if Expanded(x, s.maxDepth) && x.firstChild + FAN <= |s.nodes| {
      assert forall j :: InRange(x, j) ==> s.nodes[j].parent == Some(i) && j != n;
      assert forall j :: InRange(x, j) ==>
             Done(s'.nodes[j], s.maxDepth) == Done(s.nodes[j], s.maxDepth) && Owes(s'.nodes[j]) == Owes(s.nodes[j]);
      DoneSame(s.nodes, s'.nodes, s.maxDepth, x.firstChild, FAN);
    }
  }

  /** A child that is about to tell its parent, and the parent as it finds it. */
  ghost predicate Telling(s: State, p: nat, n: nat)
  {
    && p < s.nextNode <= |s.nodes| && n < s.nextNode && p != n && s.nodes[n].parent == Some(p) && Filled(s, p)
    && NodeOk(s, p) && NodeOk(s, n) && Expanded(s.nodes[p], s.maxDepth) && InRange(s.nodes[p], n) &&
       !InRange(s.nodes[p], p)
    && s.nodes[p].job == Finished
    && forall j :: InRange(s.nodes[p], j) ==> 0 <= j < |s.nodes| && UpOk(s, j)
  }

  lemma ChildTells(s: State, p: nat, n: nat)
    requires Inv(s) && n < |s.nodes| && s.nodes[n].parent == Some(p) && s.nodes[n].job != Unspawned
    ensures Telling(s, p, n)
  {
    Part(s, n);
    LocalOf(s, n);
    Family(s, p);
    hide Inv, NodeOk, DownOk, PendingOk, LocalOk;
  }

  lemma Family(s: State, p: nat)
    requires Inv(s) && p < s.nextNode && Filled(s, p) && Expanded(s.nodes[p], s.maxDepth)
    ensures NodeOk(s, p) && !InRange(s.nodes[p], p)
    ensures forall j :: InRange(s.nodes[p], j) ==> 0 <= j < |s.nodes| && UpOk(s, j)
  {
    LocalOf(s, p);
    var y := s.nodes[p];
    forall j | InRange(y, j) ensures 0 <= j < |s.nodes| && UpOk(s, j) && (j == p ==> false) {
      assert s.nodes[j].parent == Some(p);
      assert NodeOk(s, j) by { hide NodeOk; }
      LocalOf(s, j);
      hide Inv, NodeOk, DownOk, PendingOk, LocalOk;
    }
  }

  lemma DecNode(s: State, p: nat, n: nat, i: nat)
    requires Telling(s, p, n) && Deciding(s.nodes[n]) && i < |s.nodes| && NodeOk(s, i)
    requires s.nodes[p].pending >= 1 && s.nodes[p].continuation == Idle
    requires LocalOk(Decrease(s, p, n).nodes[i], s.maxDepth)
    ensures NodeOk(Decrease(s, p, n), i)
  {
    var s' := Decrease(s, p, n);
    LocalOf(s, p);
    LocalOf(s, n);
    LocalOf(s, i);
    DecidingRole(s.nodes[n], s.nodes[p].pending == 1, s.maxDepth);
    assert SamePlace(s.nodes[p], s'.nodes[p], s.maxDepth) &&
           SamePlace(s.nodes[p], s.nodes[p].(pending := 0), s.maxDepth);
    hide UpOk, DownOk, PendingOk, LocalOk, Decremented, Deciding, SamePlace, Done;
    PairDown(s, p, s'.nodes[p], n, s'.nodes[n], i);
    DecUp(s, p, n, i);
    if i == p {
      DecPendingParent(s, p, n);
    } else {
      DecPendingOther(s, p, n, i);
    }
  }

  lemma DecNodes(s: State, p: nat, n: nat)
    requires Inv(s) && Telling(s, p, n) && Deciding(s.nodes[n])
    ensures NodesOk(Decrease(s, p, n)) && s.nodes[p].pending >= 1 && s.nodes[p].continuation == Idle
  {
    var s' := Decrease(s, p, n);
    LocalOf(s, p);
    LocalOf(s, n);
    DecidingRole(s.nodes[n], s.nodes[p].pending == 1, s.maxDepth);
    PendingPositive(s, p, n);
    assert LocalOk(s'.nodes[p], s.maxDepth) by { hide Value, Partial, PowerOfTen; }
    hide NodeOk, UpOk, DownOk, PendingOk, LocalOk, Decremented, Deciding, Done, Telling, Disjoint, Counted, Owes;
    forall i | 0 <= i < s.nextNode && Filled(s', i) ensures NodeOk(s', i) {
      assert Filled(s, i) && NodeOk(s, i);
      if i != p && i != n { LocalOf(s, i); }
      DecNode(s, p, n, i);
    }
  }

  lemma DecParent(s: State, p: nat, n: nat)
    requires p < |s.nodes| && n < |s.nodes| && p != n && LocalOk(s.nodes[p], s.maxDepth)
    requires s.nodes[p].pending >= 1 && s.nodes[p].continuation == Idle && s.nodes[p].job != Unspawned
    ensures var y := Decrease(s, p, n).nodes[p]; LocalOk(y, s.maxDepth) && SamePlace(s.nodes[p], y, s.maxDepth)
  {
    hide Value, Partial, PowerOfTen;
  }

  lemma DecWeight(x: Node, last: bool, n: nat, depth: nat)
    requires LocalOk(x, depth) && Deciding(x) && x.parent.Some?
    ensures Weight(Steps, Decremented(x, last), n, depth) < Weight(Steps, x, n, depth)
  {
    hide Value, Partial, PowerOfTen;
  }

  lemma PendingWeight(y: Node, p: nat, depth: nat, pending: int)
    ensures Weight(Steps, y.(pending := pending), p, depth) == Weight(Steps, y, p, depth)
  {
  }

  /** The decrement finds a positive counter, and the child that takes it to zero owes the continuation. */
  lemma Decreases(s: State, n: nat)
    requires Inv(s) && n < |s.nodes| && s.nodes[n].parent.Some? && s.nodes[n].job != Unspawned && Deciding(s.nodes[n])
    ensures var p := s.nodes[n].parent.value; p < |s.nodes| && s.nodes[p].pending >= 1 && p != n
    ensures Advances(s, Decrease(s, s.nodes[n].parent.value, n))
  {
    var p := s.nodes[n].parent.value;
    ChildTells(s, p, n);
    DecNodes(s, p, n);
    hide Inv, Deciding, SamePlace, LocalOk, NodesOk, Weight, Advances, NodeOk, UpOk, DownOk, PendingOk, Decremented;
    DecreaseFits(s, p, n);
    Pair(s, p, Decrease(s, p, n).nodes[p], n, Decrease(s, p, n).nodes[n]);
  }

  /** The decrement changes neither the place of the two nodes nor what holds of each, and is a step forward. */
  lemma DecreaseFits(s: State, p: nat, n: nat)
    requires Telling(s, p, n) && Deciding(s.nodes[n]) && s.nodes[p].pending >= 1 && s.nodes[p].continuation == Idle
    requires s.nodes[n].parent.Some?
    ensures var s' := Decrease(s, p, n);
            && LocalOk(s.nodes[p], s.maxDepth) && LocalOk(s.nodes[n], s.maxDepth)
            && SamePlace(s.nodes[p], s'.nodes[p], s.maxDepth) && SamePlace(s.nodes[n], s'.nodes[n], s.maxDepth)
            && LocalOk(s'.nodes[p], s.maxDepth) && LocalOk(s'.nodes[n], s.maxDepth)
            && Weight(Steps, s'.nodes[n], n, s.maxDepth) + Weight(Steps, s'.nodes[p], p, s.maxDepth)
               < Weight(Steps, s.nodes[n], n, s.maxDepth) + Weight(Steps, s.nodes[p], p, s.maxDepth)
  {
    hide UpOk, DownOk, PendingOk, LocalOk, Deciding, Done, Decremented, Weight, SamePlace;
    LocalOf(s, p);
    LocalOf(s, n);
    DecParent(s, p, n);
    DecidingRole(s.nodes[n], s.nodes[p].pending == 1, s.maxDepth);
    DecWeight(s.nodes[n], s.nodes[p].pending == 1, n, s.maxDepth);
    PendingWeight(s.nodes[p], p, s.maxDepth, s.nodes[p].pending - 1);
  }

  // ------------------------------------------------------------------ The spawn of the parent's continuation

  function Relieved(x: Node): Node
  {
    if x.job == Resuming then x.(job := Finished) else x.(continuation := Over)
  }

  function Awake(s: State, p: nat, n: nat): State
    requires p < |s.nodes| && n < |s.nodes|
  {
    var y := s.nodes[p];
    SetTwo(s, p, y.(continuation := Queued, spawns := y.spawns + 1), n, Relieved(s.nodes[n]))
  }

  lemma OwingRole(x: Node, depth: nat)
    requires LocalOk(x, depth) && Owes(x)
    ensures var x' := Relieved(x);
            && SamePlace(x, x', depth) && LocalOk(x', depth) && Done(x, depth) && Done(x', depth) && !Owes(x')
            && x'.pending == x.pending && (x'.continuation == Idle <==> x.continuation == Idle)
  {
    hide Value, Partial, PowerOfTen;
  }

  /** The parent as its continuation finds it: all children are done, and it has not been spawned before. */
  lemma AwakeRole(y: Node, depth: nat)
    requires LocalOk(y, depth) && y.depth < depth && y.job == Finished && y.pending == 0 && y.continuation == Idle
    ensures var y' := y.(continuation := Queued, spawns := y.spawns + 1);
            && SamePlace(y, y', depth) && LocalOk(y', depth) && Done(y, depth) == Done(y', depth) && Owes(y) == Owes(y')
            && y'.spawns == 1
  {
    hide Value, Partial, PowerOfTen;
  }

  lemma WakeUp(s: State, p: nat, n: nat, i: nat)
    requires p < |s.nodes| && n < |s.nodes| && p != n && i < |s.nodes| && UpOk(s, i)
    requires LocalOk(s.nodes[n], s.maxDepth) && Owes(s.nodes[n]) && s.nodes[n].parent == Some(p)
    requires s.nodes[p].job == Finished
    requires Owes(s.nodes[i]) && s.nodes[i].parent == Some(p) ==> i == n
    ensures UpOk(Awake(s, p, n), i)
  {
    OwingRole(s.nodes[n], s.maxDepth);
    hide LocalOk, PowerOfTen, Done;
  }

  /** Nothing that the counters look at has changed, but that child n owes no more and parent p is not idle. */
  ghost predicate Calmed(s: State, s': State, p: nat, n: nat)
  {
    && |s'.nodes| == |s.nodes| && s'.maxDepth == s.maxDepth && p < |s.nodes| && n < |s.nodes|
    && (forall j :: 0 <= j < |s.nodes| ==>
          var x, x' := s.nodes[j], s'.nodes[j];
          && Done(x', s.maxDepth) == Done(x, s.maxDepth) && (Owes(x') ==> Owes(x)) && (j != n ==> Owes(x') == Owes(x))
          && x'.firstChild == x.firstChild && x'.pending == x.pending && x'.parent == x.parent
          && Expanded(x', s.maxDepth) == Expanded(x, s.maxDepth)
          && (j != p ==> (x'.continuation == Idle <==> x.continuation == Idle)))
    && s'.nodes[p].continuation != Idle && s.nodes[n].parent == Some(p)
  }

  lemma WakeCalms(s: State, p: nat, n: nat)
    requires p < |s.nodes| && n < |s.nodes| && p != n
    requires s.nodes[n].parent == Some(p) && LocalOk(s.nodes[n], s.maxDepth) && Owes(s.nodes[n])
    requires LocalOk(s.nodes[p], s.maxDepth) && s.nodes[p].job == Finished && s.nodes[p].depth < s.maxDepth
    requires s.nodes[p].pending == 0 && s.nodes[p].continuation == Idle
    ensures Calmed(s, Awake(s, p, n), p, n)
  {
    OwingRole(s.nodes[n], s.maxDepth);
    AwakeRole(s.nodes[p], s.maxDepth);
    hide LocalOk, Relieved, Done, Owes;
  }

  lemma WakePending(s: State, s': State, p: nat, n: nat, i: nat)
    requires Calmed(s, s', p, n) && i < |s.nodes| && PendingOk(s, i) && DownOk(s, i)
    ensures PendingOk(s', i)
  {
    var x := s.nodes[i];
    hide Done, Owes;
    if Expanded(s'.nodes[i], s.maxDepth) && x.firstChild + FAN <= |s.nodes| {
      assert forall j :: InRange(x, j) ==> s.nodes[j].parent == Some(i);
      assert forall j :: InRange(x, j) ==> Done(s'.nodes[j], s.maxDepth) == Done(s.nodes[j], s.maxDepth);
      DoneSame(s.nodes, s'.nodes, s.maxDepth, x.firstChild, FAN);
    }
  }

  lemma OnlyOwer(s: State, p: nat, n: nat, i: nat)
    requires Telling(s, p, n) && Owes(s.nodes[n]) && i < |s.nodes| && UpOk(s, i) && Owes(s.nodes[i]) &&
             s.nodes[i].parent == Some(p)
    ensures i == n
  {
    LocalOf(s, p);
    assert DownOk(s, p) && PendingOk(s, p);
    hide NodeOk, LocalOk, Done, DoneCount;
  }

  lemma WakeNode(s: State, p: nat, n: nat, i: nat)
    requires Telling(s, p, n) && Owes(s.nodes[n]) && i < |s.nodes| && NodeOk(s, i)
    requires s.nodes[p].pending == 0 && s.nodes[p].continuation == Idle && LocalOk(Awake(s, p, n).nodes[i], s.maxDepth)
    ensures NodeOk(Awake(s, p, n), i)
  {
    var s' := Awake(s, p, n);
    LocalOf(s, p);
    LocalOf(s, n);
    LocalOf(s, i);
    OwingRole(s.nodes[n], s.maxDepth);
    AwakeRole(s.nodes[p], s.maxDepth);
    if Owes(s.nodes[i]) && s.nodes[i].parent == Some(p) { OnlyOwer(s, p, n, i); }
    hide UpOk, DownOk, PendingOk, LocalOk, Relieved, SamePlace, Done, Owes, Calmed;
    WakeCalms(s, p, n);
    PairDown(s, p, s'.nodes[p], n, s'.nodes[n], i);
    WakeUp(s, p, n, i);
    WakePending(s, s', p, n, i);
  }

  lemma WakeNodes(s: State, p: nat, n: nat)
    requires Inv(s) && Telling(s, p, n) && Owes(s.nodes[n])
    ensures s.nodes[p].pending == 0 && s.nodes[p].continuation == Idle && NodesOk(Awake(s, p, n))
  {
    var s' := Awake(s, p, n);
    LocalOf(s, p);
    LocalOf(s, n);
    assert UpOk(s, n);
    OwingRole(s.nodes[n], s.maxDepth);
    AwakeRole(s.nodes[p], s.maxDepth);
    hide NodeOk, UpOk, DownOk, PendingOk, LocalOk, Relieved, Done, Telling, Disjoint, Counted, Owes;
    forall i | 0 <= i < s.nextNode && Filled(s', i) ensures NodeOk(s', i) {
      assert Filled(s, i) && NodeOk(s, i);
      if i != p && i != n { LocalOf(s, i); }
      WakeNode(s, p, n, i);
    }
  }

  lemma RelievedWeight(x: Node, n: nat, depth: nat)
    requires LocalOk(x, depth) && Owes(x) && x.parent.Some?
    ensures Weight(Steps, Relieved(x), n, depth) < Weight(Steps, x, n, depth)
  {
    hide Value, Partial, PowerOfTen;
  }

  lemma AwakeWeight(y: Node, p: nat, depth: nat)
    requires y.continuation == Idle && y.job == Finished && y.depth < depth
    ensures Weight(Steps, y.(continuation := Queued, spawns := y.spawns + 1), p, depth) == Weight(Steps, y, p, depth)
  {
  }

  /** Every child has a final result and has told its parent. */
  ghost predicate ChildrenDone(s: State, p: nat)
    requires p < |s.nodes|
  {
    forall c :: InRange(s.nodes[p], c) ==> 0 <= c < |s.nodes| && Done(s.nodes[c], s.maxDepth)
  }

  lemma AllTold(s: State, p: nat)
    requires p < |s.nodes| && PendingOk(s, p) && DownOk(s, p) && Expanded(s.nodes[p], s.maxDepth) &&
             s.nodes[p].pending == 0
    ensures ChildrenDone(s, p)
  {
    forall c | InRange(s.nodes[p], c) ensures Done(s.nodes[c], s.maxDepth) {
      AllDone(s.nodes, s.maxDepth, s.nodes[p].firstChild, FAN, c - s.nodes[p].firstChild);
    }
  }

  lemma Owing(s: State, n: nat)
    requires Inv(s) && n < |s.nodes| && Owes(s.nodes[n])
    ensures s.nodes[n].parent.Some? && s.nodes[n].job != Unspawned
    ensures Telling(s, s.nodes[n].parent.value, n)
  {
    assert s.nodes[n] != RAW;
    assert NodeOk(s, n);
    LocalOf(s, n);
    ChildTells(s, s.nodes[n].parent.value, n);
    hide Inv, NodeOk, DownOk, PendingOk, Value, Partial, PowerOfTen, Telling;
  }

  /** The continuation of p is due: all its children are done, and it has never been spawned. */
  ghost predicate Due(s: State, p: nat)
  {
    p < |s.nodes| && s.nodes[p].continuation == Idle && s.nodes[p].spawns == 0 && ChildrenDone(s, p)
  }

  lemma DueNow(s: State, p: nat, n: nat)
    requires Inv(s) && Telling(s, p, n) && Owes(s.nodes[n])
    ensures Due(s, p)
  {
    WakeNodes(s, p, n);
    LocalOf(s, p);
    AllTold(s, p);
    hide Inv, NodesOk, NodeOk, Value, Partial, PowerOfTen;
  }

  /** A continuation is spawned when it is due. */
  lemma Wakes(s: State, n: nat)
    requires Inv(s) && n < |s.nodes| && Owes(s.nodes[n])
    ensures s.nodes[n].parent.Some? && Due(s, s.nodes[n].parent.value) && s.nodes[n].parent.value != n
    ensures Advances(s, Awake(s, s.nodes[n].parent.value, n))
  {
    Owing(s, n);
    var p := s.nodes[n].parent.value;
    DueNow(s, p, n);
    WakeNodes(s, p, n);
    hide Inv, Advances, NodesOk, Due;
    WakesPair(s, p, n);
  }

  lemma WakesPair(s: State, p: nat, n: nat)
    requires Inv(s) && Telling(s, p, n) && Owes(s.nodes[n]) && NodesOk(Awake(s, p, n))
    requires s.nodes[p].pending == 0 && s.nodes[p].continuation == Idle
    ensures Advances(s, Awake(s, p, n))
  {
    LocalOf(s, p);
    LocalOf(s, n);
    OwingRole(s.nodes[n], s.maxDepth);
    AwakeRole(s.nodes[p], s.maxDepth);
    RelievedWeight(s.nodes[n], n, s.maxDepth);
    AwakeWeight(s.nodes[p], p, s.maxDepth);
    assert Filled(s, n);
    hide Inv, NodeOk, UpOk, DownOk, PendingOk, LocalOk, Relieved, SamePlace, Done, Weight, Advances, NodesOk, Owes;
    var s' := Awake(s, p, n);
    Pair(s, p, s'.nodes[p], n, s'.nodes[n]);
  }
}
