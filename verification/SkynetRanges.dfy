/** The steps that claim, prepare and spawn ten children. */
module SkynetRanges {

  import opened Wrappers
  import opened SkynetModel
  import opened SkynetInvariant
  import opened SkynetProofs

  // ------------------------------------------------------------------ fetch_add

  function Claims(s: State, n: nat): State
    requires n < |s.nodes|
  {
    SetNode(s, n, s.nodes[n].(firstChild := s.nextNode, job := Claimed)).(nextNode := s.nextNode + FAN)
  }

  lemma WeightPositive(x: Node, i: nat, depth: nat)
    ensures Weight(Slots, x, i, depth) >= 1
  {
    if x.depth < depth {
      assert NodeCount(depth - x.depth) >= 11;
    }
  }

  lemma {:induction false} SumAtLeast(nodes: seq<Node>, depth: nat, k: nat, n: nat)
    requires n < k <= |nodes|
    ensures Sum(Slots, nodes, depth, k) >= k - 1 + Weight(Slots, nodes[n], n, depth)
    decreases k
  {
    WeightPositive(nodes[k - 1], k - 1, depth);
    if n < k - 1 {
      hide Weight;
      SumAtLeast(nodes, depth, k - 1, n);
    } else {
      hide Weight;
      SumPositive(nodes, depth, k - 1);
    }
  }

  lemma {:induction false} SumPositive(nodes: seq<Node>, depth: nat, k: nat)
    requires k <= |nodes|
    ensures Sum(Slots, nodes, depth, k) >= k
  {
    if k > 0 {
      WeightPositive(nodes[k - 1], k - 1, depth);
      hide Weight;
      SumPositive(nodes, depth, k - 1);
    }
  }

  /** The ten slots that a node claims are inside the array. */
  lemma ClaimFits(s: State, n: nat)
    requires Inv(s) && n < s.nextNode && Filled(s, n) && s.nodes[n].job == Ready && s.nodes[n].depth < s.maxDepth
    ensures s.nextNode + FAN <= |s.nodes|
  {
    assert NodeCount(s.maxDepth - s.nodes[n].depth) >= 11;
    SumAtLeast(s.nodes, s.maxDepth, s.nextNode, n);
    hide Families, Disjoint, Sum, NodeCount;
  }

  lemma ClaimNode(s: State, n: nat, i: nat)
    requires Bounds(s) && n < s.nextNode && i < s.nextNode && s.nextNode + FAN <= |s.nodes| && NodeOk(s, i)
    requires s.nodes[n].job == Ready && s.nodes[n].depth < s.maxDepth && s.nodes[n].continuation == Idle
    ensures NodeOk(Claims(s, n), i)
  {
    var s' := Claims(s, n);
    assert LocalOk(s'.nodes[i], s.maxDepth) by { hide Value, Partial, PowerOfTen, NodeCount; }
    assert UpOk(s', i) by { hide PowerOfTen, NodeCount, LocalOk, DownOk, PendingOk; }
    assert DownOk(s', i) by { hide PowerOfTen, NodeCount, LocalOk, PendingOk; }
    assert PendingOk(s', i) by { ClaimPending(s, n, i); }
    hide LocalOk, UpOk, DownOk, PendingOk, NodeCount;
  }

  lemma ClaimPending(s: State, n: nat, i: nat)
    requires n < |s.nodes| && i < |s.nodes| && PendingOk(s, i) && DownOk(s, i)
    requires s.nodes[n].job == Ready && s.nodes[n].depth < s.maxDepth && s.nodes[n].continuation == Idle
    ensures PendingOk(Claims(s, n), i)
  {
    var s' := Claims(s, n);
    var x := s.nodes[i];
    if Expanded(s'.nodes[i], s.maxDepth) && x.firstChild + FAN <= |s.nodes| {
      assert forall j :: InRange(x, j) ==>
             Done(s'.nodes[j], s.maxDepth) == Done(s.nodes[j], s.maxDepth) && Owes(s'.nodes[j]) == Owes(s.nodes[j]);
      hide Done, Owes, LocalOk;
      DoneSame(s.nodes, s'.nodes, s.maxDepth, x.firstChild, FAN);
    }
  }

  lemma {:induction false} SumRaw(m: Measure, nodes: seq<Node>, depth: nat, k: nat, extra: nat)
    requires 1 <= k && k + extra <= |nodes| && forall i :: k <= i < k + extra ==> nodes[i] == RAW
    ensures Sum(m, nodes, depth, k + extra) == Sum(m, nodes, depth, k) + (if m == Slots then extra else 0)
    decreases extra
  {
    if extra > 0 {
      SumRaw(m, nodes, depth, k, extra - 1);
      assert nodes[k + extra - 1] == RAW;
    }
  }

  lemma ClaimFamilies(s: State, n: nat)
    requires Bounds(s) && Families(s) && n < s.nextNode && Filled(s, n) && s.nextNode + FAN <= |s.nodes|
    requires s.nodes[n].job == Ready && s.nodes[n].depth < s.maxDepth && s.nodes[n].continuation == Idle
    ensures Families(Claims(s, n))
  {
    var s' := Claims(s, n);
    hide NodeOk, NodeCount, Reserved;
    forall i | 0 <= i < s'.nextNode
      ensures if Filled(s', i) then NodeOk(s', i) else s'.nodes[i] == RAW && Reserved(s', i)
    {
      if i >= s.nextNode {
        ClaimReserves(s, n, i);
      } else if Filled(s, i) {
        ClaimNode(s, n, i);
      } else {
        ClaimKeeps(s, n, i);
      }
    }
  }

  lemma ClaimReserves(s: State, n: nat, i: nat)
    requires n < s.nextNode <= i < s.nextNode + FAN <= |s.nodes| && s.nodes[n].depth < s.maxDepth
    ensures Reserved(Claims(s, n), i)
  {
    var y := Claims(s, n).nodes[n];
    assert y.job == Claimed && y.depth < s.maxDepth && InRange(y, i);
  }

  lemma ClaimKeeps(s: State, n: nat, i: nat)
    requires n < s.nextNode && s.nextNode + FAN <= |s.nodes| && s.nodes[n].job == Ready && Reserved(s, i)
    ensures Reserved(Claims(s, n), i)
  {
    var p :| 0 <= p < s.nextNode && s.nodes[p].job == Claimed && s.nodes[p].depth < s.maxDepth &&
        InRange(s.nodes[p], i);
    var y := Claims(s, n).nodes[p];
    assert y.job == Claimed && y.depth < s.maxDepth && InRange(y, i);
  }

  /** All ranges lie below the next free slot. */
  lemma RangeBelow(s: State, p: nat)
    requires Bounds(s) && Families(s) && p < s.nextNode && HasRange(s.nodes[p], s.maxDepth)
    ensures Filled(s, p) && s.nodes[p].firstChild + FAN <= s.nextNode
  {
    assert s.nodes[p] != RAW;
    assert NodeOk(s, p);
    LocalOf(s, p);
    hide NodeOk, LocalOk, UpOk, PendingOk, Families;
  }

  predicate Apart(x: Node, y: Node)
  {
    x.firstChild + FAN <= y.firstChild || y.firstChild + FAN <= x.firstChild
  }

  lemma ClaimApart(s: State, n: nat, p: nat, q: nat)
    requires Bounds(s) && Families(s) && Disjoint(s) && n < s.nextNode && s.nextNode + FAN <= |s.nodes|
    requires p < s.nextNode && q < s.nextNode && p != q
    requires HasRange(Claims(s, n).nodes[p], s.maxDepth) && HasRange(Claims(s, n).nodes[q], s.maxDepth)
    ensures Apart(Claims(s, n).nodes[p], Claims(s, n).nodes[q])
  {
    if p == n {
      hide Families, NodeCount, Disjoint;
      RangeBelow(s, q);
    } else if q == n {
      hide Families, NodeCount, Disjoint;
      RangeBelow(s, p);
    } else {
      hide Families, Bounds;
    }
  }

  lemma ClaimDisjoint(s: State, n: nat)
    requires Bounds(s) && Families(s) && Disjoint(s) && n < s.nextNode && s.nextNode + FAN <= |s.nodes|
    requires s.nodes[n].job == Ready
    ensures Disjoint(Claims(s, n))
  {
    var s' := Claims(s, n);
    assert forall i :: s.nextNode <= i < s'.nextNode ==> !HasRange(s'.nodes[i], s.maxDepth)
           by { hide Families, Disjoint, NodeCount; }
    forall p, q | 0 <= p < s'.nextNode && 0 <= q < s'.nextNode && p != q
                  && HasRange(s'.nodes[p], s.maxDepth) && HasRange(s'.nodes[q], s.maxDepth)
      ensures Apart(s'.nodes[p], s'.nodes[q])
    {
      hide Families, Bounds, Disjoint, HasRange, Apart;
      ClaimApart(s, n, p, q);
    }
    hide Families, Bounds, HasRange;
  }

  lemma ClaimSums(s: State, n: nat, m: Measure)
    requires Bounds(s) && n < s.nextNode && Filled(s, n) && s.nextNode + FAN <= |s.nodes|
    requires s.nodes[n].job == Ready && s.nodes[n].depth < s.maxDepth
    ensures var s' := Claims(s, n);
            Sum(m, s'.nodes, s.maxDepth, s'.nextNode) ==
            Sum(m, s.nodes, s.maxDepth, s.nextNode) - (if m == Slots then 0 else 1)
  {
    var s' := Claims(s, n);
    SumOne(m, s.nodes, s'.nodes[n], s.maxDepth, n, s.nextNode);
    SumRaw(m, s'.nodes, s.maxDepth, s.nextNode, FAN);
    hide Sum, NodeCount, TreeSteps;
  }

  /** The claim of a range keeps the invariant, and stays inside the array. */
  lemma ClaimsRange(s: State, n: nat)
    requires Inv(s) && n < |s.nodes| && s.nodes[n].job == Ready && s.nodes[n].depth < s.maxDepth
    ensures s.nextNode + FAN <= |s.nodes| && Advances(s, RunInitial(s, n))
  {
    hide NodeOk, LocalOk, UpOk, DownOk, PendingOk, Bounds, Families, Disjoint, Sum, NodeCount, RunInitial;
    Part(s, n);
    LocalOf(s, n);
    ReadyIdle(s.nodes[n], s.maxDepth);
    ClaimFits(s, n);
    ClaimBounds(s, n);
    ClaimFamilies(s, n);
    ClaimDisjoint(s, n);
    ClaimSums(s, n, Slots);
    ClaimSums(s, n, Steps);
    ClaimForm(s, n);
  }

  lemma ReadyIdle(x: Node, depth: nat)
    requires LocalOk(x, depth) && x.job == Ready
    ensures x.continuation == Idle
  {
    hide Value, Partial, PowerOfTen;
  }

  lemma ClaimForm(s: State, n: nat)
    requires n < |s.nodes| && s.nodes[n].job == Ready && s.nodes[n].depth < s.maxDepth
    ensures RunInitial(s, n) == Claims(s, n)
  {
    hide Fill, SpawnChildren, Decrement, Wake;
  }

  lemma ClaimBounds(s: State, n: nat)
    requires Bounds(s) && n < s.nextNode && s.nextNode + FAN <= |s.nodes|
    ensures Bounds(Claims(s, n))
  {
    hide NodeCount;
  }

  // ------------------------------------------------------------------ The children are prepared

  function Prepares(s: State, n: nat): State
    requires n < |s.nodes| && s.nodes[n].firstChild + FAN <= |s.nodes|
  {
    s.(nodes := Fill(s, n, 0)[n := s.nodes[n].(pending := FAN, job := Prepared)])
  }

  /** A node that has claimed its range and is about to prepare it. */
  ghost predicate Preparing(s: State, n: nat)
  {
    && n < s.nextNode <= |s.nodes| && Filled(s, n) && s.nodes[n].job == Claimed && s.nodes[n].depth < s.maxDepth
    && LocalOk(s.nodes[n], s.maxDepth) && UpOk(s, n) && DownOk(s, n)
  }

  lemma PreparingNode(s: State, n: nat)
    requires Inv(s) && n < |s.nodes| && s.nodes[n].job == Claimed
    ensures Preparing(s, n) && NodeOk(s, n)
  {
    Part(s, n);
    LocalOf(s, n);
    assert s.nodes[n].depth < s.maxDepth by { hide Value, Partial, PowerOfTen; }
  }

  /** The new state, node by node. */
  ghost predicate PreparedTo(s: State, s': State, n: nat)
  {
    && n < s.nextNode == s'.nextNode <= |s.nodes| == |s'.nodes| && s'.maxDepth == s.maxDepth && s'.failed == s.failed
    && var x := s.nodes[n];
       && 1 <= x.firstChild && x.firstChild + FAN <= s.nextNode && !InRange(x, n)
       && x.job == Claimed && x.depth < s.maxDepth && x.continuation == Idle && x.result == 0 && x.spawns == 0
       && (forall j :: InRange(x, j) ==> s.nodes[j] == RAW)
       && s'.nodes[n] == x.(pending := FAN, job := Prepared)
       && (forall j :: InRange(x, j) ==> s'.nodes[j] == ChildNode(s, n, j - x.firstChild))
       && (forall j :: 0 <= j < |s.nodes| && j != n && !InRange(x, j) ==> s'.nodes[j] == s.nodes[j])
  }

  lemma PreparedForm(s: State, n: nat)
    requires Preparing(s, n)
    ensures s.nodes[n].firstChild + FAN <= |s.nodes| && PreparedTo(s, Prepares(s, n), n)
  {
    hide Value, Partial, PowerOfTen, UpOk, ChildNode;
  }

  lemma PreparedChild(s: State, s': State, n: nat, i: nat)
    requires PreparedTo(s, s', n) && InRange(s.nodes[n], i) && i < |s.nodes| && Filled(s, n)
    ensures NodeOk(s', i) && Filled(s', i)
  {
    hide Value, Partial, PowerOfTen;
  }

  lemma {:induction false} NoneDone(nodes: seq<Node>, depth: nat, first: nat, k: nat)
    requires first + k <= |nodes| && forall i :: first <= i < first + k ==> !Done(nodes[i], depth)
    ensures DoneCount(nodes, depth, first, k) == 0
  {
    if k > 0 {
      NoneDone(nodes, depth, first, k - 1);
    }
  }

  lemma PreparedSelf(s: State, s': State, n: nat)
    requires PreparedTo(s, s', n) && LocalOk(s.nodes[n], s.maxDepth) && UpOk(s, n)
    ensures NodeOk(s', n)
  {
    assert LocalOk(s'.nodes[n], s.maxDepth) by { hide Value, Partial, PowerOfTen, UpOk, ChildNode; }
    assert UpOk(s', n) by { hide PowerOfTen, LocalOk; }
    assert DownOk(s', n) by { hide PowerOfTen, LocalOk, UpOk; }
    hide LocalOk, UpOk, DownOk, PowerOfTen;
    PreparedSelfPending(s, s', n);
  }

  lemma PreparedSelfPending(s: State, s': State, n: nat)
    requires PreparedTo(s, s', n)
    ensures PendingOk(s', n)
  {
    var x := s.nodes[n];
    assert forall j :: InRange(x, j) ==> !Done(s'.nodes[j], s.maxDepth) && !Owes(s'.nodes[j]) by { hide PowerOfTen; }
    hide ChildNode, Done, Owes;
    NoneDone(s'.nodes, s.maxDepth, x.firstChild, FAN);
  }

  /** The range of another node is not touched. */
  predicate RangeApart(s: State, n: nat, i: nat)
    requires n < |s.nodes| && i < |s.nodes|
  {
    HasRange(s.nodes[i], s.maxDepth) ==> Apart(s.nodes[n], s.nodes[i])
  }

  lemma PreparedUp(s: State, s': State, n: nat, i: nat)
    requires PreparedTo(s, s', n) && i < s.nextNode && i != n && !InRange(s.nodes[n], i) && UpOk(s, i)
    ensures UpOk(s', i)
  {
    hide PowerOfTen, ChildNode;
  }

  lemma PreparedDown(s: State, s': State, n: nat, i: nat)
    requires PreparedTo(s, s', n) && i < s.nextNode && i != n && !InRange(s.nodes[n], i) && DownOk(s, i) &&
             RangeApart(s, n, i)
    ensures DownOk(s', i)
  {
    hide PowerOfTen, ChildNode;
  }

  lemma PreparedPending(s: State, s': State, n: nat, i: nat)
    requires PreparedTo(s, s', n) && i < s.nextNode && i != n && !InRange(s.nodes[n], i) && PendingOk(s, i) &&
             RangeApart(s, n, i)
    ensures PendingOk(s', i)
  {
    var x := s.nodes[i];
    hide ChildNode;
    if Expanded(x, s.maxDepth) && x.firstChild + FAN <= |s.nodes| {
      assert forall j :: InRange(x, j) ==>
             Done(s'.nodes[j], s.maxDepth) == Done(s.nodes[j], s.maxDepth) && Owes(s'.nodes[j]) == Owes(s.nodes[j]);
      hide Done, Owes, PreparedTo;
      DoneSame(s.nodes, s'.nodes, s.maxDepth, x.firstChild, FAN);
    }
  }

  lemma PreparedOther(s: State, s': State, n: nat, i: nat)
    requires PreparedTo(s, s', n) && Disjoint(s) && i < s.nextNode && i != n && !InRange(s.nodes[n], i) && NodeOk(s, i)
    ensures NodeOk(s', i)
  {
    LocalOf(s, i);
    Before(s, s', n);
    assert RangeApart(s, n, i) by { hide NodeOk, ChildNode; }
    assert s'.nodes[i] == s.nodes[i];
    hide PreparedTo, LocalOk, UpOk, DownOk, PendingOk, Disjoint, RangeApart;
    PreparedUp(s, s', n, i);
    PreparedDown(s, s', n, i);
    PreparedPending(s, s', n, i);
  }

  lemma Before(s: State, s': State, n: nat)
    requires PreparedTo(s, s', n)
    ensures HasRange(s.nodes[n], s.maxDepth)
  {
  }

  lemma PreparedFamilies(s: State, s': State, n: nat)
    requires PreparedTo(s, s', n) && Families(s) && Disjoint(s) && Filled(s, n) && Preparing(s, n)
    ensures Families(s')
  {
    forall i | 0 <= i < s'.nextNode
      ensures if Filled(s', i) then NodeOk(s', i) else s'.nodes[i] == RAW && Reserved(s', i)
    {
      if i == n {
        PreparedSelf(s, s', n);
      } else if InRange(s.nodes[n], i) {
        PreparedChild(s, s', n, i);
      } else {
        assert s'.nodes[i] == s.nodes[i];
        hide NodeOk, Reserved, PreparedTo, Preparing, Disjoint;
        if Filled(s, i) {
          PreparedOther(s, s', n, i);
        } else {
          PreparedReserved(s, s', n, i);
        }
      }
    }
  }

  lemma PreparedReserved(s: State, s': State, n: nat, i: nat)
    requires PreparedTo(s, s', n) && !InRange(s.nodes[n], i) && Reserved(s, i)
    ensures Reserved(s', i)
  {
    var p :| 0 <= p < s.nextNode && s.nodes[p].job == Claimed && s.nodes[p].depth < s.maxDepth &&
        InRange(s.nodes[p], i);
    assert p != n && s.nodes[p] != RAW;
    assert s'.nodes[p] == s.nodes[p];
    hide ChildNode;
  }

  lemma PreparedDisjoint(s: State, s': State, n: nat)
    requires PreparedTo(s, s', n) && Disjoint(s)
    ensures Disjoint(s')
  {
    assert forall i :: 0 <= i < |s.nodes| ==> (HasRange(s'.nodes[i], s.maxDepth) ==>
             HasRange(s.nodes[i], s.maxDepth) && s'.nodes[i].firstChild == s.nodes[i].firstChild);
    hide PreparedTo, HasRange, ChildNode;
  }

  function Clamp(x: int): int
  {
    if x < 0 then 0 else if x > FAN then FAN else x
  }

  lemma {:induction false} PreparedSums(m: Measure, s: State, s': State, n: nat, k: nat, child: int)
    requires PreparedTo(s, s', n) && k <= |s.nodes|
    requires forall j :: InRange(s.nodes[n], j) ==>
               Weight(m, s'.nodes[j], j, s.maxDepth) == Weight(m, s.nodes[j], j, s.maxDepth) + child
    ensures Sum(m, s'.nodes, s.maxDepth, k) ==
            Sum(m, s.nodes, s.maxDepth, k) + Clamp(k - s.nodes[n].firstChild) * child
            + (if n < k then Weight(m, s'.nodes[n], n, s.maxDepth) - Weight(m, s.nodes[n], n, s.maxDepth) else 0)
    decreases k
  {
    hide Weight, ChildNode;
    if k > 0 {
      PreparedSums(m, s, s', n, k - 1, child);
      var first := s.nodes[n].firstChild;
      if InRange(s.nodes[n], k - 1) {
        assert Clamp(k - first) == Clamp(k - 1 - first) + 1;
        Distribute(child, Clamp(k - 1 - first), 1);
      } else {
        assert Clamp(k - first) == Clamp(k - 1 - first);
      }
    } else {
      assert Clamp(k - s.nodes[n].firstChild) == 0;
    }
  }

  /** The subtrees of the children are the subtree of the node without the node. */
  lemma PreparedWeights(s: State, s': State, n: nat, m: Measure)
    requires PreparedTo(s, s', n) && Filled(s, n)
    ensures Sum(m, s'.nodes, s.maxDepth, s.nextNode) ==
            Sum(m, s.nodes, s.maxDepth, s.nextNode) - (if m == Slots then 0 else 1)
  {
    var levels := s.maxDepth - s.nodes[n].depth - 1;
    var child := if m == Slots then NodeCount(levels) - 1 else TreeSteps(levels);
    ChildWeights(s, s', n, m);
    PreparedSums(m, s, s', n, s.nextNode, child);
    assert Clamp(s.nextNode - s.nodes[n].firstChild) == FAN;
    assert NodeCount(levels + 1) == 1 + FAN * NodeCount(levels) &&
           TreeSteps(levels + 1) == 17 + FAN * TreeSteps(levels);
    hide NodeCount, TreeSteps, Sum, ChildNode;
  }

  lemma ChildWeights(s: State, s': State, n: nat, m: Measure)
    requires PreparedTo(s, s', n) && Filled(s, n)
    ensures var levels := s.maxDepth - s.nodes[n].depth - 1;
            var child := if m == Slots then NodeCount(levels) - 1 else TreeSteps(levels);
            forall j :: InRange(s.nodes[n], j) ==>
              Weight(m, s'.nodes[j], j, s.maxDepth) == Weight(m, s.nodes[j], j, s.maxDepth) + child
  {
    assert NodeCount(0) == 1 && TreeSteps(0) == 3;
  }

  /** Preparing the children keeps the invariant. */
  lemma PreparesChildren(s: State, n: nat)
    requires Inv(s) && n < |s.nodes| && s.nodes[n].job == Claimed
    ensures Advances(s, RunInitial(s, n))
  {
    PreparingNode(s, n);
    PreparedForm(s, n);
    var s' := Prepares(s, n);
    assert RunInitial(s, n) == s' by { hide Fill, Decrement, Wake, SpawnChildren; }
    PreparedBounds(s, s', n);
    hide Bounds, Families, Disjoint, Sum, NodeCount, PreparedTo, Prepares, RunInitial, NodeOk;
    PreparedFamilies(s, s', n);
    PreparedDisjoint(s, s', n);
    assert Filled(s, n) && s'.nextNode == s.nextNode && s'.maxDepth == s.maxDepth;
    PreparedWeights(s, s', n, Slots);
    PreparedWeights(s, s', n, Steps);
  }

  lemma PreparedBounds(s: State, s': State, n: nat)
    requires PreparedTo(s, s', n) && Bounds(s)
    ensures Bounds(s') && s'.nextNode == s.nextNode && s'.maxDepth == s.maxDepth && |s'.nodes| == |s.nodes|
  {
    hide NodeCount, ChildNode;
  }

  // ------------------------------------------------------------------ The children are spawned

  /** Before and after the spawn of a batch, node by node. */
  ghost predicate SpawnedTo(s: State, s': State, n: nat)
  {
    && n < s.nextNode == s'.nextNode <= |s.nodes| == |s'.nodes| && s'.maxDepth == s.maxDepth && s'.failed == s.failed
    && var x := s.nodes[n];
       && 1 <= x.firstChild && x.firstChild + FAN <= s.nextNode && !InRange(x, n)
       && x.job == Prepared && x.depth < s.maxDepth && x.continuation == Idle
       && (forall j :: InRange(x, j) ==>
             && s.nodes[j].job == Unspawned && s.nodes[j].parent == Some(n) && s.nodes[j].continuation == Idle
             && s.nodes[j].depth <= s.maxDepth && s'.nodes[j] == s.nodes[j].(job := Ready))
       && s'.nodes[n] == x.(job := Finished)
       && (forall j :: 0 <= j < |s.nodes| && j != n && !InRange(x, j) ==> s'.nodes[j] == s.nodes[j])
  }

  function Spawns(s: State, n: nat): State
    requires n < |s.nodes| && s.nodes[n].firstChild + FAN <= |s.nodes|
  {
    s.(nodes := SpawnChildren(s, s.nodes[n].firstChild, 0)[n := s.nodes[n].(job := Finished)])
  }

  /** A node whose children are about to be spawned. */
  ghost predicate Spawning(s: State, n: nat)
  {
    && n < s.nextNode <= |s.nodes|
    && var x := s.nodes[n];
       && 1 <= x.firstChild && x.firstChild + FAN <= s.nextNode && !InRange(x, n)
       && x.job == Prepared && x.depth < s.maxDepth && x.continuation == Idle
       && (forall j :: InRange(x, j) ==>
             && s.nodes[j].job == Unspawned && s.nodes[j].parent == Some(n) && s.nodes[j].continuation == Idle
             && s.nodes[j].depth <= s.maxDepth)
  }

  lemma SpawningNode(s: State, n: nat)
    requires Inv(s) && n < |s.nodes| && s.nodes[n].job == Prepared
    ensures Spawning(s, n) && Filled(s, n) && NodeOk(s, n)
  {
    Part(s, n);
    LocalOf(s, n);
    var x := s.nodes[n];
    assert x.depth < s.maxDepth && x.continuation == Idle by { hide Value, Partial, PowerOfTen; }
    Family(s, n);
    assert DownOk(s, n);
    hide Inv, NodeOk, LocalOk, UpOk, PendingOk;
    forall j | InRange(x, j)
      ensures s.nodes[j].job == Unspawned && s.nodes[j].parent == Some(n) && s.nodes[j].continuation == Idle &&
              s.nodes[j].depth <= s.maxDepth
    {
      SpawnedChild(s, n, j);
    }
  }

  lemma SpawnedForm(s: State, n: nat)
    requires Spawning(s, n)
    ensures s.nodes[n].firstChild + FAN <= |s.nodes|
    ensures RunInitial(s, n) == Spawns(s, n) && SpawnedTo(s, Spawns(s, n), n)
  {
    hide Fill, Decrement, Wake, SpawnChildren;
  }

  lemma SpawnedChild(s: State, n: nat, j: nat)
    requires Inv(s) && n < |s.nodes| && j < |s.nodes| && s.nodes[j].parent == Some(n) && s.nodes[n].job == Prepared &&
             UpOk(s, j)
    ensures s.nodes[j].job == Unspawned && s.nodes[j].continuation == Idle && s.nodes[j].depth <= s.maxDepth
  {
    assert NodeOk(s, j);
    LocalOf(s, j);
    hide Inv, NodeOk, DownOk, PendingOk, Value, Partial, PowerOfTen;
  }

  lemma SpawnedLocal(s: State, s': State, n: nat, i: nat)
    requires SpawnedTo(s, s', n) && i < |s.nodes| && LocalOk(s.nodes[i], s.maxDepth)
    ensures LocalOk(s'.nodes[i], s.maxDepth)
  {
    hide Value, Partial, PowerOfTen;
  }

  lemma SpawnedUp(s: State, s': State, n: nat, i: nat)
    requires SpawnedTo(s, s', n) && i < s.nextNode && UpOk(s, i)
    requires s.nodes[i].parent == Some(n) ==> InRange(s.nodes[n], i)
    ensures UpOk(s', i)
  {
    hide PowerOfTen;
  }

  lemma SpawnedDown(s: State, s': State, n: nat, i: nat)
    requires SpawnedTo(s, s', n) && i < s.nextNode && DownOk(s, i)
    ensures DownOk(s', i)
  {
  }

  lemma SpawnedPending(s: State, s': State, n: nat, i: nat)
    requires SpawnedTo(s, s', n) && i < s.nextNode && PendingOk(s, i)
    ensures PendingOk(s', i)
  {
    var x := s.nodes[i];
    if Expanded(s'.nodes[i], s.maxDepth) && x.firstChild + FAN <= |s.nodes| {
      assert Expanded(x, s.maxDepth);
      assert forall j :: InRange(x, j) ==>
             Done(s'.nodes[j], s.maxDepth) == Done(s.nodes[j], s.maxDepth) && Owes(s'.nodes[j]) == Owes(s.nodes[j]);
      hide Done, Owes;
      DoneSame(s.nodes, s'.nodes, s.maxDepth, x.firstChild, FAN);
    }
  }

  lemma SpawnedFamilies(s: State, s': State, n: nat)
    requires SpawnedTo(s, s', n) && Families(s)
    ensures Families(s')
  {
    assert forall i :: 0 <= i < s.nextNode ==> s'.nodes[i].parent == s.nodes[i].parent;
    forall i | 0 <= i < s'.nextNode
      ensures if Filled(s', i) then NodeOk(s', i) else s'.nodes[i] == RAW && Reserved(s', i)
    {
      if Filled(s, i) {
        SpawnedNode(s, s', n, i);
      } else {
        hide SpawnedTo, Reserved;
        SpawnedReserved(s, s', n, i);
      }
    }
  }

  lemma SpawnedNode(s: State, s': State, n: nat, i: nat)
    requires SpawnedTo(s, s', n) && i < s.nextNode && NodeOk(s, i)
    ensures NodeOk(s', i)
  {
    LocalOf(s, i);
    assert s.nodes[i].parent == Some(n) ==> InRange(s.nodes[n], i);
    assert s'.nextNode == s.nextNode && s'.maxDepth == s.maxDepth && |s'.nodes| == |s.nodes|;
    hide SpawnedTo, LocalOk, UpOk, DownOk, PendingOk;
    SpawnedLocal(s, s', n, i);
    SpawnedUp(s, s', n, i);
    SpawnedDown(s, s', n, i);
    SpawnedPending(s, s', n, i);
  }

  lemma SpawnedReserved(s: State, s': State, n: nat, i: nat)
    requires SpawnedTo(s, s', n) && i < s.nextNode && s.nodes[i] == RAW && Reserved(s, i)
    ensures s'.nextNode <= |s'.nodes| && i < |s'.nodes| && s'.nodes[i] == RAW && Reserved(s', i)
  {
    var p :| 0 <= p < s.nextNode && s.nodes[p].job == Claimed && s.nodes[p].depth < s.maxDepth &&
        InRange(s.nodes[p], i);
    assert s'.nodes[p] == s.nodes[p];
  }

  lemma SpawnedDisjoint(s: State, s': State, n: nat)
    requires SpawnedTo(s, s', n) && Disjoint(s)
    ensures Disjoint(s')
  {
    assert forall i :: 0 <= i < |s.nodes| ==> (HasRange(s'.nodes[i], s.maxDepth) ==>
             HasRange(s.nodes[i], s.maxDepth) && s'.nodes[i].firstChild == s.nodes[i].firstChild);
    hide SpawnedTo, HasRange;
  }

  lemma SpawnedWeight(s: State, s': State, n: nat, i: nat, m: Measure)
    requires SpawnedTo(s, s', n) && Filled(s, n) && i < |s.nodes| && LocalOk(s.nodes[n], s.maxDepth)
    ensures Weight(m, s'.nodes[i], i, s.maxDepth) ==
            Weight(m, s.nodes[i], i, s.maxDepth) - (if m == Steps && i == n then 1 else 0)
  {
    hide NodeCount, TreeSteps, LocalOk;
  }

  lemma {:induction false} SpawnedSums(m: Measure, s: State, s': State, n: nat, k: nat)
    requires SpawnedTo(s, s', n) && Filled(s, n) && k <= |s.nodes| && LocalOk(s.nodes[n], s.maxDepth)
    ensures Sum(m, s'.nodes, s.maxDepth, k) == Sum(m, s.nodes, s.maxDepth, k) - (if m == Steps && n < k then 1 else 0)
    decreases k
  {
    if k > 0 {
      SpawnedWeight(s, s', n, k - 1, m);
      hide Weight, LocalOk;
      SpawnedSums(m, s, s', n, k - 1);
    }
  }

  lemma SpawnedBounds(s: State, s': State, n: nat)
    requires SpawnedTo(s, s', n) && Bounds(s)
    ensures Bounds(s') && s'.nextNode == s.nextNode && s'.maxDepth == s.maxDepth && |s'.nodes| == |s.nodes| &&
            n < s.nextNode <= |s.nodes|
  {
    hide NodeCount;
  }

  /** Spawning the children keeps the invariant. */
  lemma SpawnsChildren(s: State, n: nat)
    requires Inv(s) && n < |s.nodes| && s.nodes[n].job == Prepared
    ensures Advances(s, RunInitial(s, n))
  {
    hide Bounds, Families, Disjoint, Sum, NodeCount, SpawnedTo, Spawns, RunInitial, NodeOk, LocalOk, UpOk, DownOk,
        PendingOk, Spawning;
    SpawningNode(s, n);
    LocalOf(s, n);
    SpawnedForm(s, n);
    var s' := Spawns(s, n);
    SpawnedBounds(s, s', n);
    SpawnedFamilies(s, s', n);
    SpawnedDisjoint(s, s', n);
    SpawnedSums(Slots, s, s', n, s.nextNode);
    SpawnedSums(Steps, s, s', n, s.nextNode);
  }
}
