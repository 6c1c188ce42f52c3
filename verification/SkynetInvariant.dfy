/** What holds of a Skynet run between any two atomic steps. */
module SkynetInvariant {

  import opened Wrappers
  import opened SkynetModel

  // ------------------------------------------------------------------ Values

  /** The sum of the numbers of m leaves, the first of which is b. */
  function Value(b: nat, m: nat): nat
  {
    m * b + m * (m - 1) / 2
  }

  /** The results of the first k children, each of which covers m leaves. */
  function Partial(b: nat, m: nat, k: nat): nat
  {
    if k == 0 then 0 else Partial(b, m, k - 1) + Value(b + m * (k - 1), m)
  }

  // ------------------------------------------------------------------ One node

  /** The node has ten slots of its own in the array. */
  predicate HasRange(x: Node, depth: nat)
  {
    x.depth < depth && (x.job == Claimed || x.job == Prepared || x.job == Finished)
  }

  /** Its children have been prepared. */
  predicate Expanded(x: Node, depth: nat)
  {
    x.depth < depth && (x.job == Prepared || x.job == Finished)
  }

  /** It has decremented its parent's counter. */
  predicate Done(x: Node, depth: nat)
  {
    if x.depth >= depth then x.job == Resuming || x.job == Finished
    else x.continuation == Waking || x.continuation == Over
  }

  /** It owes its parent a continuation. */
  predicate Owes(x: Node)
  {
    x.job == Resuming || x.continuation == Waking
  }

  predicate LocalOk(x: Node, depth: nat)
  {
    && x.depth <= depth
    && x.spawns == (if x.continuation == Idle then 0 else 1)
    && (x.continuation == Finishing ==> x.parent.Some?)
    && if x.depth == depth then
         && x.continuation == Idle
         && (x.job == Unspawned || x.job == Ready || x.job == Completing || x.job == Resuming || x.job == Finished)
         && x.result == (if x.job == Unspawned || x.job == Ready then 0 else Value(x.base, 1))
       else
         && (x.job == Unspawned || x.job == Ready || x.job == Claimed || x.job == Prepared || x.job == Finished)
         && (x.continuation != Idle ==> x.job == Finished && x.pending == 0)
         && match x.continuation
            case Idle => x.result == 0
            case Queued => x.result == 0
            case Summing(k) => k <= FAN && x.result == Partial(x.base, PowerOfTen(depth - x.depth - 1), k)
            case _ => x.result == Value(x.base, PowerOfTen(depth - x.depth))
  }

  // ------------------------------------------------------------------ A node and its family

  function DoneCount(nodes: seq<Node>, depth: nat, first: nat, k: nat): (r: nat)
    requires first + k <= |nodes|
    ensures r <= k
  {
    if k == 0 then 0 else DoneCount(nodes, depth, first, k - 1) + (if Done(nodes[first + k - 1], depth) then 1 else 0)
  }

  predicate InRange(x: Node, i: int)
  {
    x.firstChild <= i < x.firstChild + FAN
  }

  ghost predicate UpOk(s: State, i: nat)
    requires i < |s.nodes|
  {
    var x := s.nodes[i];
    match x.parent
    case None => i == 0 && x.depth == 0 && x.base == 0 && x.job != Unspawned && !Owes(x)
    case Some(p) =>
      && i != 0 && p < s.nextNode <= |s.nodes|
      && var y := s.nodes[p];
      && Expanded(y, s.maxDepth) && InRange(y, i) && (p == 0 || y.parent.Some?)
      && x.depth == y.depth + 1 && x.base == y.base + PowerOfTen(s.maxDepth - y.depth - 1) * (i - y.firstChild)
      && (x.job == Unspawned <==> y.job == Prepared)
      && (Owes(x) ==> y.pending == 0 && y.continuation == Idle)
  }

  ghost predicate DownOk(s: State, i: nat)
    requires i < |s.nodes|
  {
    var x := s.nodes[i];
    HasRange(x, s.maxDepth) ==>
      && 1 <= x.firstChild && x.firstChild + FAN <= s.nextNode <= |s.nodes|
      && forall j :: InRange(x, j) ==> if x.job == Claimed then s.nodes[j] == RAW else s.nodes[j].parent == Some(i)
  }

  /** The counter is the number of children that have not decremented it yet, and the last one that
      has owes the continuation until it has spawned it. */
  ghost predicate PendingOk(s: State, i: nat)
    requires i < |s.nodes|
  {
    var x := s.nodes[i];
    Expanded(x, s.maxDepth) && x.firstChild + FAN <= |s.nodes| ==>
      && x.pending == FAN - DoneCount(s.nodes, s.maxDepth, x.firstChild, FAN)
      && (x.pending == 0 && x.continuation == Idle ==> exists j :: InRange(x, j) && Owes(s.nodes[j]))
      && (forall j, l :: InRange(x, j) && InRange(x, l) && Owes(s.nodes[j]) && Owes(s.nodes[l]) ==> j == l)
  }

  ghost predicate NodeOk(s: State, i: nat)
    requires i < |s.nodes|
  {
    LocalOk(s.nodes[i], s.maxDepth) && UpOk(s, i) && DownOk(s, i) && PendingOk(s, i)
  }

  /** The node is part of the tree. */
  predicate Filled(s: State, i: nat)
    requires i < |s.nodes|
  {
    i == 0 || s.nodes[i].parent.Some?
  }

  /** The ranges that two nodes have claimed do not overlap. */
  ghost predicate Disjoint(s: State)
    requires s.nextNode <= |s.nodes|
  {
    forall p, q :: 0 <= p < s.nextNode && 0 <= q < s.nextNode && p != q
                   && HasRange(s.nodes[p], s.maxDepth) && HasRange(s.nodes[q], s.maxDepth) ==>
      || s.nodes[p].firstChild + FAN <= s.nodes[q].firstChild
      || s.nodes[q].firstChild + FAN <= s.nodes[p].firstChild
  }

  /** A slot that has been claimed but not prepared belongs to a node that is about to do so. */
  ghost predicate Reserved(s: State, i: nat)
    requires s.nextNode <= |s.nodes|
  {
    exists p :: 0 <= p < s.nextNode && s.nodes[p].job == Claimed && s.nodes[p].depth < s.maxDepth &&
        InRange(s.nodes[p], i)
  }

  // ------------------------------------------------------------------ Two sums over the tree

  datatype Measure = Slots | Steps

  /** The steps left for a subtree that has not been entered. */
  function TreeSteps(levels: nat): nat
  {
    if levels == 0 then 3 else 17 + FAN * TreeSteps(levels - 1)
  }

  function ContinuationSteps(c: Continuation): int
  {
    match c
    case Idle => 14
    case Queued => 14
    case Summing(k) => 13 - k
    case Finishing => 2
    case Waking => 1
    case Over => 0
  }

  /** What a node contributes: the slots that its subtree needs and the slots claimed for it have not
      been counted for elsewhere, or the steps its subtree can still take. */
  function Weight(m: Measure, x: Node, i: nat, depth: nat): int
  {
    if i != 0 && x.parent.None? then (if m == Slots then 1 else 0)
    else if x.depth >= depth then
      if m == Slots then 1
      else match x.job
        case Completing => 2
        case Resuming => 1
        case Finished => 0
        case _ => 3
    else match x.job
      case Claimed => if m == Slots then NodeCount(depth - x.depth) - FAN else TreeSteps(depth - x.depth) - 1
      case Prepared => if m == Slots then 1 else 1 + ContinuationSteps(x.continuation)
      case Finished => if m == Slots then 1 else ContinuationSteps(x.continuation)
      case _ => if m == Slots then NodeCount(depth - x.depth) else TreeSteps(depth - x.depth)
  }

  function Sum(m: Measure, nodes: seq<Node>, depth: nat, k: nat): int
    requires k <= |nodes|
  {
    if k == 0 then 0 else Sum(m, nodes, depth, k - 1) + Weight(m, nodes[k - 1], k - 1, depth)
  }

  predicate Bounds(s: State)
  {
    && |s.nodes| == NodeCount(s.maxDepth) && 1 <= s.nextNode <= |s.nodes| && s.failed == 0
    && (forall i :: s.nextNode <= i < |s.nodes| ==> s.nodes[i] == RAW)
  }

  ghost predicate Families(s: State)
    requires s.nextNode <= |s.nodes|
  {
    forall i :: 0 <= i < s.nextNode ==> if Filled(s, i) then NodeOk(s, i) else s.nodes[i] == RAW && Reserved(s, i)
  }

  /** The slots claimed and the slots still needed are together the nodes of the whole tree. */
  predicate Counted(s: State)
    requires s.nextNode <= |s.nodes|
  {
    Sum(Slots, s.nodes, s.maxDepth, s.nextNode) == NodeCount(s.maxDepth)
  }

  ghost predicate Inv(s: State)
  {
    Bounds(s) && Families(s) && Disjoint(s) && Counted(s)
  }
}
