/** The Skynet fork/join benchmark on jobs: every atomic step that a worker thread can take, so that a
    run is any interleaving of them. */
module SkynetModel {

  import opened Wrappers

  const FAN := 10

  /** Where the initial job of a node stands. `Completing` is about to decrement the parent's counter;
      `Resuming` has decremented it to zero and is about to spawn the parent's continuation. */
  datatype Job = Unspawned | Ready | Claimed | Prepared | Completing | Resuming | Finished

  /** Where the continuation of a node stands; `Summing(k)` has added the results of k children. */
  datatype Continuation = Idle | Queued | Summing(k: nat) | Finishing | Waking | Over

  datatype Node = Node(
    job: Job, continuation: Continuation,
    parent: Option<nat>, base: nat, depth: nat, firstChild: nat, pending: int, result: nat,
    spawns: nat) // how often its continuation has been spawned

  /** `failed` counts the errors that the jobs have recorded. */
  datatype State = State(maxDepth: nat, nodes: seq<Node>, nextNode: nat, failed: nat)

  datatype Actor = Initial(node: nat) | Continued(node: nat)

  const RAW := Node(Unspawned, Idle, None, 0, 0, 0, 0, 0, 0)

  function PowerOfTen(exponent: nat): (r: nat)
    ensures r >= 1
  {
    if exponent == 0 then 1 else 10 * PowerOfTen(exponent - 1)
  }

  /** The nodes of a tree with so many levels below its root. */
  function NodeCount(depth: nat): (r: nat)
    ensures r >= 1
  {
    if depth == 0 then 1 else 1 + FAN * NodeCount(depth - 1)
  }

  function SetNode(s: State, n: nat, x: Node): State
    requires n < |s.nodes|
  {
    s.(nodes := s.nodes[n := x])
  }

  function Fail(s: State): State
  {
    s.(failed := s.failed + 1)
  }

  /** The node of a child while its parent prepares it. */
  function ChildNode(s: State, n: nat, index: nat): Node
    requires n < |s.nodes|
  {
    var x := s.nodes[n];
    var offset := if x.depth < s.maxDepth then PowerOfTen(s.maxDepth - x.depth - 1) else 0;
    RAW.(parent := Some(n), base := x.base + offset * index, depth := x.depth + 1)
  }

  /** Children from `index` on get their parent, base number and depth. */
  function Fill(s: State, n: nat, index: nat): (nodes: seq<Node>)
    requires n < |s.nodes| && index <= FAN && s.nodes[n].firstChild + FAN <= |s.nodes|
    ensures |nodes| == |s.nodes|
    ensures forall j :: 0 <= j < |nodes| ==>
              nodes[j] == if s.nodes[n].firstChild + index <= j < s.nodes[n].firstChild + FAN
                          then ChildNode(s, n, j - s.nodes[n].firstChild) else s.nodes[j]
    decreases FAN - index
  {
    if index == FAN then s.nodes
    else Fill(s, n, index + 1)[s.nodes[n].firstChild + index := ChildNode(s, n, index)]
  }

  /** spawn of a batch of ten initial jobs. */
  function SpawnChildren(s: State, first: nat, index: nat): (nodes: seq<Node>)
    requires index <= FAN && first + FAN <= |s.nodes|
    ensures |nodes| == |s.nodes|
    ensures forall j :: 0 <= j < |nodes| ==>
              nodes[j] == if first + index <= j < first + FAN then s.nodes[j].(job := Ready) else s.nodes[j]
    decreases FAN - index
  {
    if index == FAN then s.nodes
    else SpawnChildren(s, first, index + 1)[first + index := s.nodes[first + index].(job := Ready)]
  }

  /** completeFiberJobSkynetNode up to the decrement; the answer says that the continuation is due. */
  function Decrement(s: State, n: nat): (State, bool)
    requires n < |s.nodes|
  {
    match s.nodes[n].parent
    case None => (s, false)
    case Some(p) =>
      if p >= |s.nodes| then (Fail(s), false)
      else
        var previous := s.nodes[p].pending;
        var s1 := SetNode(s, p, s.nodes[p].(pending := previous - 1));
        if previous > 0 then (s1, previous == 1) else (Fail(s1), false)
  }

  /** spawnFiberJobSkynetContinuation on the parent; a job that is not idle cannot be spawned. */
  function Wake(s: State, n: nat): State
    requires n < |s.nodes|
  {
    match s.nodes[n].parent
    case None => s
    case Some(p) =>
      if p >= |s.nodes| || s.nodes[p].continuation != Idle then Fail(s)
      else SetNode(s, p, s.nodes[p].(continuation := Queued, spawns := s.nodes[p].spawns + 1))
  }

  predicate Enabled(s: State, a: Actor)
  {
    a.node < |s.nodes| &&
    match a
    case Initial(n) => s.nodes[n].job != Unspawned && s.nodes[n].job != Finished
    case Continued(n) => s.nodes[n].continuation != Idle && s.nodes[n].continuation != Over
  }

  function RunInitial(s: State, n: nat): State
    requires n < |s.nodes|
  {
    var x := s.nodes[n];
    match x.job
    case Ready =>
      if x.depth == s.maxDepth then SetNode(s, n, x.(result := x.base, job := Completing))
      else SetNode(s, n, x.(firstChild := s.nextNode, job := Claimed)).(nextNode := s.nextNode + FAN)
    case Claimed =>
      if x.firstChild + FAN > |s.nodes| then Fail(SetNode(s, n, x.(job := Finished)))
      else
        var nodes := Fill(s, n, 0);
        s.(nodes := nodes[n := x.(pending := FAN, job := Prepared)])
    case Prepared =>
      if x.firstChild + FAN > |s.nodes| then Fail(SetNode(s, n, x.(job := Finished)))
      else s.(nodes := SpawnChildren(s, x.firstChild, 0)[n := x.(job := Finished)])
    case Completing =>
      var (s1, last) := Decrement(s, n);
      SetNode(s1, n, s1.nodes[n].(job := if last then Resuming else Finished))
    case Resuming =>
      var s1 := Wake(s, n);
      SetNode(s1, n, s1.nodes[n].(job := Finished))
    case _ => s
  }

  function RunContinued(s: State, n: nat): State
    requires n < |s.nodes|
  {
    var x := s.nodes[n];
    match x.continuation
    case Queued => SetNode(s, n, x.(continuation := Summing(0)))
    case Summing(k) =>
      if k == FAN then SetNode(s, n, x.(continuation := if x.parent.None? then Over else Finishing))
      else if x.firstChild + k >= |s.nodes| then Fail(SetNode(s, n, x.(continuation := Over)))
      else SetNode(s, n, x.(result := x.result + s.nodes[x.firstChild + k].result, continuation := Summing(k + 1)))
    case Finishing =>
      var (s1, last) := Decrement(s, n);
      SetNode(s1, n, s1.nodes[n].(continuation := if last then Waking else Over))
    case Waking =>
      var s1 := Wake(s, n);
      SetNode(s1, n, s1.nodes[n].(continuation := Over))
    case _ => s
  }

  function Step(s: State, a: Actor): State
  {
    if !Enabled(s, a) then s
    else match a
      case Initial(n) => RunInitial(s, n)
      case Continued(n) => RunContinued(s, n)
  }

  function Run(s: State, schedule: seq<Actor>): State
    decreases |schedule|
  {
    if schedule == [] then s else Run(Step(s, schedule[0]), schedule[1..])
  }

  /** Every step of the schedule is one that some thread can take. */
  predicate Schedulable(s: State, schedule: seq<Actor>)
    decreases |schedule|
  {
    schedule == [] || (Enabled(s, schedule[0]) && Schedulable(Step(s, schedule[0]), schedule[1..]))
  }

  /** measure has reset the nodes and spawned the job of the root. */
  predicate Started(s: State)
  {
    && |s.nodes| == NodeCount(s.maxDepth) && s.nextNode == 1 && s.failed == 0
    && s.nodes[0] == RAW.(job := Ready)
    && forall i :: 0 < i < |s.nodes| ==> s.nodes[i] == RAW
  }
}
