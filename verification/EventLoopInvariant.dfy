/** What holds of the event loop between its steps. */
module EventLoopInvariant {

  import opened IntrusiveLists
  import opened EventLoopModel

  // ------------------------------------------------------------------ Counters

  function Total(requests: seq<Request>, weight: Request -> int): int
  {
    if requests == [] then 0 else weight(requests[0]) + Total(requests[1..], weight)
  }

  function CountsAsActive(q: Request): int
  {
    if q.state == Active && !q.manual then 1 else 0
  }

  function CountsAsExternal(q: Request): int
  {
    if q.state == Active && !q.manual && q.excluded then 1 else 0
  }

  function CountsAsManual(q: Request): int
  {
    if q.state == Active && q.manual then 1 else 0
  }

  /** The counters agree with the states of the requests. */
  ghost predicate Counts(l: Loop)
  {
    && l.actives == Total(l.requests, CountsAsActive)
    && l.externals == -Total(l.requests, CountsAsExternal)
    && l.manualCount == Total(l.requests, CountsAsManual)
    && l.submitted == |l.submissions|
  }

  // ------------------------------------------------------------------ Lists

  /** Where a request is. */
  datatype View = View(q: Request, submitted: bool, cancelled: bool, manual: bool, listed: bool, waiting: bool)

  function Look(l: Loop, x: ID): View
    requires x < |l.requests|
  {
    var q := l.requests[x];
    View(q, x in l.submissions, x in l.cancellations, x in l.manuals, x in l.listed,
         0 <= q.sequence < |l.sequences| && x in l.sequences[q.sequence].pending)
  }

  /** The state of a request says where it is. `loose`: it is being staged, or its staging has failed and its error
      callback runs. */
  predicate Placed(v: View, loose: bool)
  {
    (v.q.lost ==> v.q.state == Cancelling) &&
    match v.q.state
    case Free => !v.submitted && !v.cancelled && !v.manual && !v.listed && !v.waiting
    case Setup =>
      && !v.cancelled && !v.manual && !v.listed
      && (if loose then !v.submitted && !v.waiting else v.submitted != v.waiting)
    case Submitting => loose && !v.submitted && !v.cancelled && !v.manual && !v.listed && !v.waiting
    case Active =>
      && !v.submitted && !v.cancelled && !v.waiting
      && v.manual == v.q.manual && v.listed == (!v.q.manual && v.q.sequence == NONE)
    case Reactivate => v.submitted == !loose && !v.cancelled && !v.manual && !v.listed && !v.waiting
    case Cancelling =>
      && !v.manual && !v.listed && !v.waiting
      && (if loose || v.q.lost then !v.submitted && !v.cancelled else v.submitted != v.cancelled)
  }

  ghost predicate Views(l: Loop, loose: int)
  {
    forall x :: 0 <= x < |l.requests| ==> Placed(Look(l, x), x == loose)
  }

  predicate ListOk(list: seq<ID>, count: nat)
  {
    Distinct(list) && forall x :: x in list ==> x < count
  }

  predicate Lists(l: Loop)
  {
    && ListOk(l.submissions, |l.requests|) && ListOk(l.cancellations, |l.requests|)
    && ListOk(l.manuals, |l.requests|) && ListOk(l.listed, |l.requests|)
  }

  // ------------------------------------------------------------------ Sequences

  function Tickets(requests: seq<Request>, ids: seq<ID>): (r: seq<nat>)
    ensures |r| == |ids|
  {
    seq(|ids|, k requires 0 <= k < |ids| => TicketOf(requests, ids[k]))
  }

  predicate Increasing(log: seq<nat>, bound: nat)
  {
    && (forall j, k :: 0 <= j < k < |log| ==> log[j] < log[k])
    && (forall k :: 0 <= k < |log| ==> log[k] < bound)
  }

  /** The requests that have left the sequence, then those that wait in it, were started in this order. */
  predicate InOrder(v: Sequence, requests: seq<Request>, tickets: nat)
  {
    Increasing(v.entered + Tickets(requests, v.pending), tickets)
  }

  /** A sequence is tracked exactly while it is running or has requests that wait, and it is running exactly while it
      has a runner. */
  predicate TrackedOk(v: Sequence)
  {
    && (v.tracked <==> v.running || v.pending != [])
    && (v.running <==> v.runner != NONE)
  }

  predicate PendingOk(l: Loop, s: nat)
    requires s < |l.sequences|
  {
    && ListOk(l.sequences[s].pending, |l.requests|)
    && (forall x :: x in l.sequences[s].pending ==> l.requests[x].sequence == s)
  }

  /** The runner is a request of the sequence that is not free and waits no more. */
  predicate RunnerOk(l: Loop, s: nat)
    requires s < |l.sequences|
  {
    var v := l.sequences[s];
    v.runner != NONE ==>
      && 0 <= v.runner < |l.requests| && l.requests[v.runner].sequence == s
      && l.requests[v.runner].state != Free && v.runner !in v.pending
  }

  ghost predicate SequenceOk(l: Loop, s: nat)
    requires s < |l.sequences|
  {
    TrackedOk(l.sequences[s]) && PendingOk(l, s) && RunnerOk(l, s) && InOrder(l.sequences[s], l.requests, l.tickets)
  }

  ghost predicate Sequences(l: Loop)
  {
    && (forall s :: 0 <= s < |l.sequences| ==> SequenceOk(l, s))
    && (forall x :: 0 <= x < |l.requests| ==> -1 <= l.requests[x].sequence < |l.sequences|)
  }

  /** The request is on its way in the sequence: submitted, active, or about to be so again, and not being cancelled. */
  predicate Occupies(l: Loop, x: ID, s: nat)
  {
    && x < |l.requests| && s < |l.sequences| && l.requests[x].sequence == s
    && l.requests[x].state != Free && l.requests[x].state != Cancelling && x !in l.sequences[s].pending
  }

  /** Only the runner occupies its sequence. The request whose callback has just reactivated it is no runner yet. */
  ghost predicate Occupied(l: Loop)
  {
    forall x: ID, s: nat :: Occupies(l, x, s) ==>
      l.phase == Completing(x, true) || (l.sequences[s].running && l.sequences[s].runner == x)
  }

  predicate PhaseOk(l: Loop)
  {
    match l.phase
    case Idle => true
    case Completing(c, reactivated) =>
      && Known(l, c)
      && var q := l.requests[c];
         if reactivated then
           && (q.state == Reactivate || q.state == Active || q.state == Cancelling)
           && (q.sequence != NONE && l.sequences[q.sequence].running ==>
                 q.state != Reactivate && l.sequences[q.sequence].runner == c)
         else q.state == Free || q.state == Setup || q.state == Cancelling
    case Firing(c, _) => Known(l, c) && l.requests[c].sequence == NONE
    case Reporting(c) =>
      && Known(l, c)
      && (l.requests[c].state == Free || l.requests[c].state == Setup || l.requests[c].state == Submitting)
  }

  // ------------------------------------------------------------------ The invariant

  ghost predicate InvAt(l: Loop, loose: int)
  {
    Counts(l) && Lists(l) && Views(l, loose) && Sequences(l) && Occupied(l) && !l.failed
  }

  function Loose(l: Loop): int
  {
    if l.phase.Reporting? then l.phase.request else NONE
  }

  ghost predicate Inv(l: Loop)
  {
    InvAt(l, Loose(l)) && PhaseOk(l)
  }

  /** A loop that has just been created, with requests and sequences that have not been used. */
  predicate Fresh(requests: seq<Request>, sequences: seq<Sequence>)
  {
    && (forall x :: 0 <= x < |requests| ==>
          requests[x].state == Free && !requests[x].lost && -1 <= requests[x].sequence < |sequences|)
    && (forall s :: 0 <= s < |sequences| ==>
          var v := sequences[s]; v.pending == [] && !v.running && v.runner == NONE && !v.tracked && v.entered == [])
  }

  lemma {:induction false} NoneCounted(requests: seq<Request>, weight: Request -> int)
    requires forall x :: 0 <= x < |requests| ==> weight(requests[x]) == 0
    ensures Total(requests, weight) == 0
  {
    if requests != [] {
      NoneCounted(requests[1..], weight);
    }
  }

  lemma {:induction false} TotalPut(requests: seq<Request>, r: nat, q: Request, weight: Request -> int)
    requires r < |requests|
    ensures Total(requests[r := q], weight) == Total(requests, weight) - weight(requests[r]) + weight(q)
  {
    if r == 0 {
      assert requests[r := q][1..] == requests[1..];
    } else {
      TotalPut(requests[1..], r - 1, q, weight);
      assert requests[r := q][1..] == requests[1..][r - 1 := q];
    }
  }

  lemma {:induction false} TotalSame(a: seq<Request>, b: seq<Request>, weight: Request -> int)
    requires |a| == |b| && forall x :: 0 <= x < |a| ==> weight(a[x]) == weight(b[x])
    ensures Total(a, weight) == Total(b, weight)
  {
    if a != [] {
      TotalSame(a[1..], b[1..], weight);
    }
  }

  lemma InitialInv(requests: seq<Request>, sequences: seq<Sequence>)
    requires Fresh(requests, sequences)
    ensures Inv(Initial(requests, sequences))
  {
    NoneCounted(requests, CountsAsActive);
    NoneCounted(requests, CountsAsExternal);
    NoneCounted(requests, CountsAsManual);
  }
}
