/** What holds in every run of the event loop, and exactly when its bookkeeping fails. */
module EventLoopTheorems {

  import opened IntrusiveLists
  import opened EventLoopModel
  import opened EventLoopInvariant
  import opened EventLoopProofs
  import opened EventLoopSteps
  import opened EventLoopDispatch

  // ------------------------------------------------------------------ Every run

  lemma StepKeeps(l: Loop, e: Step)
    requires Inv(l) && May(l, e)
    ensures Inv(Next(l, e))
  {
    hide Inv;
    match e
    case StartStep(r) => StartKeeps(l, r);
    case StopStep(r, onClose) => StopKeeps(l, r, onClose);
    case ExcludeStep(r) => ExcludeKeeps(l, r);
    case IncludeStep(r) => IncludeKeeps(l, r);
    case PostStep(r) => PostKeeps(l, r);
    case ClearStep(s) => ClearPhase(l, s);
    case ReactivateStep(yes, immediate) => ReactivateRequestKeeps(l, yes, immediate);
    case StageStep(a) => StageKeeps(l, a);
    case CompleteStep(r) => CompleteKeeps(l, r);
    case EndCompletionStep(ok) => EndCompletionKeeps(l, ok);
    case FailStep(r) => FailKeeps(l, r);
    case EndReportStep => EndReportKeeps(l);
    case FireStep(r) => FireKeeps(l, r);
    case EndFiringStep => EndFiringKeeps(l);
    case FinishStep(r) => FinishKeeps(l, r);
    case DrainStep(r) => DrainKeeps(l, r);
  }

  lemma {:induction false} RunKeeps(l: Loop, steps: seq<Step>)
    requires Inv(l) && Allowed(l, steps)
    ensures Inv(Run(l, steps))
    decreases |steps|
  {
    if steps != [] {
      StepKeeps(l, steps[0]);
      hide Inv, May, Next;
      RunKeeps(Next(l, steps[0]), steps[1..]);
    }
  }

  /** The loop that a run ends in. */
  function Reached(requests: seq<Request>, sequences: seq<Sequence>, steps: seq<Step>): Loop
    requires Allowed(Initial(requests, sequences), steps)
  {
    Run(Initial(requests, sequences), steps)
  }

  lemma ReachedInv(requests: seq<Request>, sequences: seq<Sequence>, steps: seq<Step>)
    requires Fresh(requests, sequences) && Allowed(Initial(requests, sequences), steps)
    ensures Inv(Reached(requests, sequences, steps))
  {
    InitialInv(requests, sequences);
    RunKeeps(Initial(requests, sequences), steps);
  }

  // ------------------------------------------------------------------ Counters

  function CountsAsIncluded(q: Request): int
  {
    CountsAsActive(q) - CountsAsExternal(q)
  }

  lemma {:induction false} TotalDifference(requests: seq<Request>)
    ensures Total(requests, CountsAsIncluded) == Total(requests, CountsAsActive) - Total(requests, CountsAsExternal)
  {
    if requests != [] {
      TotalDifference(requests[1..]);
    }
  }

  lemma {:induction false} TotalPositive(requests: seq<Request>, weight: Request -> int)
    requires forall x :: 0 <= x < |requests| ==> 0 <= weight(requests[x])
    ensures Total(requests, weight) >= 0
    ensures Total(requests, weight) == 0 <==> forall x :: 0 <= x < |requests| ==> weight(requests[x]) == 0
  {
    if requests != [] {
      TotalPositive(requests[1..], weight);
      assert forall x :: 1 <= x < |requests| ==> requests[x] == requests[1..][x - 1];
    }
  }

  /** In every run the counters agree with the states of the requests. The total that the loop checks before it polls
      is never negative: it is the number of requests that are active, not about to complete without the kernel, and
      not excluded. So the loop goes on exactly while there is something to wait for. */
  lemma CountersExact(requests: seq<Request>, sequences: seq<Sequence>, steps: seq<Step>)
    requires Fresh(requests, sequences) && Allowed(Initial(requests, sequences), steps)
    ensures var l := Reached(requests, sequences, steps);
            && l.actives == Total(l.requests, CountsAsActive) && l.externals == -Total(l.requests, CountsAsExternal)
            && l.manualCount == Total(l.requests, CountsAsManual) && l.submitted == |l.submissions|
            && l.actives + l.externals == Total(l.requests, CountsAsIncluded) >= 0
            && (l.actives + l.externals == 0 && l.manualCount == 0 <==>
                  forall x :: 0 <= x < |l.requests| && l.requests[x].state == Active ==>
                    l.requests[x].excluded && !l.requests[x].manual)
  {
    ReachedInv(requests, sequences, steps);
    var l := Reached(requests, sequences, steps);
    hide Reached;
    TotalDifference(l.requests);
    TotalPositive(l.requests, CountsAsIncluded);
    TotalPositive(l.requests, CountsAsManual);
  }

  /** No release assertion fails, and every request is where its state says. */
  lemma AssertionsHold(requests: seq<Request>, sequences: seq<Sequence>, steps: seq<Step>)
    requires Fresh(requests, sequences) && Allowed(Initial(requests, sequences), steps)
    ensures var l := Reached(requests, sequences, steps);
            && !l.failed
            && forall x :: 0 <= x < |l.requests| && !(l.phase.Reporting? && l.phase.request == x) ==>
                 var v := Look(l, x);
                 && (v.submitted || v.cancelled || v.waiting <==> v.q.state != Free && v.q.state != Active && !v.q.lost)
                 && !(v.submitted && v.cancelled) && !(v.submitted && v.waiting) && !(v.cancelled && v.waiting)
                 && (v.manual <==> v.q.state == Active && v.q.manual)
                 && (v.listed <==> v.q.state == Active && !v.q.manual && v.q.sequence == NONE)
  {
    ReachedInv(requests, sequences, steps);
    var l := Reached(requests, sequences, steps);
    hide Reached, Counts;
    forall x | 0 <= x < |l.requests| ensures Placed(Look(l, x), x == Loose(l)) {
    }
  }

  // ------------------------------------------------------------------ Sequences

  /** Two requests that are under way in a sequence, and not being cancelled, are the same. */
  ghost predicate OneAtATime(l: Loop)
  {
    forall x: ID, y: ID, s: nat :: Occupies(l, x, s) && Occupies(l, y, s) ==> x == y
  }

  lemma OneUnderWay(l: Loop)
    requires Occupied(l) && PhaseOk(l)
    ensures OneAtATime(l)
  {
    forall x: ID, y: ID, s: nat | Occupies(l, x, s) && Occupies(l, y, s) ensures x == y {
    }
  }

  /** In every run a sequence has at most one request under way, its requests leave it in the order in which they were
      started, and it is tracked exactly while it is running or has requests that wait. */
  lemma SequencesInOrder(requests: seq<Request>, sequences: seq<Sequence>, steps: seq<Step>)
    requires Fresh(requests, sequences) && Allowed(Initial(requests, sequences), steps)
    ensures var l := Reached(requests, sequences, steps);
            && OneAtATime(l)
            && forall s :: 0 <= s < |l.sequences| ==>
                 && (l.sequences[s].tracked <==> l.sequences[s].running || l.sequences[s].pending != [])
                 && Increasing(l.sequences[s].entered + Tickets(l.requests, l.sequences[s].pending), l.tickets)
  {
    ReachedInv(requests, sequences, steps);
    var l := Reached(requests, sequences, steps);
    hide Reached, Views, Counts;
    OneUnderWay(l);
    hide Increasing;
    forall s | 0 <= s < |l.sequences|
      ensures l.sequences[s].tracked <==> l.sequences[s].running || l.sequences[s].pending != []
      ensures Increasing(l.sequences[s].entered + Tickets(l.requests, l.sequences[s].pending), l.tickets)
    {
      assert SequenceOk(l, s);
    }
  }

  /** When a request completes and is not reactivated, the oldest request that waits in its sequence is submitted,
      unless a request that the callback has started has the sequence already. */
  lemma HandsOver(l: Loop, ok: bool)
    requires Inv(l) && l.phase.Completing? && !l.phase.reactivated && Known(l, l.phase.request)
    requires var s := l.requests[l.phase.request].sequence; s != NONE && (ok || !l.sequences[s].clearOnError)
    ensures var s := l.requests[l.phase.request].sequence;
            var v, l' := l.sequences[s], EndCompletion(l, ok);
            && (v.pending != [] ==> l'.sequences[s].running)
            && (v.pending != [] && !v.running ==>
                  && l'.sequences[s].runner == v.pending[0] && l'.sequences[s].pending == v.pending[1..]
                  && l'.submissions == l.submissions + [v.pending[0]])
            && (v.pending == [] && !v.running ==> !l'.sequences[s].tracked)
  {
    assert SequenceOk(l, l.requests[l.phase.request].sequence);
  }

  // ------------------------------------------------------------------ Where the bookkeeping fails

  /** The number of submissions is right after a request has been stopped, unless the request still waits in its
      sequence or its error callback is stopping it after its staging has failed. */
  lemma StopExact(l: Loop, r: ID, onClose: bool)
    requires Inv(l) && Known(l, r)
    ensures Stop(l, r, onClose).submitted == |Stop(l, r, onClose).submissions| <==>
            !Waiting(l, r) && !(l.phase == Reporting(r) && l.requests[r].state != Free)
  {
    About(l, r, Loose(l));
    ListWithout(l.submissions, r, |l.requests|);
    hide Without, Views, Sequences, Occupied, Distinct;
  }

  /** Every request is where its state says once an error callback has returned that has started a request, unless that
      request is its own. */
  lemma RestartExact(l: Loop, r: ID)
    requires Inv(l) && l.phase.Reporting? && Known(l, r) && l.requests[r].state == Free
    ensures var l' := Start(l, r);
            && l'.phase == l.phase && Known(l', l'.phase.request)
            && (Views(EndReport(l'), NONE) <==> r != l.phase.request)
  {
    var l', c := Start(l, r), l.phase.request;
    StartedPhase(l, r);
    if r == c {
      RestartedByItsError(l, r);
      FreeNowhere(EndReport(l'), r);
      hide Inv, Start, EndReport;
    } else {
      StartKeeps(l, r);
      EndReportKeeps(l');
      hide Start, EndReport;
    }
  }

  lemma FreeNowhere(l: Loop, r: ID)
    requires Known(l, r) && l.requests[r].state == Free && (r in l.submissions || Waiting(l, r))
    ensures !Views(l, NONE)
  {
    assert !Placed(Look(l, r), r == NONE);
  }

  lemma StartedPhase(l: Loop, r: ID)
    requires Known(l, r) && l.phase.Reporting? && Known(l, l.phase.request) && l.requests[r].state == Free
    ensures var l' := Start(l, r); l'.phase == l.phase && Known(l', l'.phase.request)
  {
  }

  /** A request that its own error callback starts again is free when the callback has returned, although it is
      submitted or waits in its sequence. */
  lemma RestartedByItsError(l: Loop, r: ID)
    requires Inv(l) && l.phase == Reporting(r) && Known(l, r) && l.requests[r].state == Free
    ensures var l' := Start(l, r);
            && l'.phase == l.phase && Known(l', r)
            && var end := EndReport(l');
               && Known(end, r) && end.phase == Idle && end.requests[r].state == Free
               && (r in end.submissions || Waiting(end, r))
  {
    StartedSomewhere(l, r);
    EndFrees(Start(l, r), r);
    hide Inv, Start, EndReport;
  }

  lemma StartedSomewhere(l: Loop, r: ID)
    requires Known(l, r) && l.requests[r].state == Free
    ensures var l' := Start(l, r);
            l'.phase == l.phase && Known(l', r) && l'.requests[r].state == Setup &&
                (r in l'.submissions || Waiting(l', r))
  {
    var s := l.requests[r].sequence;
    if s != NONE {
      var pending := l.sequences[s].pending + [r];
      assert pending == [pending[0]] + pending[1..] && pending[|pending| - 1] == r;
      assert r == pending[0] || r in pending[1..];
    }
  }

  lemma EndFrees(l: Loop, r: ID)
    requires l.phase == Reporting(r) && Known(l, r) && l.requests[r].state == Setup &&
             (r in l.submissions || Waiting(l, r))
    ensures var end := EndReport(l);
            && Known(end, r) && end.phase == Idle && end.requests[r].state == Free
            && (r in end.submissions || Waiting(end, r))
  {
    hide Released;
  }

  /** The loop fails when it gets to a request that is free. */
  lemma StagingFreeFails(l: Loop, a: Answer)
    requires l.submissions != [] && Known(l, l.submissions[0])
    ensures l.requests[l.submissions[0]].state == Free ==> Stage(l, a).failed
  {
  }

  /** A request whose completion is ready, and for which the kernel then reports an error, stays in the list of ready
      completions although it is free: the loop fails when it gets to it. */
  lemma ErrorWhileReady(l: Loop, r: ID)
    requires Inv(l) && l.phase == Idle && Known(l, r) && l.requests[r].state == Active && l.requests[r].manual
    ensures Known(Report(l, r), r) && Report(l, r).phase == Reporting(r)
    ensures var l' := EndReport(Report(l, r));
            l'.requests[r].state == Free && r in l'.manuals && Known(l', r) && Complete(l', r).failed
  {
    About(l, r, NONE);
    ReportLeaves(l, r);
    EndLeaves(Report(l, r), r);
    hide Inv, Without, Report, EndReport, RemoveActiveHandle, SequenceOk;
    CompletingFreeFails(EndReport(Report(l, r)), r);
  }

  lemma EndLeaves(l: Loop, r: ID)
    requires l.phase == Reporting(r) && Known(l, r) && l.requests[r].state == Free
    ensures var l' := EndReport(l); Known(l', r) && l'.requests[r].state == Free && l'.manuals == l.manuals
  {
    hide Released;
  }

  lemma CompletingFreeFails(l: Loop, r: ID)
    requires Known(l, r) && l.requests[r].state == Free
    ensures Complete(l, r).failed
  {
    hide Released, Without;
  }

  lemma ReportLeaves(l: Loop, r: ID)
    requires Known(l, r) && l.requests[r].state == Active
    requires l.requests[r].sequence != NONE ==> r !in l.sequences[l.requests[r].sequence].pending
    ensures var l' := Report(l, r);
            Known(l', r) && l'.phase == Reporting(r) && l'.requests[r].state == Free && l'.manuals == l.manuals
  {
    hide Released, Without;
  }

  /** Every request is where its state says once an error of the kernel has been reported, exactly if its completion was
      not ready. */
  lemma FailExact(l: Loop, r: ID)
    requires Inv(l) && l.phase == Idle && Known(l, r) && l.requests[r].state == Active
    ensures var l' := Report(l, r);
            l'.phase == Reporting(r) && Known(l', r) && (Views(EndReport(l'), NONE) <==> !l.requests[r].manual)
  {
    About(l, r, NONE);
    hide Inv, Report, EndReport, Released, Without, SequenceOk;
    ReportLeaves(l, r);
    EndLeaves(Report(l, r), r);
    if l.requests[r].manual {
      ReadyNowhere(EndReport(Report(l, r)), r);
    } else {
      FailKeeps(l, r);
      EndReportKeeps(Report(l, r));
      InvViews(EndReport(Report(l, r)));
    }
  }

  lemma InvViews(l: Loop)
    requires Inv(l) && l.phase == Idle
    ensures Views(l, NONE)
  {
  }

  lemma ReadyNowhere(l: Loop, r: ID)
    requires Known(l, r) && l.requests[r].state == Free && r in l.manuals
    ensures !Views(l, NONE)
  {
    assert !Placed(Look(l, r), r == NONE);
  }

  /** A callback that has reactivated its request and then starts another of the sequence puts two under way; no other
      start does. */
  lemma StartExact(l: Loop, r: ID)
    requires Inv(l) && Known(l, r) && l.requests[r].state == Free && l.phase != Reporting(r)
    ensures OneAtATime(Start(l, r)) <==>
            !(l.phase.Completing? && l.requests[r].sequence != NONE &&
              l.phase.reactivated && Occupies(l, l.phase.request, l.requests[r].sequence) &&
              !l.sequences[l.requests[r].sequence].running)
  {
    var s := l.requests[r].sequence;
    if MayStart(l, r) {
      StartKeeps(l, r);
      OneUnderWay(Start(l, r));
    } else {
      StartedBeside(l, r);
    }
  }

  /** A start on a sequence that is not running puts its oldest request under way. */
  lemma StartedOccupies(l: Loop, r: ID, x: ID, t: nat)
    requires Inv(l) && Known(l, r) && l.requests[r].state == Free
    requires var s := l.requests[r].sequence; s != NONE && !l.sequences[s].running
    ensures var s := l.requests[r].sequence;
            Occupies(Start(l, r), x, t) <==> Occupies(l, x, t) || (t == s && x == (l.sequences[s].pending + [r])[0])
  {
    var s, l' := l.requests[r].sequence, Start(l, r);
    var was := l.sequences[s].pending;
    var pending := was + [r];
    assert SequenceOk(l, s);
    About(l, r, Loose(l));
    PendingSetup(l, s, Loose(l));
    assert r !in was;
    ListAppended(was, r, |l.requests|);
    ListTaken(pending, |l.requests|);
    assert l'.sequences[s].pending == pending[1..] && l'.requests[r].state == Setup;
    assert forall y :: 0 <= y < |l.requests| && y != r ==> l'.requests[y] == l.requests[y];
    assert forall s' :: 0 <= s' < |l.sequences| && s' != s ==> l'.sequences[s'] == l.sequences[s'];
    assert |l'.requests| == |l.requests| && |l'.sequences| == |l.sequences| && l'.requests[r].sequence == s;
    hide Inv, SequenceOk, Start, Distinct;
    if t == s && x != r && x < |l.requests| {
      assert x in pending[1..] || x == pending[0] <==> x in was;
    }
  }

  /** The case of a request in the sequence of the one that its callback has reactivated. */
  lemma StartedBeside(l: Loop, r: ID)
    requires Inv(l) && Known(l, r) && l.requests[r].state == Free
    requires l.phase.Completing? && l.phase.reactivated && Known(l, l.phase.request)
    requires var s := l.requests[r].sequence; s != NONE && s == l.requests[l.phase.request].sequence
    ensures OneAtATime(Start(l, r)) <==>
            !(Occupies(l, l.phase.request, l.requests[r].sequence) && !l.sequences[l.requests[r].sequence].running)
  {
    var c, s, l' := l.phase.request, l.requests[r].sequence, Start(l, r);
    OneUnderWay(l);
    if l.sequences[s].running {
      hide Views, Sequences, Counts, Lists, Occupied, InOrder;
      forall x: ID, y: ID, t: nat | Occupies(l', x, t) && Occupies(l', y, t) ensures x == y {
        assert Occupies(l, x, t) && Occupies(l, y, t);
      }
    } else {
      var p := (l.sequences[s].pending + [r])[0];
      forall x: ID, t: nat ensures Occupies(l', x, t) <==> Occupies(l, x, t) || (t == s && x == p) {
        StartedOccupies(l, r, x, t);
      }
      assert !Occupies(l, p, s) by {
        assert SequenceOk(l, s);
        PendingSetup(l, s, NONE);
      }
      OthersBeside(l, c, s);
      hide Inv, Start, Occupies;
      assert Occupies(l', p, s);
      assert Occupies(l, c, s) ==> Occupies(l', c, s);
    }
  }

  /** While the reactivated request waits for the end of its callback, no other is under way in its sequence. */
  lemma OthersBeside(l: Loop, c: ID, s: nat)
    requires Inv(l) && l.phase == Completing(c, true) && s < |l.sequences| && !l.sequences[s].running
    ensures forall x: ID :: Occupies(l, x, s) ==> x == c
  {
  }

  /** A callback that reactivates its request puts two requests of a sequence under way exactly if another is under
      way there already, because the callback has started it. */
  lemma ReactivateExact(l: Loop, yes: bool, immediate: bool)
    requires Inv(l) && l.phase.Completing? && Known(l, l.phase.request)
    ensures var c := l.phase.request;
            var s := l.requests[c].sequence;
            OneAtATime(ReactivateRequest(l, yes, immediate)) <==>
            !(yes && l.requests[c].state == Free && s != NONE && exists x: ID :: x != c && Occupies(l, x, s))
  {
    var c, l' := l.phase.request, ReactivateRequest(l, yes, immediate);
    var s := l.requests[c].sequence;
    OneUnderWay(l);
    forall x: ID, t: nat
      ensures Occupies(l', x, t) ==> Occupies(l, x, t) || (yes && l.requests[c].state == Free && x == c && t == s)
      ensures Occupies(l, x, t) && x != c ==> Occupies(l', x, t)
    {
      ReactivatedOccupies(l, yes, immediate, x, t);
    }
    if yes && l.requests[c].state == Free && s != NONE {
      ReactivatedItself(l, immediate);
    }
    hide Inv, ReactivateRequest, Occupies;
  }

  lemma ReactivatedOccupies(l: Loop, yes: bool, immediate: bool, x: ID, t: nat)
    requires Inv(l) && l.phase.Completing? && Known(l, l.phase.request)
    ensures var c, l' := l.phase.request, ReactivateRequest(l, yes, immediate);
            && (Occupies(l', x, t) ==>
                  Occupies(l, x, t) || (yes && l.requests[c].state == Free && x == c && t == l.requests[c].sequence))
            && (Occupies(l, x, t) && x != c ==> Occupies(l', x, t))
  {
    hide Inv, Without;
  }

  lemma ReactivatedItself(l: Loop, immediate: bool)
    requires Inv(l) && l.phase.Completing? && Known(l, l.phase.request)
    requires l.requests[l.phase.request].state == Free && l.requests[l.phase.request].sequence != NONE
    ensures Occupies(ReactivateRequest(l, true, immediate), l.phase.request, l.requests[l.phase.request].sequence)
  {
    About(l, l.phase.request, NONE);
    hide Inv, Without, SequenceOk;
  }
}
