/** A request that waits in a sequence is not forgotten, unless something in the sequence has failed; and the one case
    in which it is. */
module EventLoopProgress {

  import opened IntrusiveLists
  import opened EventLoopModel
  import opened EventLoopInvariant
  import opened EventLoopProofs
  import opened EventLoopSteps
  import opened EventLoopDispatch
  import opened EventLoopTheorems

  predicate BeingCancelled(l: Loop, x: ID, s: nat)
  {
    x < |l.requests| && l.requests[x].sequence == s && l.requests[x].state == Cancelling && !l.requests[x].lost
  }

  /** The callback of a request of the sequence is running. */
  predicate CompletingIn(l: Loop, s: nat)
  {
    l.phase.Completing? && l.phase.request < |l.requests| && l.requests[l.phase.request].sequence == s
  }

  /** If requests wait in a sequence that is not running, somebody will resume it. */
  ghost predicate FlowAt(l: Loop, s: nat)
    requires s < |l.sequences|
  {
    var v := l.sequences[s];
    !v.clearOnCancel && v.failures == 0 && v.pending != [] && !v.running ==>
      CompletingIn(l, s) || exists x: ID :: BeingCancelled(l, x, s)
  }

  ghost predicate Flows(l: Loop)
  {
    && (forall s :: 0 <= s < |l.sequences| ==> FlowAt(l, s))
    && (l.phase.Reporting? && Known(l, l.phase.request) && l.requests[l.phase.request].sequence != NONE ==>
          l.sequences[l.requests[l.phase.request].sequence].failures > 0)
  }

  /** Nothing that would resume the sequence goes away, and nothing starts to wait in it. */
  ghost predicate Calm(l: Loop, l': Loop, s: nat)
    requires s < |l.sequences| && s < |l'.sequences|
  {
    var v, v' := l.sequences[s], l'.sequences[s];
    && v'.clearOnCancel == v.clearOnCancel && v'.failures >= v.failures
    && (v'.pending != [] && !v'.running ==> v.pending != [] && !v.running)
    && (forall x: ID :: BeingCancelled(l, x, s) ==> BeingCancelled(l', x, s))
    && (CompletingIn(l, s) ==> CompletingIn(l', s))
  }

  lemma CalmFlows(l: Loop, l': Loop, s: nat)
    requires s < |l.sequences| && s < |l'.sequences| && FlowAt(l, s) && Calm(l, l', s)
    ensures FlowAt(l', s)
  {
    var v' := l'.sequences[s];
    if !v'.clearOnCancel && v'.failures == 0 && v'.pending != [] && !v'.running && !CompletingIn(l', s) {
      var x: ID :| BeingCancelled(l, x, s);
      assert BeingCancelled(l', x, s);
    }
  }

  /** A step that concerns the requests of one sequence only, and is settled there. */
  ghost predicate Elsewhere(l: Loop, l': Loop, own: int)
  {
    && |l'.requests| == |l.requests| && |l'.sequences| == |l.sequences|
    && (forall s :: 0 <= s < |l.sequences| && s != own ==> l'.sequences[s] == l.sequences[s])
    && (forall x :: 0 <= x < |l.requests| ==> l'.requests[x].sequence == l.requests[x].sequence)
    && (forall x :: 0 <= x < |l.requests| && l.requests[x].sequence != own && l.requests[x].state == Cancelling ==>
          l'.requests[x].state == Cancelling && l'.requests[x].lost == l.requests[x].lost)
    && (l'.phase == l.phase || !l.phase.Completing? || (l'.phase.Completing? && l'.phase.request == l.phase.request) ||
        (l.phase.request < |l.requests| && l.requests[l.phase.request].sequence == own))
  }

  lemma ElsewhereFlows(l: Loop, l': Loop, own: int)
    requires Flows(l) && Elsewhere(l, l', own) && (0 <= own < |l'.sequences| ==> FlowAt(l', own))
    ensures forall s :: 0 <= s < |l'.sequences| ==> FlowAt(l', s)
  {
    forall s | 0 <= s < |l'.sequences| ensures FlowAt(l', s) {
      if s != own {
        assert FlowAt(l, s);
        CalmFlows(l, l', s);
      }
    }
  }

  /** The failures of the sequences stay, and so does the phase. */
  predicate FailuresStay(l: Loop, l': Loop)
  {
    && l'.phase == l.phase && |l'.sequences| == |l.sequences|
    && forall s :: 0 <= s < |l.sequences| ==> l'.sequences[s].failures == l.sequences[s].failures
  }

  lemma ElsewhereThen(l: Loop, l1: Loop, l2: Loop, own: int)
    requires Elsewhere(l, l1, own) && Elsewhere(l1, l2, own) && l1.phase == l.phase
    ensures Elsewhere(l, l2, own)
  {
  }

  lemma RemoveElsewhere(l: Loop, r: ID)
    requires Known(l, r) && l.requests[r].state == Active
    ensures Elsewhere(l, RemoveActiveHandle(l, r), l.requests[r].sequence) && FailuresStay(l, RemoveActiveHandle(l, r))
  {
    hide Without, Released;
  }

  lemma ClearElsewhere(l: Loop, s: nat)
    requires s < |l.sequences|
    requires forall x :: x in l.sequences[s].pending ==> x < |l.requests| && l.requests[x].sequence == s
    ensures Elsewhere(l, ClearSequence(l, s), s) && FailuresStay(l, ClearSequence(l, s))
  {
  }

  lemma PutElsewhere(l: Loop, l': Loop, r: ID, q: Request)
    requires r < |l.requests| && l'.requests == l.requests[r := q] && q.sequence == l.requests[r].sequence
    requires l'.sequences == l.sequences && l'.phase == l.phase
    requires q.sequence == NONE ==>
               l.requests[r].state != Cancelling || (q.state == Cancelling && q.lost == l.requests[r].lost)
    ensures Elsewhere(l, l', q.sequence) && FailuresStay(l, l')
  {
  }

  lemma FailedElsewhere(l: Loop, r: ID)
    requires Known(l, r)
    ensures Elsewhere(l, Failed(l, r), l.requests[r].sequence)
    ensures l.requests[r].sequence != NONE ==> Failed(l, r).sequences[l.requests[r].sequence].failures > 0
  {
  }

  lemma PushElsewhere(l: Loop, r: ID)
    requires Known(l, r) && l.requests[r].state == Cancelling
    requires var s := l.requests[r].sequence;
             s != NONE ==> forall x :: x in l.sequences[s].pending ==> x < |l.requests| && l.requests[x].sequence == s
    ensures Elsewhere(l, PushToCancellationQueue(l, r), l.requests[r].sequence)
    ensures FailuresStay(l, PushToCancellationQueue(l, r))
  {
    var s := l.requests[r].sequence;
    if s != NONE && l.sequences[s].clearOnCancel {
      ClearElsewhere(l, s);
    }
    hide ClearSequence;
  }

  // ------------------------------------------------------------------ The steps

  lemma StartFlows(l: Loop, r: ID)
    requires Inv(l) && Flows(l) && MayStart(l, r)
    ensures Flows(Start(l, r))
  {
    if l.requests[r].state == Free {
      ElsewhereFlows(l, Start(l, r), l.requests[r].sequence);
    }
  }

  lemma StopFlows(l: Loop, r: ID, onClose: bool)
    requires Inv(l) && Flows(l) && MayStop(l, r)
    ensures Flows(Stop(l, r, onClose))
  {
    var l' := Stop(l, r, onClose);
    var s := l.requests[r].sequence;
    About(l, r, Loose(l));
    StopElsewhere(l, r, onClose);
    hide Inv, Elsewhere, Without, SequenceOk;
    if s != NONE {
      if l.requests[r].state == Active {
        assert BeingCancelled(l', r, s);
      } else {
        assert FlowAt(l, s);
        StopCalm(l, r, onClose);
        hide Stop;
        if l'.sequences[s].pending != [] {
          CalmFlows(l, l', s);
        }
      }
    }
    hide Stop;
    ElsewhereFlows(l, l', s);
  }

  lemma StopElsewhere(l: Loop, r: ID, onClose: bool)
    requires Inv(l) && MayStop(l, r)
    ensures Elsewhere(l, Stop(l, r, onClose), l.requests[r].sequence) && FailuresStay(l, Stop(l, r, onClose))
  {
    var q := l.requests[r].(onClose := onClose);
    About(l, r, Loose(l));
    hide Inv, Without, Elsewhere, SequenceOk;
    if q.state == Active {
      RemoveElsewhere(l, r);
      StopForm(l, r, onClose);
      hide RemoveActiveHandle;
      var l1 := RemoveActiveHandle(l, r);
      PutElsewhere(l1, Stop(l, r, onClose), r, q.(state := Cancelling, manual := false));
      ElsewhereThen(l, l1, Stop(l, r, onClose), q.sequence);
    } else if q.state == Free || q.state == Cancelling {
      PutElsewhere(l, Stop(l, r, onClose), r, q);
    } else {
      StopPushes(l, r, onClose);
    }
  }

  lemma StopPushes(l: Loop, r: ID, onClose: bool)
    requires Inv(l) && MayStop(l, r)
    requires l.requests[r].state == Setup || l.requests[r].state == Submitting || l.requests[r].state == Reactivate
    ensures Elsewhere(l, Stop(l, r, onClose), l.requests[r].sequence) && FailuresStay(l, Stop(l, r, onClose))
  {
    var l1 := Withdrawn(l, r, onClose);
    var s := l.requests[r].sequence;
    if s != NONE {
      assert SequenceOk(l, s);
    }
    PutElsewhere(l, l1, r, l1.requests[r]);
    StopPushForm(l, r, onClose);
    hide Inv, Without, Elsewhere, PushToCancellationQueue, SequenceOk, Stop, FailuresStay;
    PushElsewhere(l1, r);
    ElsewhereThen(l, l1, PushToCancellationQueue(l1, r), s);
    StayTwice(l, l1, PushToCancellationQueue(l1, r));
  }

  lemma StayTwice(l: Loop, l1: Loop, l2: Loop)
    requires FailuresStay(l, l1) && FailuresStay(l1, l2)
    ensures FailuresStay(l, l2)
  {
  }

  /** A request that is not active takes nothing with it when it is stopped. */
  lemma StopCalm(l: Loop, r: ID, onClose: bool)
    requires Inv(l) && MayStop(l, r) && l.requests[r].state != Active && l.requests[r].sequence != NONE
    ensures var l', s := Stop(l, r, onClose), l.requests[r].sequence;
            s < |l'.sequences| && (l'.sequences[s].pending != [] ==> Calm(l, l', s))
  {
    var state := l.requests[r].state;
    hide Inv;
    if state != Free && state != Cancelling {
      StopPushForm(l, r, onClose);
      hide Stop;
      PushCalm(l, Withdrawn(l, r, onClose), r);
    }
  }

  lemma PushCalm(l: Loop, l1: Loop, r: ID)
    requires Known(l, r) && l.requests[r].sequence != NONE && l.requests[r].state != Cancelling && r < |l1.requests|
    requires l1.requests == l.requests[r := l1.requests[r]] && l1.sequences == l.sequences && l1.phase == l.phase
    requires Known(l1, r) && l1.requests[r].state == Cancelling && l1.requests[r].sequence == l.requests[r].sequence
    ensures var l', s := PushToCancellationQueue(l1, r), l.requests[r].sequence;
            l'.sequences[s].pending != [] ==> Calm(l, l', s)
  {
    hide FreeAll;
  }

  lemma SmallFlows(l: Loop, e: Step)
    requires Inv(l) && Flows(l) && May(l, e)
    requires e.ExcludeStep? || e.IncludeStep? || e.PostStep? || e.DrainStep? || e.FireStep? || e.EndFiringStep?
    ensures Flows(Next(l, e))
  {
    hide Without, Views, Sequences, Occupied, Counts;
    ElsewhereFlows(l, Next(l, e), NONE);
  }

  lemma ClearFlows(l: Loop, s: nat)
    requires Inv(l) && Flows(l) && s < |l.sequences|
    ensures Flows(ClearSequence(l, s))
  {
    assert SequenceOk(l, s);
    PendingSetup(l, s, Loose(l));
    hide Views, Sequences, Occupied, Counts;
    ElsewhereFlows(l, ClearSequence(l, s), s);
  }

  lemma ReactivateFlows(l: Loop, yes: bool, immediate: bool)
    requires Inv(l) && Flows(l) && MayReactivate(l, yes, immediate)
    ensures Flows(ReactivateRequest(l, yes, immediate))
  {
    var l' := ReactivateRequest(l, yes, immediate);
    var s := l.requests[l.phase.request].sequence;
    hide Without, Views, Sequences, Occupied, Counts;
    if s != NONE {
      assert CompletingIn(l', s);
    }
    ElsewhereFlows(l, l', s);
  }

  lemma CompleteFlows(l: Loop, r: ID)
    requires Inv(l) && Flows(l) && l.phase == Idle && Known(l, r) && l.requests[r].state == Active
    ensures Flows(Complete(l, r))
  {
    var l', s := Complete(l, r), l.requests[r].sequence;
    hide Without, Released, Views, Sequences, Occupied, Counts;
    if s != NONE {
      assert CompletingIn(l', s);
    }
    ElsewhereFlows(l, l', s);
  }

  lemma EndCompletionFlows(l: Loop, ok: bool)
    requires Inv(l) && Flows(l) && l.phase.Completing? && Known(l, l.phase.request)
    ensures Flows(EndCompletion(l, ok))
  {
    var s := l.requests[l.phase.request].sequence;
    if s != NONE {
      assert SequenceOk(l, s);
      PendingSetup(l, s, NONE);
    }
    hide Views, Sequences, Occupied, Counts;
    ElsewhereFlows(l, EndCompletion(l, ok), s);
  }

  /** An error counts as a failure of the sequence. */
  lemma ReportElsewhere(l: Loop, r: ID, loose: int)
    requires InvAt(l, loose) && Known(l, r) && (loose == NONE || loose == r) && l.phase == Idle
    ensures var l', s := Report(l, r), l.requests[r].sequence;
            Elsewhere(l, l', s) && (s != NONE ==> l'.sequences[s].failures > 0)
  {
    var s := l.requests[r].sequence;
    var failed := Failed(l, r);
    FailedElsewhere(l, r);
    if s != NONE {
      assert SequenceOk(l, s);
      PendingSetup(l, s, loose);
    }
    hide InvAt, SequenceOk, Elsewhere;
    var removed := if l.requests[r].state == Active then RemoveActiveHandle(failed, r) else failed;
    if l.requests[r].state == Active {
      RemoveElsewhere(failed, r);
      ElsewhereThen(l, failed, removed, s);
    }
    RemovedPending(failed, r);
    hide RemoveActiveHandle, ClearSequence, Failed;
    var cleared := if s != NONE && l.sequences[s].clearOnError then ClearSequence(removed, s) else removed;
    if s != NONE && l.sequences[s].clearOnError {
      ClearElsewhere(removed, s);
      ElsewhereThen(l, removed, cleared, s);
    }
    PhaseElsewhere(l, cleared, s, Reporting(r));
  }

  lemma PhaseElsewhere(l: Loop, l': Loop, own: int, phase: Phase)
    requires Elsewhere(l, l', own) && !l.phase.Completing?
    ensures Elsewhere(l, l'.(phase := phase), own)
  {
  }

  lemma RemovedPending(l: Loop, r: ID)
    requires Known(l, r)
    ensures var l' := RemoveActiveHandle(l, r);
            && (forall s :: 0 <= s < |l.sequences| ==> l'.sequences[s].pending == l.sequences[s].pending)
            && (forall x :: 0 <= x < |l.requests| ==> l'.requests[x].sequence == l.requests[x].sequence)
  {
    hide Without, Released;
  }

  lemma FailFlows(l: Loop, r: ID)
    requires Inv(l) && Flows(l) && l.phase == Idle && Known(l, r)
    ensures Flows(Report(l, r))
  {
    ReportElsewhere(l, r, NONE);
    hide Inv, Elsewhere, Report;
    ReportPhase(l, r);
    ElsewhereFlows(l, Report(l, r), l.requests[r].sequence);
  }

  lemma ReportPhase(l: Loop, r: ID)
    requires Known(l, r)
    ensures var l' := Report(l, r);
            l'.phase == Reporting(r) && Known(l', r) && l'.requests[r].sequence == l.requests[r].sequence
  {
    hide Without, Released;
  }

  lemma EndReportFlows(l: Loop)
    requires Inv(l) && Flows(l) && l.phase.Reporting? && Known(l, l.phase.request)
    ensures Flows(EndReport(l))
  {
    hide Views, Sequences, Occupied, Counts;
    ElsewhereFlows(l, EndReport(l), l.requests[l.phase.request].sequence);
  }

  lemma FinishFlows(l: Loop, r: ID)
    requires Inv(l) && Flows(l) && l.phase == Idle && Known(l, r) && r in l.cancellations
    ensures Flows(FinishCancellation(l, r))
  {
    var s := l.requests[r].sequence;
    if s != NONE {
      assert SequenceOk(l, s);
    }
    hide Without, Views, Sequences, Occupied, Counts;
    ElsewhereFlows(l, FinishCancellation(l, r), s);
  }

  // ------------------------------------------------------------------ Staging

  lemma StageFlows(l: Loop, a: Answer)
    requires Inv(l) && Flows(l) && l.phase == Idle && l.submissions != [] && Known(l, l.submissions[0])
    ensures Flows(Stage(l, a))
  {
    var r := l.submissions[0];
    var q := l.requests[r];
    DequeuedKeeps(l);
    var taken := Dequeued(l);
    assert Flows(taken) by {
      hide Inv;
      ElsewhereFlows(l, taken, NONE);
    }
    if q.state == Cancelling {
      StageCancelFlows(taken, r, a);
    } else if q.state == Setup && !a.setUp {
      UnsetFlows(taken, r);
    } else {
      ActivateFlows(taken, r, a);
    }
    hide Inv, InvAt, Flows, Activate, Report, PushToCancellationQueue, Failed;
  }

  lemma StageCancelFlows(l: Loop, r: ID, a: Answer)
    requires InvAt(l, r) && Flows(l) && l.phase == Idle && Known(l, r) && l.requests[r].state == Cancelling
    ensures Flows(PushToCancellationQueue(Put(l, r, l.requests[r].(waits := a.waits)), r))
    ensures Flows(Failed(Put(l, r, l.requests[r].(lost := true)), r))
  {
    PushedFlows(l, r, a.waits);
    LostFlows(l, r);
  }

  lemma LostFlows(l: Loop, r: ID)
    requires InvAt(l, r) && Flows(l) && l.phase == Idle && Known(l, r) && l.requests[r].state == Cancelling
    ensures Flows(Failed(Put(l, r, l.requests[r].(lost := true)), r))
  {
    var l' := Failed(Put(l, r, l.requests[r].(lost := true)), r);
    hide InvAt;
    ElsewhereLost(l, l', r);
  }

  /** A request without a sequence resumes none. */
  lemma ElsewhereLost(l: Loop, l': Loop, r: ID)
    requires Flows(l) && l.phase == Idle && Known(l, r) && l' == Failed(Put(l, r, l.requests[r].(lost := true)), r)
    ensures Flows(l')
  {
    forall s | 0 <= s < |l'.sequences| ensures FlowAt(l', s) {
      if s != l.requests[r].sequence {
        assert FlowAt(l, s);
        CalmFlows(l, l', s);
      }
    }
  }

  lemma PushedFlows(l: Loop, r: ID, waits: bool)
    requires InvAt(l, r) && Flows(l) && l.phase == Idle && Known(l, r) && l.requests[r].state == Cancelling
    ensures Flows(PushToCancellationQueue(Put(l, r, l.requests[r].(waits := waits)), r))
  {
    var s := l.requests[r].sequence;
    var put := Put(l, r, l.requests[r].(waits := waits));
    var pushed := PushToCancellationQueue(put, r);
    if s != NONE {
      assert SequenceOk(l, s);
      PendingSetup(l, s, r);
      assert FlowAt(l, s);
    }
    hide InvAt, SequenceOk;
    PutElsewhere(l, put, r, put.requests[r]);
    PushElsewhere(put, r);
    ElsewhereThen(l, put, pushed, s);
    if s != NONE && !l.sequences[s].clearOnCancel {
      CalmFlows(l, pushed, s);
    }
    hide Elsewhere;
    ElsewhereFlows(l, pushed, s);
  }

  lemma ActivateFlows(l: Loop, r: ID, a: Answer)
    requires InvAt(l, r) && Flows(l) && l.phase == Idle && Known(l, r)
    requires l.requests[r].state == Setup || l.requests[r].state == Reactivate
    ensures Flows(Activate(l, r, a))
  {
    var s := l.requests[r].sequence;
    SubmittingKeeps(l, r, a.manual);
    var submitting := Put(l, r, l.requests[r].(state := Submitting, manual := a.manual));
    assert Flows(submitting) by {
      hide InvAt;
      if s != NONE {
        assert FlowAt(l, s);
        CalmFlows(l, submitting, s);
      }
      ElsewhereFlows(l, submitting, s);
    }
    if a.activated {
      AddedFlows(submitting, r);
    } else {
      ReportElsewhere(submitting, r, r);
      ReportPhase(submitting, r);
      ElsewhereFlows(submitting, Report(submitting, r), s);
    }
    hide InvAt, Report, AddActiveHandle, Elsewhere;
    if a.activated {
      assert Activate(l, r, a) == Added(submitting, r);
    }
  }

  lemma AddedFlows(l: Loop, r: ID)
    requires Flows(l) && l.phase == Idle && Known(l, r) && l.requests[r].state == Submitting
    ensures Flows(Added(l, r))
  {
    var l', s := Added(l, r), l.requests[r].sequence;
    if s != NONE {
      assert FlowAt(l, s);
      CalmFlows(l, l', s);
    }
    ElsewhereFlows(l, l', s);
  }

  lemma UnsetFlows(l: Loop, r: ID)
    requires InvAt(l, r) && Flows(l) && l.phase == Idle && Known(l, r) && l.requests[r].state == Setup
    ensures Flows(Report(Put(l, r, l.requests[r].(manual := false)), r))
  {
    var s := l.requests[r].sequence;
    var l' := Put(l, r, l.requests[r].(manual := false));
    About(l, r, r);
    assert InvAt(l', r) by {
      hide Views, Sequences, Occupied, Distinct, InOrder, PendingOk;
      MovedKeeps(l, l', r, r, r);
    }
    assert Flows(l') by {
      hide InvAt;
      if s != NONE {
        assert FlowAt(l, s);
        CalmFlows(l, l', s);
      }
      ElsewhereFlows(l, l', s);
    }
    ReportElsewhere(l', r, r);
    ReportPhase(l', r);
    hide InvAt, Report, Elsewhere;
    ElsewhereFlows(l', Report(l', r), s);
  }

  // ------------------------------------------------------------------ Every run

  lemma StepFlows(l: Loop, e: Step)
    requires Inv(l) && Flows(l) && May(l, e)
    ensures Flows(Next(l, e))
  {
    hide Inv, Flows;
    match e
    case StartStep(r) => StartFlows(l, r);
    case StopStep(r, onClose) => StopFlows(l, r, onClose);
    case ExcludeStep(r) => SmallFlows(l, e);
    case IncludeStep(r) => SmallFlows(l, e);
    case PostStep(r) => SmallFlows(l, e);
    case ClearStep(s) => ClearFlows(l, s);
    case ReactivateStep(yes, immediate) => ReactivateFlows(l, yes, immediate);
    case StageStep(a) => StageFlows(l, a);
    case CompleteStep(r) => CompleteFlows(l, r);
    case EndCompletionStep(ok) => EndCompletionFlows(l, ok);
    case FailStep(r) => FailFlows(l, r);
    case EndReportStep => EndReportFlows(l);
    case FireStep(r) => SmallFlows(l, e);
    case EndFiringStep => SmallFlows(l, e);
    case FinishStep(r) => FinishFlows(l, r);
    case DrainStep(r) => SmallFlows(l, e);
  }

  lemma {:induction false} RunFlows(l: Loop, steps: seq<Step>)
    requires Inv(l) && Flows(l) && Allowed(l, steps)
    ensures Inv(Run(l, steps)) && Flows(Run(l, steps))
    decreases |steps|
  {
    if steps != [] {
      StepKeeps(l, steps[0]);
      StepFlows(l, steps[0]);
      hide Inv, Flows, May, Next;
      RunFlows(Next(l, steps[0]), steps[1..]);
    }
  }

  /** The sequence waits for its runner, which is active (or the kernel could not cancel it). */
  predicate WaitsForRunner(l: Loop, s: nat)
    requires s < |l.sequences|
  {
    var v := l.sequences[s];
    && v.running && 0 <= v.runner < |l.requests| && l.requests[v.runner].sequence == s
    && (l.requests[v.runner].state == Active || l.requests[v.runner].lost)
  }

  /** In every run: when the loop has nothing more to submit or to cancel, a request waits in a sequence only behind
      one that is active, provided no request of the sequence has failed and it is not cleared by cancellations. */
  lemma NobodyForgotten(requests: seq<Request>, sequences: seq<Sequence>, steps: seq<Step>, s: nat)
    requires Fresh(requests, sequences) && Allowed(Initial(requests, sequences), steps)
    requires var l := Reached(requests, sequences, steps);
             && l.phase == Idle && l.submissions == [] && l.cancellations == []
             && s < |l.sequences| && !l.sequences[s].clearOnCancel && l.sequences[s].failures == 0
    ensures var l := Reached(requests, sequences, steps);
            l.sequences[s].pending != [] ==> WaitsForRunner(l, s)
  {
    InitialInv(requests, sequences);
    RunFlows(Initial(requests, sequences), steps);
    var l := Reached(requests, sequences, steps);
    if l.sequences[s].pending != [] {
      Settles(l, s);
    }
  }

  lemma Settles(l: Loop, s: nat)
    requires Inv(l) && Flows(l) && l.phase == Idle && l.submissions == [] && l.cancellations == []
    requires s < |l.sequences| && !l.sequences[s].clearOnCancel && l.sequences[s].failures == 0 &&
             l.sequences[s].pending != []
    ensures WaitsForRunner(l, s)
  {
    assert SequenceOk(l, s) && FlowAt(l, s);
    NoneCancelled(l, s);
    assert Placed(Look(l, l.sequences[s].runner), l.sequences[s].runner == NONE);
  }

  lemma NoneCancelled(l: Loop, s: nat)
    requires Inv(l) && l.submissions == [] && l.cancellations == [] && l.phase == Idle
    ensures forall x: ID :: !BeingCancelled(l, x, s)
  {
    forall x: ID | x < |l.requests| ensures !BeingCancelled(l, x, s) {
      assert Placed(Look(l, x), x == NONE);
    }
  }

  // ------------------------------------------------------------------ Where it fails

  /** A cancellation that ends leaves requests waiting behind nobody exactly if cancellations clear the sequence and
      requests have been started in it since the cancelled one was stopped, while that was its runner. */
  lemma FinishExact(l: Loop, r: ID)
    requires Inv(l) && l.phase == Idle && Known(l, r) && r in l.cancellations && l.requests[r].sequence != NONE
    ensures var s := l.requests[r].sequence;
            var v, v' := l.sequences[s], FinishCancellation(l, r).sequences[s];
            v'.pending != [] && !v'.running <==> v.clearOnCancel && v.pending != [] && (v.runner == r || !v.running)
  {
    assert SequenceOk(l, l.requests[r].sequence);
    hide Views, Sequences, Occupied, Counts, Without;
  }

  function TwoRequests(): seq<Request>
  {
    var q := Request(Free, false, false, false, false, 0, 0, false, 0);
    [q, q]
  }

  function ClearedByCancel(): seq<Sequence>
  {
    [Sequence([], false, NONE, false, false, true, [], 0)]
  }

  /** The loop when the first request has been started and stopped. */
  function StoppedEarly(): Loop
  {
    var q := Request(Cancelling, false, false, false, false, 0, 0, false, 0);
    Loop([q, TwoRequests()[1]], [Sequence([], true, 0, true, false, true, [0], 0)], [], [0], [], [],
         0, 0, 0, 0, 1, Idle, false)
  }

  lemma StopsEarly()
    ensures var l := Initial(TwoRequests(), ClearedByCancel());
            && May(l, StartStep(0)) && May(Next(l, StartStep(0)), StopStep(0, false))
            && Next(Next(l, StartStep(0)), StopStep(0, false)) == StoppedEarly()
  {
    var l := Initial(TwoRequests(), ClearedByCancel());
    var q := Request(Setup, false, false, false, false, 0, 0, false, 0);
    var l1 := Loop([q, TwoRequests()[1]], [Sequence([], true, 0, true, false, true, [0], 0)], [0], [], [], [],
                   1, 0, 0, 0, 1, Idle, false);
    assert TwoRequests()[0 := q] == [q, TwoRequests()[1]];
    assert Popped(Sequence([] + [0], false, NONE, true, false, true, [], 0), l1.requests) == l1.sequences[0];
    assert Next(l, StartStep(0)) == l1;
    assert FreeAll(StoppedEarly().requests, []) == StoppedEarly().requests;
  }

  /** The loop has nothing left to do, and the second request waits in a sequence that is not running. */
  predicate SecondForgotten(l: Loop)
  {
    && l.phase == Idle && l.submissions == [] && l.cancellations == [] && l.manuals == []
    && l.actives == 0 && l.externals == 0 && l.manualCount == 0
    && |l.sequences| == 1 && l.sequences[0].pending == [1] && !l.sequences[0].running
    && |l.requests| == 2 && l.requests[1].state == Setup
  }

  lemma StartsEarly()
    ensures var l := StoppedEarly();
            && May(l, StartStep(1)) && May(Next(l, StartStep(1)), FinishStep(0))
            && SecondForgotten(Next(Next(l, StartStep(1)), FinishStep(0)))
  {
    var l := StoppedEarly();
    var l1 := Next(l, StartStep(1));
    assert l1.sequences[0].pending == [1] && l1.cancellations == [0] && l1.submissions == [];
    assert Without([0], 0) == [];
  }

  /** The request is stopped before it is staged, and the second started before that cancellation is through. */
  function Early(): seq<Step>
  {
    [StartStep(0)] + ([StopStep(0, false)] + ([StartStep(1)] + ([FinishStep(0)] + [])))
  }

  lemma EarlyRun()
    ensures var l := Initial(TwoRequests(), ClearedByCancel()); Allowed(l, Early()) && SecondForgotten(Run(l, Early()))
  {
    var l0 := Initial(TwoRequests(), ClearedByCancel());
    StopsEarly();
    StartsEarly();
    hide Next, May, Initial, StoppedEarly, TwoRequests, ClearedByCancel, SecondForgotten;
    var l1 := Next(l0, StartStep(0));
    var l2 := Next(l1, StopStep(0, false));
    var l3 := Next(l2, StartStep(1));
    RunNone(Next(l3, FinishStep(0)));
    hide Run, Allowed;
    RunCons(l3, FinishStep(0), []);
    RunCons(l2, StartStep(1), [FinishStep(0)] + []);
    RunCons(l1, StopStep(0, false), [StartStep(1)] + ([FinishStep(0)] + []));
    RunCons(l0, StartStep(0), Early()[1..]);
  }

  /** It can happen: the first request of a sequence is stopped before it is staged, and the second started before
      that cancellation is through. The loop then has nothing left to do, and the second request waits for ever. */
  lemma StartedTooEarly()
    ensures Fresh(TwoRequests(), ClearedByCancel())
    ensures exists steps :: Allowed(Initial(TwoRequests(), ClearedByCancel()), steps) &&
                            SecondForgotten(Run(Initial(TwoRequests(), ClearedByCancel()), steps))
  {
    EarlyRun();
    hide Run, Allowed, SecondForgotten, Early, Initial;
  }

  lemma RunNone(l: Loop)
    ensures Allowed(l, []) && Run(l, []) == l
  {
  }

  lemma RunCons(l: Loop, e: Step, rest: seq<Step>)
    requires May(l, e) && Allowed(Next(l, e), rest)
    ensures Allowed(l, [e] + rest) && Run(l, [e] + rest) == Run(Next(l, e), rest)
  {
    assert ([e] + rest)[1..] == rest;
    hide May, Next;
  }
}
