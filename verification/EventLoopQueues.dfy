/** The three queues of the event loop, and the callback that runs: what each step takes out of them and puts into
    them. */
module EventLoopQueues {

  import opened IntrusiveLists
  import opened EventLoopModel
  import opened EventLoopInvariant
  import opened EventLoopProofs
  import opened EventLoopLife

  /** The list as it was, and behind it at most one request more. */
  predicate Extends(list: seq<ID>, list': seq<ID>)
  {
    |list'| <= |list| + 1 && list <= list'
  }

  /** The submissions that a step leaves in the queue. */
  function Submitted(l: Loop, e: Step): seq<ID>
    requires May(l, e)
  {
    match e
    case StageStep(_) => l.submissions[1..]
    case StopStep(r, _) =>
      if InUse(l.requests[r]) && l.requests[r].state != Active then Without(l.submissions, r) else l.submissions
    case ReactivateStep(yes, _) =>
      if !yes && l.requests[l.phase.request].state == Reactivate then Without(l.submissions, l.phase.request)
      else l.submissions
    case _ => l.submissions
  }

  /** ... the cancellations, and the ready completions. */
  function Cancelled(l: Loop, e: Step): seq<ID>
  {
    if e.FinishStep? then Without(l.cancellations, e.r) else l.cancellations
  }

  function Ready(l: Loop, e: Step): seq<ID>
    requires May(l, e)
  {
    match e
    case CompleteStep(r) => Without(l.manuals, r)
    case StopStep(r, _) =>
      if l.requests[r].state == Active && l.requests[r].manual then Without(l.manuals, r) else l.manuals
    case _ => l.manuals
  }

  /** Which callback runs after the step. */
  function PhaseAfter(l: Loop, e: Step): Phase
    requires May(l, e)
  {
    match e
    case ReactivateStep(yes, _) => l.phase.(reactivated := yes)
    case StageStep(a) =>
      var q := l.requests[l.submissions[0]];
      if q.state != Cancelling && !(a.activated && (q.state == Setup ==> a.setUp)) then Reporting(l.submissions[0])
      else Idle
    case CompleteStep(r) => Completing(r, false)
    case FailStep(r) => Reporting(r)
    case FireStep(r) => Firing(r, false)
    case EndCompletionStep(_) => Idle
    case EndReportStep => Idle
    case EndFiringStep => Idle
    case _ => l.phase
  }

  /** The three queues are served in the order in which requests entered them: a step takes out of them what it deals
      with, and what it adds goes to the back. */
  predicate Fifo(l: Loop, e: Step)
    requires May(l, e)
  {
    var l' := Next(l, e);
    && Extends(Submitted(l, e), l'.submissions) && Extends(Cancelled(l, e), l'.cancellations)
    && Extends(Ready(l, e), l'.manuals) && l'.phase == PhaseAfter(l, e)
  }

  /** What the queues and the phase become. */
  predicate Becomes(l': Loop, submissions: seq<ID>, cancellations: seq<ID>, manuals: seq<ID>, phase: Phase)
  {
    && Extends(submissions, l'.submissions) && Extends(cancellations, l'.cancellations)
    && Extends(manuals, l'.manuals) && l'.phase == phase
  }

  lemma QueueQueues(l: Loop, r: ID)
    requires Known(l, r)
    ensures Becomes(QueueSubmission(l, r), l.submissions, l.cancellations, l.manuals, l.phase)
  {
    hide Taken, Popped;
  }

  lemma ResumeQueues(l: Loop, s: nat)
    requires s < |l.sequences|
    ensures Becomes(ResumeSequence(l, s), l.submissions, l.cancellations, l.manuals, l.phase)
  {
    hide Taken, Popped, Untracked;
  }

  lemma AddQueues(l: Loop, r: ID)
    requires Known(l, r)
    ensures var l' := AddActiveHandle(l, r);
            && l'.submissions == l.submissions && l'.cancellations == l.cancellations && l'.manuals == l.manuals
            && l'.phase == l.phase
  {
  }

  lemma PushQueues(l: Loop, r: ID)
    requires Known(l, r)
    ensures Becomes(PushToCancellationQueue(l, r), l.submissions, l.cancellations, l.manuals, l.phase)
  {
    hide FreeAll, Untracked;
  }

  lemma ReportQueues(l: Loop, r: ID)
    requires Known(l, r)
    ensures Becomes(Report(l, r), l.submissions, l.cancellations, l.manuals, Reporting(r))
  {
    FailedForm(l, r);
    var l1 := Failed(l, r);
    assert l1.submissions == l.submissions && l1.cancellations == l.cancellations && l1.manuals == l.manuals;
    hide FreeAll, RemoveActiveHandle, Failed, Untracked;
  }

  lemma ActivateQueues(l: Loop, r: ID, a: Answer)
    requires Known(l, r)
    ensures Becomes(Activate(l, r, a), l.submissions, l.cancellations, l.manuals,
                    if a.activated then l.phase else Reporting(r))
  {
    var submitting := Put(l, r, l.requests[r].(state := Submitting, manual := a.manual));
    ReportQueues(submitting, r);
    AddQueues(submitting.(manuals := if a.manual then l.manuals + [r] else l.manuals), r);
    hide AddActiveHandle, Report;
  }

  lemma FinishQueues(l: Loop, r: ID)
    requires Known(l, r)
    ensures Becomes(FinishCancellation(l, r), l.submissions, Without(l.cancellations, r), l.manuals, l.phase)
  {
    hide Without, Taken, Popped, Untracked;
  }

  lemma StopActiveQueues(l: Loop, r: ID, onClose: bool)
    requires May(l, StopStep(r, onClose)) && l.requests[r].state == Active
    ensures Fifo(l, StopStep(r, onClose))
  {
    hide RemoveActiveHandle, Without;
  }

  lemma StopQueuedBecomes(l: Loop, r: ID, onClose: bool)
    requires Known(l, r) && InUse(l.requests[r]) && l.requests[r].state != Active
    ensures Becomes(Stop(l, r, onClose), Without(l.submissions, r), l.cancellations, l.manuals, l.phase)
  {
    var put := Put(l, r, l.requests[r].(onClose := onClose, state := Cancelling))
                 .(submissions := Without(l.submissions, r), submitted := l.submitted - 1);
    PushQueues(put, r);
    hide PushToCancellationQueue, Without;
  }

  lemma StopQueuedQueues(l: Loop, r: ID, onClose: bool)
    requires May(l, StopStep(r, onClose)) && InUse(l.requests[r]) && l.requests[r].state != Active
    ensures Fifo(l, StopStep(r, onClose))
  {
    StopQueuedBecomes(l, r, onClose);
    hide Stop, Without, Extends;
  }

  lemma StopIdleQueues(l: Loop, r: ID, onClose: bool)
    requires May(l, StopStep(r, onClose)) && !InUse(l.requests[r])
    ensures Fifo(l, StopStep(r, onClose))
  {
    hide RemoveActiveHandle, PushToCancellationQueue, Without;
  }

  lemma StopQueues(l: Loop, r: ID, onClose: bool)
    requires May(l, StopStep(r, onClose))
    ensures Fifo(l, StopStep(r, onClose))
  {
    hide Fifo;
    if l.requests[r].state == Active {
      StopActiveQueues(l, r, onClose);
    } else if InUse(l.requests[r]) {
      StopQueuedQueues(l, r, onClose);
    } else {
      StopIdleQueues(l, r, onClose);
    }
  }

  lemma ReactivateQueues(l: Loop, yes: bool, immediate: bool)
    requires May(l, ReactivateStep(yes, immediate))
    ensures Fifo(l, ReactivateStep(yes, immediate))
  {
    var c := l.phase.request;
    AddQueues(Put(l.(phase := l.phase.(reactivated := yes)), c, l.requests[c].(state := Submitting)), c);
    hide AddActiveHandle, Without;
  }

  lemma StageQueues(l: Loop, a: Answer)
    requires Inv(l) && May(l, StageStep(a))
    ensures Fifo(l, StageStep(a))
  {
    Stageable(l);
    hide Inv, Fifo;
    var q := l.requests[l.submissions[0]];
    if q.state == Cancelling {
      StageCancelQueues(l, a);
    } else if q.state == Setup && !a.setUp {
      StageRefusedQueues(l, a);
    } else {
      StageActivatesQueues(l, a);
    }
  }

  lemma StageCancelQueues(l: Loop, a: Answer)
    requires May(l, StageStep(a)) && l.requests[l.submissions[0]].state == Cancelling
    ensures Fifo(l, StageStep(a))
  {
    var r := l.submissions[0];
    var q := l.requests[r];
    var taken := l.(submissions := l.submissions[1..], submitted := l.submitted - 1);
    hide Activate, Report, PushToCancellationQueue, Failed;
    PushQueues(Put(taken, r, q.(waits := a.waits)), r);
    LostQueues(Put(taken, r, q.(lost := true)), r);
  }

  lemma StageRefusedQueues(l: Loop, a: Answer)
    requires May(l, StageStep(a)) && l.requests[l.submissions[0]].state == Setup && !a.setUp
    ensures Fifo(l, StageStep(a))
  {
    var r := l.submissions[0];
    var taken := l.(submissions := l.submissions[1..], submitted := l.submitted - 1);
    var put := Put(taken, r, l.requests[r].(manual := false));
    hide Activate, Report, PushToCancellationQueue, Failed;
    assert Stage(l, a) == Report(put, r);
    hide Stage;
    ReportQueues(put, r);
  }

  lemma StageActivatesQueues(l: Loop, a: Answer)
    requires May(l, StageStep(a))
    requires var q := l.requests[l.submissions[0]]; q.state == Reactivate || (q.state == Setup && a.setUp)
    ensures Fifo(l, StageStep(a))
  {
    var taken := l.(submissions := l.submissions[1..], submitted := l.submitted - 1);
    hide Activate, Report, PushToCancellationQueue, Failed;
    assert Stage(l, a) == Activate(taken, l.submissions[0], a);
    hide Stage;
    ActivateQueues(taken, l.submissions[0], a);
  }

  lemma LostQueues(l: Loop, r: ID)
    requires Known(l, r)
    ensures Becomes(Failed(l, r), l.submissions, l.cancellations, l.manuals, l.phase)
  {
  }

  lemma EndCompletionQueues(l: Loop, ok: bool)
    requires May(l, EndCompletionStep(ok))
    ensures Fifo(l, EndCompletionStep(ok))
  {
    var s := l.requests[l.phase.request].sequence;
    if s != NONE {
      ResumeQueues(l.(phase := Idle), s);
    }
    hide ResumeSequence, FreeAll, Untracked, Taken;
  }

  lemma OtherQueues(l: Loop, e: Step)
    requires May(l, e)
    requires e.ExcludeStep? || e.IncludeStep? || e.PostStep? || e.ClearStep? || e.EndReportStep? || e.EndFiringStep? ||
             e.DrainStep?
    ensures Fifo(l, e)
  {
    hide FreeAll, Without, Released, Untracked;
  }

  lemma HandleQueues(l: Loop, e: Step)
    requires May(l, e) && (e.CompleteStep? || e.FireStep? || e.FailStep?)
    ensures Fifo(l, e)
  {
    if e.FailStep? {
      ReportQueues(l, e.r);
    }
    hide RemoveActiveHandle, Without, Report;
  }

  /** Whatever the step. */
  lemma NextFifo(l: Loop, e: Step)
    requires Inv(l) && May(l, e)
    ensures Fifo(l, e)
  {
    hide Inv, Fifo;
    match e {
      case StartStep(r) => StartQueues(l, r);
      case StopStep(r, onClose) => StopQueues(l, r, onClose);
      case ReactivateStep(yes, immediate) => ReactivateQueues(l, yes, immediate);
      case StageStep(a) => StageQueues(l, a);
      case CompleteStep(r) => HandleQueues(l, e);
      case EndCompletionStep(ok) => EndCompletionQueues(l, ok);
      case FailStep(r) => HandleQueues(l, e);
      case FireStep(r) => HandleQueues(l, e);
      case FinishStep(r) => FinishesQueues(l, r);
      case _ => OtherQueues(l, e);
    }
  }

  lemma StartQueues(l: Loop, r: ID)
    requires May(l, StartStep(r))
    ensures Fifo(l, StartStep(r))
  {
    QueueQueues(l, r);
    hide QueueSubmission;
  }

  lemma FinishesQueues(l: Loop, r: ID)
    requires May(l, FinishStep(r))
    ensures Fifo(l, FinishStep(r))
  {
    FinishQueues(l, r);
    hide FinishCancellation, Without;
  }
}
