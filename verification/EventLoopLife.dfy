/** The life of a request: what each step makes of every request, without queues, counters or lists; and what callers
    are promised about excluding, posting and stopping it. */
module EventLoopLife {

  import opened IntrusiveLists
  import opened EventLoopModel
  import opened EventLoopInvariant
  import opened EventLoopProofs
  import opened EventLoopTheorems

  // ------------------------------------------------------------------ The simple form

  /** The request that a step is about, if any. */
  function Own(l: Loop, e: Step): int
    requires May(l, e)
  {
    match e
    case StartStep(r) => r
    case StopStep(r, _) => r
    case ExcludeStep(r) => r
    case IncludeStep(r) => r
    case PostStep(r) => r
    case ReactivateStep(_, _) => l.phase.request
    case StageStep(_) => l.submissions[0]
    case CompleteStep(r) => r
    case FailStep(r) => r
    case EndReportStep => l.phase.request
    case FireStep(r) => r
    case FinishStep(r) => r
    case DrainStep(r) => r
    case ClearStep(_) => NONE
    case EndCompletionStep(_) => NONE
    case EndFiringStep => NONE
  }

  predicate InUse(q: Request)
  {
    q.state != Free && q.state != Cancelling
  }

  function Unused(q: Request): Request
  {
    q.(state := Free, manual := false, excluded := false, waits := false)
  }

  /** What becomes of that request. */
  function Fate(l: Loop, e: Step, q: Request): Request
  {
    match e
    case StartStep(_) => if q.state == Free then q.(state := Setup, ticket := l.tickets) else q
    case StopStep(_, onClose) =>
      q.(onClose := onClose, state := if q.state == Free then Free else Cancelling,
         manual := q.manual && q.state != Active)
    case ExcludeStep(_) => q.(excluded := q.excluded || InUse(q))
    case IncludeStep(_) => q.(excluded := q.excluded && q.state == Free)
    case PostStep(_) => q.(manual := q.manual || q.state == Active)
    case ReactivateStep(yes, immediate) =>
      q.(state := if !yes then Free else if q.state == Reactivate || !immediate then Reactivate else Active)
    case StageStep(a) =>
      if q.state == Cancelling then
        q.(waits := if a.cancelled then a.waits else q.waits, lost := q.lost || !a.cancelled)
      else if q.state == Setup && !a.setUp then q.(manual := false)
      else q.(state := if a.activated then Active else Submitting, manual := a.manual)
    case CompleteStep(_) => q.(state := Free)
    case FailStep(_) => q.(state := Free)
    case FireStep(_) => q.(state := Free)
    case EndReportStep => if q.state == Cancelling then q else Unused(q)
    case FinishStep(_) => Unused(q).(onClose := false, closed := q.closed + if q.onClose then 1 else 0)
    case DrainStep(_) => q.(waits := false)
    case _ => q
  }

  /** The kernel refuses the first submission, or takes its cancellation, and its sequence is to be emptied then. */
  predicate EmptiesSequence(q: Request, a: Answer, v: Sequence)
  {
    if q.state == Cancelling then v.clearOnCancel && a.cancelled
    else v.clearOnError && !(a.activated && (q.state == Setup ==> a.setUp))
  }

  /** The steps that empty a sequence: when they are told to, when a request of it fails or is cancelled, and the
      sequence asks for that. */
  predicate Clears(l: Loop, e: Step, s: nat)
    requires May(l, e) && s < |l.sequences|
  {
    match e
    case ClearStep(t) => t == s
    case StopStep(r, _) =>
      && l.requests[r].sequence == s && l.sequences[s].clearOnCancel
      && InUse(l.requests[r]) && l.requests[r].state != Active
    case StageStep(a) =>
      l.requests[l.submissions[0]].sequence == s && EmptiesSequence(l.requests[l.submissions[0]], a, l.sequences[s])
    case FailStep(r) => l.requests[r].sequence == s && l.sequences[s].clearOnError
    case EndCompletionStep(ok) =>
      && l.requests[l.phase.request].sequence == s && l.sequences[s].clearOnError
      && !l.phase.reactivated && !ok
    case _ => false
  }

  /** What becomes of every request: the one that the step is about changes as said above; those that wait in a sequence
      that the step clears are free; the others stay as they are. */
  function Life(l: Loop, e: Step, x: ID): Request
    requires May(l, e) && Known(l, x)
  {
    var q := l.requests[x];
    if x == Own(l, e) then Fate(l, e, q)
    else if Waiting(l, x) && Clears(l, e, q.sequence) then Unused(q)
    else q
  }

  // ------------------------------------------------------------------ What the operations do to the requests

  function Replaced(l: Loop, r: ID, q: Request): seq<Request>
    requires r < |l.requests|
  {
    l.requests[r := q]
  }

  lemma QueueForm(l: Loop, r: ID)
    requires Known(l, r)
    ensures QueueSubmission(l, r).requests == Replaced(l, r, l.requests[r].(state := Setup, ticket := l.tickets))
  {
  }

  lemma AddForm(l: Loop, r: ID)
    requires Known(l, r)
    ensures AddActiveHandle(l, r).requests == Replaced(l, r, l.requests[r].(state := Active))
  {
  }

  lemma RemoveForm(l: Loop, r: ID)
    requires Known(l, r)
    ensures RemoveActiveHandle(l, r).requests == Replaced(l, r, l.requests[r].(state := Free))
  {
  }

  lemma PushForm(l: Loop, r: ID)
    requires Known(l, r)
    ensures var s := l.requests[r].sequence;
            PushToCancellationQueue(l, r).requests ==
            if s != NONE && l.sequences[s].clearOnCancel then FreeAll(l.requests, l.sequences[s].pending)
            else l.requests
  {
    hide FreeAll;
  }

  lemma ResumeForm(l: Loop, s: nat)
    requires s < |l.sequences|
    ensures ResumeSequence(l, s).requests == l.requests
  {
    hide Popped, Untracked;
  }

  lemma FailedForm(l: Loop, r: ID)
    requires Known(l, r)
    ensures var l' := Failed(l, r);
            && l'.requests == l.requests && Known(l', r) && l'.phase == l.phase
            && forall s :: 0 <= s < |l.sequences| ==>
                 l'.sequences[s].pending == l.sequences[s].pending &&
                 l'.sequences[s].clearOnError == l.sequences[s].clearOnError
  {
  }

  lemma RemovedPending(l: Loop, r: ID)
    requires Known(l, r)
    ensures forall s :: 0 <= s < |l.sequences| ==>
              && RemoveActiveHandle(l, r).sequences[s].pending == l.sequences[s].pending
              && RemoveActiveHandle(l, r).sequences[s].clearOnError == l.sequences[s].clearOnError
  {
  }

  lemma ReportForm(l: Loop, r: ID)
    requires Known(l, r)
    ensures var q := l.requests[r];
            var requests := if q.state == Active then Replaced(l, r, q.(state := Free)) else l.requests;
            Report(l, r).requests ==
            if q.sequence != NONE && l.sequences[q.sequence].clearOnError
            then FreeAll(requests, l.sequences[q.sequence].pending) else requests
  {
    FailedForm(l, r);
    var l1 := Failed(l, r);
    RemoveForm(l1, r);
    RemovedPending(l1, r);
    hide FreeAll, RemoveActiveHandle, Failed, Untracked;
  }

  // ------------------------------------------------------------------ Every step

  /** The step does to the requests what the simple form says. */
  ghost predicate Lives(l: Loop, e: Step)
    requires May(l, e)
  {
    && |Next(l, e).requests| == |l.requests|
    && forall x :: 0 <= x < |l.requests| ==> Known(l, x) && Next(l, e).requests[x] == Life(l, e, x)
  }

  /** Those that wait in a sequence are its own. */
  lemma WaitsHere(l: Loop, x: ID, s: nat)
    requires Inv(l) && x < |l.requests| && s < |l.sequences|
    ensures Known(l, x) && (x in l.sequences[s].pending <==> Waiting(l, x) && l.requests[x].sequence == s)
  {
    assert SequenceOk(l, s);
    hide Counts, Lists, Views, Occupied, PhaseOk;
  }

  lemma FreedOf(requests: seq<Request>, ids: seq<ID>, x: ID)
    requires x < |requests|
    ensures FreeAll(requests, ids)[x] == if x in ids then Unused(requests[x]) else requests[x]
  {
  }

  lemma KnownAll(l: Loop, x: ID)
    requires Inv(l) && x < |l.requests|
    ensures Known(l, x)
  {
    hide Counts, Lists, Views, Occupied, PhaseOk, SequenceOk;
  }

  lemma StartLives(l: Loop, r: ID)
    requires Inv(l) && May(l, StartStep(r))
    ensures Lives(l, StartStep(r))
  {
    forall x | 0 <= x < |l.requests| ensures Known(l, x) { KnownAll(l, x); }
    QueueForm(l, r);
    hide QueueSubmission, Inv;
  }

  lemma ExcludeLives(l: Loop, r: ID)
    requires Inv(l) && May(l, ExcludeStep(r))
    ensures Lives(l, ExcludeStep(r))
  {
    forall x | 0 <= x < |l.requests| ensures Known(l, x) { KnownAll(l, x); }
    assert Known(l, r) by { KnownAll(l, r); }
    hide Inv;
  }

  lemma IncludeLives(l: Loop, r: ID)
    requires Inv(l) && May(l, IncludeStep(r))
    ensures Lives(l, IncludeStep(r))
  {
    forall x | 0 <= x < |l.requests| ensures Known(l, x) { KnownAll(l, x); }
    assert Known(l, r) by { KnownAll(l, r); }
    hide Inv;
  }

  lemma PostLives(l: Loop, r: ID)
    requires Inv(l) && May(l, PostStep(r))
    ensures Lives(l, PostStep(r))
  {
    forall x | 0 <= x < |l.requests| ensures Known(l, x) { KnownAll(l, x); }
    hide Inv, Without;
  }

  lemma ReactivateForm(l: Loop, yes: bool, immediate: bool)
    requires (l.phase.Completing? || l.phase.Firing?) && Known(l, l.phase.request)
    ensures var c, q := l.phase.request, l.requests[l.phase.request];
            ReactivateRequest(l, yes, immediate).requests ==
            if q.state == Free && yes then Replaced(l, c, q.(state := if immediate then Active else Reactivate))
            else if q.state == Reactivate && !yes then Replaced(l, c, q.(state := Free))
            else l.requests
  {
    var c := l.phase.request;
    AddForm(Put(l.(phase := l.phase.(reactivated := yes)), c, l.requests[c].(state := Submitting)), c);
    hide AddActiveHandle, Without;
  }

  lemma ReactivateLives(l: Loop, yes: bool, immediate: bool)
    requires Inv(l) && May(l, ReactivateStep(yes, immediate))
    ensures Lives(l, ReactivateStep(yes, immediate))
  {
    ReactivateForm(l, yes, immediate);
    assert l.requests[l.phase.request].state == Free || l.requests[l.phase.request].state == Reactivate;
    hide ReactivateRequest, Inv, May;
    Uncleared(l, ReactivateStep(yes, immediate));
  }

  lemma CompleteLives(l: Loop, r: ID)
    requires Inv(l) && May(l, CompleteStep(r))
    ensures Lives(l, CompleteStep(r))
  {
    forall x | 0 <= x < |l.requests| ensures Known(l, x) { KnownAll(l, x); }
    RemoveForm(l, r);
    hide RemoveActiveHandle, Without, Inv;
  }

  lemma FireLives(l: Loop, r: ID)
    requires Inv(l) && May(l, FireStep(r))
    ensures Lives(l, FireStep(r))
  {
    forall x | 0 <= x < |l.requests| ensures Known(l, x) { KnownAll(l, x); }
    RemoveForm(l, r);
    hide RemoveActiveHandle, Without, Inv;
  }

  lemma EndReportLives(l: Loop)
    requires Inv(l) && May(l, EndReportStep)
    ensures Lives(l, EndReportStep)
  {
    forall x | 0 <= x < |l.requests| ensures Known(l, x) { KnownAll(l, x); }
    hide Inv, Released;
  }

  lemma EndFiringLives(l: Loop)
    requires Inv(l) && May(l, EndFiringStep)
    ensures Lives(l, EndFiringStep)
  {
    forall x | 0 <= x < |l.requests| ensures Known(l, x) { KnownAll(l, x); }
    hide Inv;
  }

  lemma DrainLives(l: Loop, r: ID)
    requires Inv(l) && May(l, DrainStep(r))
    ensures Lives(l, DrainStep(r))
  {
    forall x | 0 <= x < |l.requests| ensures Known(l, x) { KnownAll(l, x); }
    hide Inv;
  }

  /** A sequence is cleared, after the requests have become those given. */
  lemma Cleared(l: Loop, e: Step, requests: seq<Request>, s: nat)
    requires Inv(l) && May(l, e) && s < |l.sequences| && Clears(l, e, s)
    requires forall t :: 0 <= t < |l.sequences| && t != s ==> !Clears(l, e, t)
    requires |requests| == |l.requests| && Next(l, e).requests == FreeAll(requests, l.sequences[s].pending)
    requires forall x :: 0 <= x < |l.requests| ==>
               requests[x] == if x == Own(l, e) then Fate(l, e, l.requests[x]) else l.requests[x]
    requires Own(l, e) >= 0 ==> Own(l, e) !in l.sequences[s].pending
    ensures Lives(l, e)
  {
    hide Next, Fate, Inv, May, Clears, FreeAll;
    forall x | 0 <= x < |l.requests| ensures Known(l, x) && Next(l, e).requests[x] == Life(l, e, x) {
      WaitsHere(l, x, s);
      FreedOf(requests, l.sequences[s].pending, x);
    }
  }

  /** No sequence is cleared. */
  lemma Uncleared(l: Loop, e: Step)
    requires Inv(l) && May(l, e) && |Next(l, e).requests| == |l.requests|
    requires forall t :: 0 <= t < |l.sequences| ==> !Clears(l, e, t)
    requires forall x :: 0 <= x < |l.requests| ==>
               Next(l, e).requests[x] == if x == Own(l, e) then Fate(l, e, l.requests[x]) else l.requests[x]
    ensures Lives(l, e)
  {
    hide Next, Fate, Inv, May, Clears;
    forall x | 0 <= x < |l.requests| ensures Known(l, x) && Next(l, e).requests[x] == Life(l, e, x) {
      KnownAll(l, x);
    }
  }

  lemma ClearLives(l: Loop, s: nat)
    requires Inv(l) && May(l, ClearStep(s))
    ensures Lives(l, ClearStep(s))
  {
    hide Inv, FreeAll, Untracked;
    Cleared(l, ClearStep(s), l.requests, s);
  }

  lemma StopActiveForm(l: Loop, r: ID, onClose: bool)
    requires Known(l, r) && l.requests[r].state == Active
    ensures Stop(l, r, onClose).requests ==
            Replaced(l, r, l.requests[r].(onClose := onClose, state := Cancelling, manual := false))
  {
    RemoveForm(l, r);
    hide RemoveActiveHandle, Without;
  }

  lemma StopQueuedForm(l: Loop, r: ID, onClose: bool)
    requires Known(l, r) && InUse(l.requests[r]) && l.requests[r].state != Active
    ensures var q := l.requests[r];
            var requests := Replaced(l, r, q.(onClose := onClose, state := Cancelling));
            Stop(l, r, onClose).requests ==
            if q.sequence != NONE && l.sequences[q.sequence].clearOnCancel
            then FreeAll(requests, l.sequences[q.sequence].pending) else requests
  {
    var q' := l.requests[r].(onClose := onClose, state := Cancelling);
    PushForm(Put(l, r, q').(submissions := Without(l.submissions, r), submitted := l.submitted - 1), r);
    hide RemoveActiveHandle, PushToCancellationQueue, Without, FreeAll;
  }

  lemma StopIdleForm(l: Loop, r: ID, onClose: bool)
    requires Known(l, r) && !InUse(l.requests[r])
    ensures Stop(l, r, onClose).requests == Replaced(l, r, l.requests[r].(onClose := onClose))
  {
  }

  lemma StopLives(l: Loop, r: ID, onClose: bool)
    requires Inv(l) && May(l, StopStep(r, onClose))
    ensures Lives(l, StopStep(r, onClose))
  {
    var e, q := StopStep(r, onClose), l.requests[r];
    hide Stop, FreeAll, Inv;
    if q.state == Active {
      StopActiveForm(l, r, onClose);
      Uncleared(l, e);
    } else if InUse(q) {
      StopQueuedForm(l, r, onClose);
      if q.sequence != NONE && l.sequences[q.sequence].clearOnCancel {
        Cleared(l, e, l.requests[r := q.(onClose := onClose, state := Cancelling)], q.sequence);
      } else {
        Uncleared(l, e);
      }
    } else {
      StopIdleForm(l, r, onClose);
      Uncleared(l, e);
    }
  }

  lemma FailLives(l: Loop, r: ID)
    requires Inv(l) && May(l, FailStep(r))
    ensures Lives(l, FailStep(r))
  {
    var e, q := FailStep(r), l.requests[r];
    NotWaiting(l, r, NONE);
    ReportForm(l, r);
    hide Report, FreeAll, Inv;
    if q.sequence != NONE && l.sequences[q.sequence].clearOnError {
      Cleared(l, e, l.requests[r := q.(state := Free)], q.sequence);
    } else {
      Uncleared(l, e);
    }
  }

  /** A request that has left its sequence does not wait in it. */
  lemma NotWaiting(l: Loop, r: ID, loose: int)
    requires InvAt(l, loose) && Known(l, r)
    requires r in l.submissions || (l.requests[r].state != Setup && r != loose)
    ensures l.requests[r].sequence != NONE ==> r !in l.sequences[l.requests[r].sequence].pending
  {
    assert Placed(Look(l, r), r == loose);
    hide Counts, Lists, Sequences, Occupied;
  }

  lemma EndCompletionLives(l: Loop, ok: bool)
    requires Inv(l) && May(l, EndCompletionStep(ok))
    ensures Lives(l, EndCompletionStep(ok))
  {
    var e, s := EndCompletionStep(ok), l.requests[l.phase.request].sequence;
    if s != NONE {
      ResumeForm(l.(phase := Idle), s);
    }
    hide ResumeSequence, FreeAll, Inv, Untracked, Taken;
    if s != NONE && Clears(l, e, s) {
      Cleared(l, e, l.requests, s);
    } else {
      Uncleared(l, e);
    }
  }

  lemma FinishLives(l: Loop, r: ID)
    requires Inv(l) && May(l, FinishStep(r))
    ensures Lives(l, FinishStep(r))
  {
    FinishForm(l, r);
    hide FinishCancellation, Inv;
    Uncleared(l, FinishStep(r));
  }

  lemma FinishForm(l: Loop, r: ID)
    requires Known(l, r)
    ensures var q := l.requests[r];
            FinishCancellation(l, r).requests ==
            Replaced(l, r, Unused(q).(onClose := false, closed := q.closed + if q.onClose then 1 else 0))
  {
    hide Without, Popped, Untracked;
  }

  lemma ActivateForm(l: Loop, r: ID, a: Answer)
    requires Known(l, r)
    ensures var q := l.requests[r];
            var requests := Replaced(l, r, q.(state := if a.activated then Active else Submitting, manual := a.manual));
            Activate(l, r, a).requests ==
            if !a.activated && q.sequence != NONE && l.sequences[q.sequence].clearOnError
            then FreeAll(requests, l.sequences[q.sequence].pending) else requests
  {
    var submitting := Put(l, r, l.requests[r].(state := Submitting, manual := a.manual));
    ReportForm(submitting, r);
    AddForm(submitting.(manuals := if a.manual then l.manuals + [r] else l.manuals), r);
    hide AddActiveHandle, Report, FreeAll;
  }

  lemma StageForm(l: Loop, a: Answer)
    requires l.submissions != [] && Known(l, l.submissions[0])
    requires var q := l.requests[l.submissions[0]];
             q.state == Setup || q.state == Reactivate || q.state == Cancelling
    ensures var r := l.submissions[0];
            var q := l.requests[r];
            var requests := Replaced(l, r, Fate(l, StageStep(a), q));
            Stage(l, a).requests ==
            if q.sequence != NONE && EmptiesSequence(q, a, l.sequences[q.sequence])
            then FreeAll(requests, l.sequences[q.sequence].pending) else requests
  {
    hide Stage, FreeAll;
    var q := l.requests[l.submissions[0]];
    if q.state == Cancelling {
      StageCancelForm(l, a);
    } else if q.state == Setup && !a.setUp {
      StageRefusedForm(l, a);
    } else {
      StageActivatesForm(l, a);
    }
  }

  lemma StageRefusedForm(l: Loop, a: Answer)
    requires l.submissions != [] && Known(l, l.submissions[0]) && !a.setUp
    requires l.requests[l.submissions[0]].state == Setup
    ensures var r := l.submissions[0];
            var q := l.requests[r];
            var requests := Replaced(l, r, q.(manual := false));
            Stage(l, a).requests ==
            if q.sequence != NONE && l.sequences[q.sequence].clearOnError
            then FreeAll(requests, l.sequences[q.sequence].pending) else requests
  {
    var r := l.submissions[0];
    var taken := l.(submissions := l.submissions[1..], submitted := l.submitted - 1);
    hide Activate, Report, PushToCancellationQueue, Failed, FreeAll;
    ReportForm(Put(taken, r, l.requests[r].(manual := false)), r);
  }

  lemma StageActivatesForm(l: Loop, a: Answer)
    requires l.submissions != [] && Known(l, l.submissions[0])
    requires var q := l.requests[l.submissions[0]]; q.state == Reactivate || (q.state == Setup && a.setUp)
    ensures var r := l.submissions[0];
            var q := l.requests[r];
            var requests := Replaced(l, r, q.(state := if a.activated then Active else Submitting, manual := a.manual));
            Stage(l, a).requests ==
            if !a.activated && q.sequence != NONE && l.sequences[q.sequence].clearOnError
            then FreeAll(requests, l.sequences[q.sequence].pending) else requests
  {
    var taken := l.(submissions := l.submissions[1..], submitted := l.submitted - 1);
    hide Activate, Report, PushToCancellationQueue, Failed, FreeAll;
    ActivateForm(taken, l.submissions[0], a);
  }

  lemma StageCancelForm(l: Loop, a: Answer)
    requires l.submissions != [] && Known(l, l.submissions[0]) && l.requests[l.submissions[0]].state == Cancelling
    ensures var r := l.submissions[0];
            var q := l.requests[r];
            var requests := Replaced(l, r, Fate(l, StageStep(a), q));
            Stage(l, a).requests ==
            if q.sequence != NONE && l.sequences[q.sequence].clearOnCancel && a.cancelled
            then FreeAll(requests, l.sequences[q.sequence].pending) else requests
  {
    var r := l.submissions[0];
    var q := l.requests[r];
    var taken := l.(submissions := l.submissions[1..], submitted := l.submitted - 1);
    hide Activate, Report, PushToCancellationQueue, Failed, FreeAll;
    PushForm(Put(taken, r, q.(waits := a.waits)), r);
    FailedForm(Put(taken, r, q.(lost := true)), r);
  }

  lemma StageLives(l: Loop, a: Answer)
    requires Inv(l) && May(l, StageStep(a))
    ensures Lives(l, StageStep(a))
  {
    var e, r := StageStep(a), l.submissions[0];
    var q := l.requests[r];
    assert r in l.submissions;
    NotWaiting(l, r, NONE);
    Stageable(l);
    StageForm(l, a);
    hide Stage, FreeAll, Inv, Fate;
    if q.sequence != NONE && EmptiesSequence(q, a, l.sequences[q.sequence]) {
      Cleared(l, e, l.requests[r := Fate(l, e, q)], q.sequence);
    } else {
      Uncleared(l, e);
    }
  }

  lemma Stageable(l: Loop)
    requires Inv(l) && l.phase == Idle && l.submissions != [] && Known(l, l.submissions[0])
    ensures var state := l.requests[l.submissions[0]].state;
            state == Setup || state == Reactivate || state == Cancelling
  {
    assert Placed(Look(l, l.submissions[0]), false);
    hide Counts, Lists, Sequences, Occupied;
  }

  /** Whatever the step, every request becomes what the simple form says. */
  lemma NextLives(l: Loop, e: Step)
    requires Inv(l) && May(l, e)
    ensures Lives(l, e)
  {
    hide Inv, May, Lives;
    match e {
      case StartStep(r) => StartLives(l, r);
      case StopStep(r, onClose) => StopLives(l, r, onClose);
      case ExcludeStep(r) => ExcludeLives(l, r);
      case IncludeStep(r) => IncludeLives(l, r);
      case PostStep(r) => PostLives(l, r);
      case ClearStep(s) => ClearLives(l, s);
      case ReactivateStep(yes, immediate) => ReactivateLives(l, yes, immediate);
      case StageStep(a) => StageLives(l, a);
      case CompleteStep(r) => CompleteLives(l, r);
      case EndCompletionStep(ok) => EndCompletionLives(l, ok);
      case FailStep(r) => FailLives(l, r);
      case EndReportStep => EndReportLives(l);
      case FireStep(r) => FireLives(l, r);
      case EndFiringStep => EndFiringLives(l);
      case FinishStep(r) => FinishLives(l, r);
      case DrainStep(r) => DrainLives(l, r);
    }
  }

  // ------------------------------------------------------------------ Stopping, and what is called when it is through

  /** Whether the last stop of the request has asked for a callback, since one was last through. */
  function Asked(steps: seq<Step>, r: ID, asked: bool): bool
    decreases |steps|
  {
    if steps == [] then asked else Asked(steps[1..], r, AskedBy(steps[0], r, asked))
  }

  function AskedBy(e: Step, r: ID, asked: bool): bool
  {
    match e
    case StopStep(x, onClose) => if x == r then onClose else asked
    case FinishStep(x) => asked && x != r
    case _ => asked
  }

  /** How many cancellations of the request have come to their end after a stop that asked for a callback. */
  function Calls(steps: seq<Step>, r: ID, asked: bool): nat
    decreases |steps|
  {
    if steps == [] then 0
    else (if steps[0] == FinishStep(r) && asked then 1 else 0) + Calls(steps[1..], r, AskedBy(steps[0], r, asked))
  }

  lemma LifeCloses(l: Loop, e: Step, r: ID)
    requires May(l, e) && Known(l, r)
    ensures Life(l, e, r).onClose == AskedBy(e, r, l.requests[r].onClose)
    ensures Life(l, e, r).closed == l.requests[r].closed + if e == FinishStep(r) && l.requests[r].onClose then 1 else 0
  {
    hide Clears, EmptiesSequence, Fate, AskedBy, May;
    if r == Own(l, e) {
      FateCloses(l, e, l.requests[r], r);
    } else {
      OthersAsked(l, e, r);
    }
  }

  lemma FateCloses(l: Loop, e: Step, q: Request, r: ID)
    requires May(l, e) && Own(l, e) == r
    ensures var q' := Fate(l, e, q);
            && q'.onClose == AskedBy(e, r, q.onClose)
            && q'.closed == q.closed + if e == FinishStep(r) && q.onClose then 1 else 0
  {
    hide May;
  }

  lemma OthersAsked(l: Loop, e: Step, r: ID)
    requires May(l, e) && Own(l, e) != r
    ensures e != FinishStep(r) && forall asked :: AskedBy(e, r, asked) == asked
  {
    hide May;
  }

  /** Over every run: the close callback of a request has run once for every cancellation that came to its end after a
      stop that asked for it, and for no other; a later stop replaces what an earlier one has asked for. */
  lemma {:induction false} CallbacksAsAsked(l: Loop, steps: seq<Step>, r: ID)
    requires Inv(l) && Allowed(l, steps) && r < |l.requests|
    ensures var l' := Run(l, steps);
            && |l'.requests| == |l.requests|
            && l'.requests[r].onClose == Asked(steps, r, l.requests[r].onClose)
            && l'.requests[r].closed == l.requests[r].closed + Calls(steps, r, l.requests[r].onClose)
    decreases |steps|
  {
    if steps != [] {
      KnownAll(l, r);
      StepKeeps(l, steps[0]);
      NextLives(l, steps[0]);
      LifeCloses(l, steps[0], r);
      hide Inv, May, Next, Life, AskedBy;
      CallbacksAsAsked(Next(l, steps[0]), steps[1..], r);
    }
  }

  lemma {:induction false} RunSize(l: Loop, steps: seq<Step>)
    requires Inv(l) && Allowed(l, steps)
    ensures |Run(l, steps).requests| == |l.requests|
    decreases |steps|
  {
    if steps != [] {
      StepKeeps(l, steps[0]);
      NextLives(l, steps[0]);
      hide Inv, May, Next, Life;
      RunSize(Next(l, steps[0]), steps[1..]);
    }
  }

  /** Whatever has become of the request before, what counts is the last stop. */
  lemma StopTells(l: Loop, r: ID, onClose: bool)
    requires Known(l, r)
    ensures var q := Stop(l, r, onClose).requests[r];
            q.onClose == onClose && q.closed == l.requests[r].closed
  {
    var q := l.requests[r];
    hide Stop, FreeAll;
    if q.state == Active {
      StopActiveForm(l, r, onClose);
    } else if InUse(q) {
      StopQueuedForm(l, r, onClose);
      if q.sequence != NONE {
        FreedOf(Replaced(l, r, q.(onClose := onClose, state := Cancelling)), l.sequences[q.sequence].pending, r);
      }
    } else {
      StopIdleForm(l, r, onClose);
    }
  }

  /** In every state a stop leaves the request with the callback it was given, free if it was free, and otherwise on
      its way to be cancelled. */
  lemma StopTold(l: Loop, r: ID, onClose: bool)
    requires Inv(l) && MayStop(l, r)
    ensures var q, q' := l.requests[r], Stop(l, r, onClose).requests[r];
            q'.onClose == onClose && q'.closed == q.closed && q'.state == if q.state == Free then Free else Cancelling
  {
    StopLives(l, r, onClose);
    hide Stop, Inv;
  }

  // ------------------------------------------------------------------ What is counted

  /** The number that is checked before polling: active requests that the loop waits for. */
  function Waited(l: Loop): int
  {
    l.actives + l.externals
  }

  predicate Counted(q: Request)
  {
    q.state == Active && !q.manual && !q.excluded
  }

  /** Nothing but the requests and the counters. */
  predicate SameQueues(l: Loop, l': Loop)
  {
    && l'.submissions == l.submissions && l'.cancellations == l.cancellations && l'.sequences == l.sequences
    && l'.submitted == l.submitted && l'.phase == l.phase && l'.failed == l.failed && l'.tickets == l.tickets
  }

  /** After excludeFromActiveCount a request that is in use and is not being cancelled is excluded, and the loop waits
      for one request less exactly if it waited for this one. Including it again undoes that. */
  lemma ExcludeExact(l: Loop, r: ID)
    requires Inv(l) && r < |l.requests|
    ensures var l' := Exclude(l, r);
            && |l'.requests| == |l.requests|
            && (forall x :: 0 <= x < |l.requests| && x != r ==> l'.requests[x] == l.requests[x])
            && var q, q' := l.requests[r], l'.requests[r];
               && (InUse(q) ==> q'.excluded) && (!InUse(q) ==> q' == q) && q' == q.(excluded := q'.excluded)
               && Waited(l') == Waited(l) - (if Counted(q) then 1 else 0) && l'.manualCount == l.manualCount
               && SameQueues(l, l') && l'.manuals == l.manuals && l'.listed == l.listed
               && (!q.excluded ==> Include(l', r) == l)
  {
    hide Inv;
    assert l.requests[r := l.requests[r]] == l.requests;
  }

  /** After includeInActiveCount a request that is in use is not excluded, and the loop waits for one request more
      exactly if this one is active, is not ready, and was excluded. */
  lemma IncludeExact(l: Loop, r: ID)
    requires Inv(l) && r < |l.requests|
    ensures var l' := Include(l, r);
            && |l'.requests| == |l.requests|
            && (forall x :: 0 <= x < |l.requests| && x != r ==> l'.requests[x] == l.requests[x])
            && var q, q' := l.requests[r], l'.requests[r];
               && (q.state != Free ==> !q'.excluded) && (q.state == Free ==> q' == q)
               && q' == q.(excluded := q'.excluded)
               && Waited(l') == Waited(l) + (if Counted(q') && q.excluded then 1 else 0)
               && l'.manualCount == l.manualCount
               && SameQueues(l, l') && l'.manuals == l.manuals && l'.listed == l.listed
               && (q.excluded && InUse(q) ==> Exclude(l', r) == l)
  {
    hide Inv;
    assert l.requests[r := l.requests[r]] == l.requests;
  }

  /** postExternalCompletion makes an active request ready, behind all that are: the loop has one request less to wait
      for exactly if it waited for this one, and one more completion to run exactly if this one was not ready. */
  lemma PostExact(l: Loop, r: ID)
    requires Inv(l) && Known(l, r)
    ensures var l' := Post(l, r);
            && |l'.requests| == |l.requests|
            && (forall x :: 0 <= x < |l.requests| && x != r ==> l'.requests[x] == l.requests[x])
            && var q, q' := l.requests[r], l'.requests[r];
               && (q.state == Active ==> q'.manual) && (q.state != Active ==> q' == q) && q' == q.(manual := q'.manual)
               && Waited(l') == Waited(l) - (if Counted(q) then 1 else 0)
               && l'.manualCount == l.manualCount + (if q.state == Active && !q.manual then 1 else 0)
               && l'.actives + l'.manualCount == l.actives + l.manualCount
               && l'.manuals == l.manuals + (if q.state == Active && !q.manual then [r] else [])
               && SameQueues(l, l')
  {
    hide Inv, Without;
    assert l.manuals + [] == l.manuals;
    assert l.requests[r := l.requests[r]] == l.requests;
  }

  /** Reactivating a request that its callback has stopped or started again, or one that is active, fails the loop's
      assertion; nothing else does. */
  lemma ReactivateFailsExactly(l: Loop, yes: bool, immediate: bool)
    requires Inv(l) && (l.phase.Completing? || l.phase.Firing?) && Known(l, l.phase.request)
    ensures var q := l.requests[l.phase.request];
            ReactivateRequest(l, yes, immediate).failed <==>
              q.state == Cancelling || q.state == Setup || q.state == Active || (q.state == Submitting && immediate)
  {
    assert !l.failed;
    hide Inv, Without;
  }

  lemma StageAsserts(l: Loop, a: Answer)
    requires l.submissions != [] && Known(l, l.submissions[0]) && !l.failed
    ensures Stage(l, a).failed <==>
              l.requests[l.submissions[0]].state == Free || l.requests[l.submissions[0]].state == Active
  {
    hide Without, FreeAll, Untracked, Taken;
  }

  /** The release assertions: only what is submitting becomes active, only what is active is removed, only what is being
      cancelled goes to the cancellations, and only what waits to be staged is. */
  lemma AssertsExactly(l: Loop, r: ID, a: Answer)
    requires Known(l, r) && !l.failed
    ensures AddActiveHandle(l, r).failed <==> l.requests[r].state != Submitting
    ensures RemoveActiveHandle(l, r).failed <==> l.requests[r].state != Active
    ensures PushToCancellationQueue(l, r).failed <==> l.requests[r].state != Cancelling
    ensures l.submissions != [] && l.submissions[0] == r ==>
              (Stage(l, a).failed <==> l.requests[r].state == Free || l.requests[r].state == Active)
  {
    hide Stage, Without, FreeAll, Untracked, Taken;
    if l.submissions != [] && l.submissions[0] == r { StageAsserts(l, a); }
  }

  /** A request that its own error callback has stopped, after its staging has failed, is still on its way to be
      cancelled when the callback has returned. */
  lemma StoppedInReport(l: Loop, r: ID, onClose: bool)
    requires Inv(l) && l.phase == Reporting(r) && Known(l, r) && l.requests[r].state != Free
    ensures var l1 := Stop(l, r, onClose);
            && l1.phase == l.phase && Known(l1, r)
            && var l2 := EndReport(l1);
               && l2 == l1.(phase := Idle) && l2.requests[r].state == Cancelling && l2.requests[r].onClose == onClose
               && r in l2.cancellations
  {
    StopQueuedForm(l, r, onClose);
    StopsQueued(l, r, onClose);
    var l1 := Stop(l, r, onClose);
    var s := l.requests[r].sequence;
    if s != NONE {
      FreedOf(Replaced(l, r, l.requests[r].(onClose := onClose, state := Cancelling)), l.sequences[s].pending, r);
      NotLoose(l, r);
    }
    hide Inv, Stop, FreeAll;
  }

  lemma StopsQueued(l: Loop, r: ID, onClose: bool)
    requires Known(l, r) && InUse(l.requests[r]) && l.requests[r].state != Active
    ensures var l' := Stop(l, r, onClose);
            l'.phase == l.phase && |l'.sequences| == |l.sequences| && r in l'.cancellations
  {
    hide Without, FreeAll, Untracked;
    assert r in l.cancellations + [r];
  }

  /** What is being staged, or has failed to be, does not wait in its sequence. */
  lemma NotLoose(l: Loop, r: ID)
    requires Inv(l) && l.phase == Reporting(r) && Known(l, r) && l.requests[r].state != Free
    ensures l.requests[r].sequence != NONE ==> r !in l.sequences[l.requests[r].sequence].pending
  {
    assert Placed(Look(l, r), true);
    hide Counts, Lists, Sequences, Occupied;
  }
}
