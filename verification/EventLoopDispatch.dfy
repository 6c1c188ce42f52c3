/** The steps in which the loop stages, completes and cancels requests keep the invariant. */
module EventLoopDispatch {

  import opened IntrusiveLists
  import opened EventLoopModel
  import opened EventLoopInvariant
  import opened EventLoopProofs
  import opened EventLoopSteps

  // ------------------------------------------------------------------ Reactivation

  /** Its callback reactivates a request that is free: it is submitted again, or about to be active. */
  lemma ToldKeeps(l: Loop, state: State)
    requires Inv(l) && (l.phase.Completing? || l.phase.Firing?) && Known(l, l.phase.request)
    requires l.requests[l.phase.request].state == Free && (state == Reactivate || state == Submitting)
    ensures var c := l.phase.request;
            var q := l.requests[c].(state := state);
            var told := l.(phase := l.phase.(reactivated := true));
            if state == Submitting then InvAt(Put(told, c, q), c)
            else InvAt(Put(told, c, q).(submissions := l.submissions + [c], submitted := l.submitted + 1), NONE)
  {
    var c := l.phase.request;
    var told := l.(phase := l.phase.(reactivated := true));
    PhaseChanges(l, told.phase, NONE);
    About(told, c, NONE);
    ListAppended(l.submissions, c, |l.requests|);
    var put := Put(told, c, l.requests[c].(state := state));
    var l' := if state == Submitting then put
        else put.(submissions := l.submissions + [c], submitted := l.submitted + 1);
    hide Views, Sequences, Occupied, Distinct, InOrder, PendingOk;
    MovedKeeps(told, l', c, NONE, if state == Submitting then c else NONE);
  }

  lemma ReactivateKeeps(l: Loop, immediate: bool)
    requires Inv(l) && MayReactivate(l, true, immediate) && l.requests[l.phase.request].state == Free
    ensures Inv(ReactivateRequest(l, true, immediate))
  {
    var c := l.phase.request;
    ToldKeeps(l, if immediate then Submitting else Reactivate);
    if immediate {
      var submitting := Put(l.(phase := l.phase.(reactivated := true)), c, l.requests[c].(state := Submitting));
      AddKeeps(submitting, c);
    }
    hide InvAt;
  }

  /** ... or takes it back. */
  lemma WithdrawKeeps(l: Loop, immediate: bool)
    requires Inv(l) && MayReactivate(l, false, immediate) && l.requests[l.phase.request].state == Reactivate
    ensures Inv(ReactivateRequest(l, false, immediate))
  {
    var c := l.phase.request;
    var l' := Put(l, c, l.requests[c].(state := Free)).(submissions := Without(l.submissions, c),
        submitted := l.submitted - 1);
    About(l, c, NONE);
    ListWithout(l.submissions, c, |l.requests|);
    assert InvAt(l', NONE) by {
      hide Views, Sequences, Occupied, Distinct, InOrder, PendingOk, Without;
      MovedKeeps(l, l', c, NONE, NONE);
    }
    PhaseChanges(l', l'.phase.(reactivated := false), NONE);
    hide InvAt, Without;
  }

  lemma ReactivateRequestKeeps(l: Loop, yes: bool, immediate: bool)
    requires Inv(l) && MayReactivate(l, yes, immediate)
    ensures Inv(ReactivateRequest(l, yes, immediate))
  {
    var state := l.requests[l.phase.request].state;
    if state == Free && yes {
      ReactivateKeeps(l, immediate);
    } else if state == Reactivate && !yes {
      WithdrawKeeps(l, immediate);
    } else {
      PhaseChanges(l, l.phase.(reactivated := yes), NONE);
      hide InvAt;
    }
  }

  // ------------------------------------------------------------------ Errors

  /** Counting a failure changes nothing else. */
  lemma FailedKeeps(l: Loop, r: ID, loose: int)
    requires InvAt(l, loose) && Known(l, r)
    ensures InvAt(Failed(l, r), loose) && Failed(l, r).phase == l.phase
  {
    About(l, r, loose);
    assert l.requests[r := l.requests[r]] == l.requests;
    hide Views, Sequences, Occupied, Distinct, InOrder, PendingOk;
    MovedKeeps(l, Failed(l, r), r, loose, loose);
  }

  /** The error of a request that is free or whose staging has failed. */
  lemma ReportedKeeps(l: Loop, r: ID)
    requires InvAt(l, r) && l.phase == Idle && Known(l, r)
    requires l.requests[r].state == Free || l.requests[r].state == Setup || l.requests[r].state == Submitting
    ensures var s := l.requests[r].sequence;
            var cleared := if s != NONE && l.sequences[s].clearOnError then ClearSequence(l, s) else l;
            Inv(cleared.(phase := Reporting(r)))
  {
    var s := l.requests[r].sequence;
    About(l, r, r);
    if s != NONE && l.sequences[s].clearOnError {
      ClearKeeps(l, s, r);
      var l' := ClearSequence(l, s);
      assert l'.requests[r] == l.requests[r];
      PhaseChanges(l', Reporting(r), r);
    } else {
      PhaseChanges(l, Reporting(r), r);
    }
    hide InvAt;
  }

  lemma FailKeeps(l: Loop, r: ID)
    requires Inv(l) && l.phase == Idle && Known(l, r) && l.requests[r].state == Active && !l.requests[r].manual
    ensures Inv(Report(l, r))
  {
    FailedKeeps(l, r, NONE);
    var failed := Failed(l, r);
    RemoveKeeps(failed, r, NONE);
    var l' := RemoveActiveHandle(failed, r);
    Loosens(l', r, NONE, r);
    SameFlags(failed, r);
    hide InvAt, RemoveActiveHandle;
    ReportedKeeps(l', r);
  }

  lemma SameFlags(l: Loop, r: ID)
    requires Known(l, r)
    ensures var s := l.requests[r].sequence;
            s != NONE ==> RemoveActiveHandle(l, r).sequences[s].clearOnError == l.sequences[s].clearOnError
  {
  }

  lemma EndReportKeeps(l: Loop)
    requires Inv(l) && l.phase.Reporting? && Known(l, l.phase.request)
    ensures Inv(EndReport(l))
  {
    var r := l.phase.request;
    var idle := l.(phase := Idle);
    PhaseChanges(l, Idle, r);
    About(idle, r, r);
    hide Views, Sequences, Occupied, Distinct, InOrder, PendingOk;
    MovedKeeps(idle, EndReport(l), r, r, NONE);
  }

  // ------------------------------------------------------------------ Staging

  /** The first submission leaves the queue. */
  function Dequeued(l: Loop): Loop
    requires l.submissions != []
  {
    l.(submissions := l.submissions[1..], submitted := l.submitted - 1)
  }

  lemma DequeuedKeeps(l: Loop)
    requires Inv(l) && l.phase == Idle && l.submissions != []
    ensures Known(l, l.submissions[0]) && InvAt(Dequeued(l), l.submissions[0])
    ensures var state := l.requests[l.submissions[0]].state;
            state == Setup || state == Reactivate || state == Cancelling
    ensures !l.requests[l.submissions[0]].lost
  {
    var r := l.submissions[0];
    assert r in l.submissions;
    About(l, r, NONE);
    ListTaken(l.submissions, |l.requests|);
    assert l.requests[r := l.requests[r]] == l.requests;
    hide Views, Sequences, Occupied, Distinct, InOrder, PendingOk;
    MovedKeeps(l, Dequeued(l), r, NONE, r);
  }

  lemma SubmittingKeeps(l: Loop, r: ID, manual: bool)
    requires InvAt(l, r) && Known(l, r) && (l.requests[r].state == Setup || l.requests[r].state == Reactivate)
    ensures InvAt(Put(l, r, l.requests[r].(state := Submitting, manual := manual)), r)
  {
    About(l, r, r);
    hide Views, Sequences, Occupied, Distinct, InOrder, PendingOk;
    MovedKeeps(l, Put(l, r, l.requests[r].(state := Submitting, manual := manual)), r, r, r);
  }

  lemma ActivateKeeps(l: Loop, r: ID, a: Answer)
    requires InvAt(l, r) && l.phase == Idle && Known(l, r) &&
             (l.requests[r].state == Setup || l.requests[r].state == Reactivate)
    ensures Inv(Activate(l, r, a))
  {
    SubmittingKeeps(l, r, a.manual);
    var submitting := Put(l, r, l.requests[r].(state := Submitting, manual := a.manual));
    hide InvAt;
    if a.activated {
      AddKeeps(submitting, r);
      assert Activate(l, r, a) == Added(submitting, r);
    } else {
      FailedKeeps(submitting, r, r);
      ReportedKeeps(Failed(submitting, r), r);
    }
  }

  lemma UnsetKeeps(l: Loop, r: ID)
    requires InvAt(l, r) && l.phase == Idle && Known(l, r) && l.requests[r].state == Setup
    ensures Inv(Report(Put(l, r, l.requests[r].(manual := false)), r))
  {
    var l' := Put(l, r, l.requests[r].(manual := false));
    About(l, r, r);
    assert InvAt(l', r) by {
      hide Views, Sequences, Occupied, Distinct, InOrder, PendingOk;
      MovedKeeps(l, l', r, r, r);
    }
    FailedKeeps(l', r, r);
    hide InvAt;
    ReportedKeeps(Failed(l', r), r);
  }

  lemma CancelKeeps(l: Loop, r: ID, waits: bool)
    requires InvAt(l, r) && l.phase == Idle && Known(l, r) && l.requests[r].state == Cancelling && !l.requests[r].lost
    ensures Inv(PushToCancellationQueue(Put(l, r, l.requests[r].(waits := waits)), r))
  {
    var put := Put(l, r, l.requests[r].(waits := waits));
    var l' := put.(cancellations := l.cancellations + [r]);
    About(l, r, r);
    ListAppended(l.cancellations, r, |l.requests|);
    assert InvAt(l', NONE) by {
      hide Views, Sequences, Occupied, Distinct, InOrder, PendingOk;
      MovedKeeps(l, l', r, r, NONE);
    }
    hide InvAt;
    PushKeeps(put, r);
  }

  /** A request that cannot be cancelled is lost. */
  lemma LoseKeeps(l: Loop, r: ID)
    requires InvAt(l, r) && l.phase == Idle && Known(l, r) && l.requests[r].state == Cancelling
    ensures Inv(Failed(Put(l, r, l.requests[r].(lost := true)), r))
  {
    var l' := Put(l, r, l.requests[r].(lost := true));
    About(l, r, r);
    assert InvAt(l', NONE) by {
      hide Views, Sequences, Occupied, Distinct, InOrder, PendingOk;
      MovedKeeps(l, l', r, r, NONE);
    }
    hide InvAt;
    FailedKeeps(l', r, NONE);
  }

  lemma StageKeeps(l: Loop, a: Answer)
    requires Inv(l) && l.phase == Idle && l.submissions != [] && Known(l, l.submissions[0])
    ensures Inv(Stage(l, a))
  {
    var r := l.submissions[0];
    var q := l.requests[r];
    DequeuedKeeps(l);
    var taken := Dequeued(l);
    hide InvAt;
    if q.state == Cancelling {
      if a.cancelled {
        CancelKeeps(taken, r, a.waits);
      } else {
        LoseKeeps(taken, r);
      }
    } else if q.state == Setup && !a.setUp {
      UnsetKeeps(taken, r);
    } else {
      ActivateKeeps(taken, r, a);
    }
  }

  // ------------------------------------------------------------------ Completions

  lemma CompleteKeeps(l: Loop, r: ID)
    requires Inv(l) && l.phase == Idle && Known(l, r) && l.requests[r].state == Active
    ensures Inv(Complete(l, r))
  {
    RemoveKeeps(l, r, NONE);
    PhaseChanges(Removed(l, r), Completing(r, false), NONE);
    hide InvAt, RemoveActiveHandle, Without;
  }

  lemma FireKeeps(l: Loop, r: ID)
    requires Inv(l) && l.phase == Idle && Known(l, r) && l.requests[r].state == Active
    requires !l.requests[r].manual && l.requests[r].sequence == NONE
    ensures Inv(Fire(l, r))
  {
    RemoveKeeps(l, r, NONE);
    PhaseChanges(RemoveActiveHandle(l, r), Firing(r, false), NONE);
    hide InvAt, RemoveActiveHandle;
  }

  /** The request that has been reactivated has its sequence again. */
  lemma TakenKeeps(l: Loop)
    requires Inv(l) && l.phase.Completing? && l.phase.reactivated && Known(l, l.phase.request)
    requires l.requests[l.phase.request].sequence != NONE
    ensures Inv(EndCompletion(l, true)) && EndCompletion(l, false) == EndCompletion(l, true)
  {
    var c := l.phase.request;
    var s := l.requests[c].sequence;
    var l' := PutSequence(l, s, Taken(l.sequences[s], c));
    About(l, c, NONE);
    assert l.requests[c := l.requests[c]] == l.requests;
    assert InvAt(l', NONE) by {
      hide Views, Sequences, Occupied, Distinct, InOrder, PendingOk;
      MovedKeeps(l, l', c, NONE, NONE);
    }
    PhaseChanges(l', Idle, NONE);
    hide InvAt;
  }

  lemma EndCompletionKeeps(l: Loop, ok: bool)
    requires Inv(l) && l.phase.Completing? && Known(l, l.phase.request)
    ensures Inv(EndCompletion(l, ok))
  {
    var s := l.requests[l.phase.request].sequence;
    if s != NONE && l.phase.reactivated {
      TakenKeeps(l);
    } else {
      PhaseChanges(l, Idle, NONE);
      var idle := l.(phase := Idle);
      if s != NONE && !ok && l.sequences[s].clearOnError {
        ClearKeeps(idle, s, NONE);
      } else if s != NONE {
        ResumeKeeps(idle, s, NONE);
      }
      hide InvAt;
    }
  }

  lemma EndFiringKeeps(l: Loop)
    requires Inv(l) && l.phase.Firing?
    ensures Inv(EndFiring(l))
  {
    PhaseChanges(l, Idle, NONE);
    hide InvAt;
  }

  // ------------------------------------------------------------------ Cancellations

  /** A cancelled request is free, and its sequence goes on without it. */
  function Finished(l: Loop, r: ID): (l': Loop)
    requires Known(l, r)
    ensures |l'.sequences| == |l.sequences| && l'.phase == l.phase
  {
    var q := l.requests[r];
    var freed :=
      Put(l, r, MarkedAsFree(q).(onClose := false, closed := q.closed + if q.onClose then 1 else 0))
        .(cancellations := Without(l.cancellations, r));
    if q.sequence != NONE && l.sequences[q.sequence].runner == r
    then PutSequence(freed, q.sequence, Released(l.sequences[q.sequence], r))
    else freed
  }

  lemma FinishForm(l: Loop, r: ID)
    requires Known(l, r)
    requires l.requests[r].sequence != NONE ==> TrackedOk(l.sequences[l.requests[r].sequence])
    ensures FinishCancellation(l, r) ==
            var s := l.requests[r].sequence;
            if s == NONE || l.sequences[s].clearOnCancel then Finished(l, r) else ResumeSequence(Finished(l, r), s)
  {
    var s := l.requests[r].sequence;
    if s != NONE {
      var v := l.sequences[s];
      if v.runner == r {
        assert Released(v, r).runner == NONE;
      } else {
        assert l.sequences[s := v] == l.sequences;
      }
    }
  }

  lemma FinishedKeeps(l: Loop, r: ID)
    requires Inv(l) && Known(l, r) && r in l.cancellations && l.phase == Idle
    ensures Inv(Finished(l, r))
  {
    About(l, r, NONE);
    ListWithout(l.cancellations, r, |l.requests|);
    hide Views, Sequences, Occupied, Distinct, InOrder, PendingOk, Without;
    MovedKeeps(l, Finished(l, r), r, NONE, NONE);
  }

  lemma FinishKeeps(l: Loop, r: ID)
    requires Inv(l) && Known(l, r) && r in l.cancellations && l.phase == Idle
    ensures Inv(FinishCancellation(l, r))
  {
    About(l, r, NONE);
    FinishForm(l, r);
    FinishedKeeps(l, r);
    var s := l.requests[r].sequence;
    if s != NONE && !l.sequences[s].clearOnCancel {
      ResumeKeeps(Finished(l, r), s, NONE);
    }
    hide InvAt, Finished, SequenceOk;
  }

  lemma DrainKeeps(l: Loop, r: ID)
    requires Inv(l) && r < |l.requests| && r in l.cancellations && l.phase == Idle
    ensures Inv(Drain(l, r))
  {
    About(l, r, NONE);
    hide Views, Sequences, Occupied, Distinct, InOrder, PendingOk;
    MovedKeeps(l, Drain(l, r), r, NONE, NONE);
  }
}
