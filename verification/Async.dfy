/** The event loop as the program has it: fields that its methods update in place. Each method computes the function
    that the theorems about the loop speak of. */
module Async {

  import opened IntrusiveLists
  import opened EventLoopModel
  import opened EventLoopInvariant
  import EventLoopDispatch
  import EventLoopLife
  import opened EventLoopShutdown
  import opened EventLoopTheorems

  class AsyncEventLoop {
    var requests: seq<Request>
    var sequences: seq<Sequence>
    var submissions: seq<ID>
    var cancellations: seq<ID>
    var manualCompletions: seq<ID>
    var activeRequests: seq<ID>
    var numberOfSubmissions: int
    var numberOfActiveHandles: int
    var numberOfManualCompletions: int
    var numberOfExternals: int
    var tickets: nat
    var phase: Phase
    var failed: bool

    ghost function Snapshot(): Loop
      reads this
    {
      Loop(requests, sequences, submissions, cancellations, manualCompletions, activeRequests,
           numberOfSubmissions, numberOfActiveHandles, numberOfManualCompletions, numberOfExternals,
           tickets, phase, failed)
    }

    constructor (requests: seq<Request>, sequences: seq<Sequence>)
      ensures Snapshot() == Initial(requests, sequences)
    {
      this.requests, this.sequences := requests, sequences;
      submissions, cancellations, manualCompletions, activeRequests := [], [], [], [];
      numberOfSubmissions, numberOfActiveHandles, numberOfManualCompletions, numberOfExternals := 0, 0, 0, 0;
      tickets, phase, failed := 0, Idle, false;
    }

    method Assert(holds: bool)
      modifies `failed
      ensures failed == (old(failed) || !holds)
    {
      if !holds {
        failed := true;
      }
    }

    method SetState(r: ID, state: State)
      requires r < |requests|
      modifies `requests
      ensures requests == old(requests)[r := old(requests)[r].(state := state)]
    {
      requests := requests[r := requests[r].(state := state)];
    }

    /** The request goes to the end of the submission queue. */
    method Submit(r: ID)
      modifies `submissions, `numberOfSubmissions
      ensures submissions == old(submissions) + [r] && numberOfSubmissions == old(numberOfSubmissions) + 1
    {
      submissions := submissions + [r];
      numberOfSubmissions := numberOfSubmissions + 1;
    }

    // ------------------------------------------------------------------ Sequences

    method TrackSequence(s: nat)
      requires s < |sequences|
      modifies `sequences
      ensures sequences == old(sequences)[s := old(sequences)[s].(tracked := true)]
    {
      if !sequences[s].tracked {
        sequences := sequences[s := sequences[s].(tracked := true)];
      }
    }

    method UntrackSequenceIfIdle(s: nat)
      requires s < |sequences|
      modifies `sequences
      ensures sequences == old(sequences)[s := Untracked(old(sequences)[s])]
    {
      if sequences[s].tracked && !sequences[s].running && sequences[s].pending == [] {
        sequences := sequences[s := sequences[s].(tracked := false)];
      }
    }

    method PopNextInSequence(s: nat)
      requires s < |sequences| && sequences[s].pending != []
      modifies `sequences, `submissions, `numberOfSubmissions
      ensures Snapshot() == PopNext(old(Snapshot()), s)
    {
      var v := sequences[s];
      var next := v.pending[0];
      sequences := sequences[s := v.(pending := v.pending[1..], running := true, runner := next,
                                     entered := v.entered + [TicketOf(requests, next)])];
      TrackSequence(s);
      Submit(next);
    }

    method QueueSubmission(r: ID)
      requires Known(Snapshot(), r)
      modifies `requests, `sequences, `submissions, `numberOfSubmissions, `tickets
      ensures Snapshot() == EventLoopModel.QueueSubmission(old(Snapshot()), r)
    {
      requests := requests[r := requests[r].(state := Setup, ticket := tickets)];
      tickets := tickets + 1;
      if requests[r].sequence != NONE {
        QueueInSequence(r, requests[r].sequence);
      } else {
        Submit(r);
      }
    }

    method QueueInSequence(r: ID, s: nat)
      requires s < |sequences|
      modifies `sequences, `submissions, `numberOfSubmissions
      ensures var v := old(sequences)[s];
              var queued := PutSequence(old(Snapshot()), s, v.(pending := v.pending + [r], tracked := true));
              Snapshot() == if v.running then queued else PopNext(queued, s)
    {
      hide Popped;
      sequences := sequences[s := sequences[s].(pending := sequences[s].pending + [r])];
      TrackSequence(s);
      if !sequences[s].running {
        PopNextInSequence(s);
      }
    }

    method ResumeSequence(s: nat)
      requires s < |sequences|
      modifies `sequences, `submissions, `numberOfSubmissions
      ensures Snapshot() == EventLoopModel.ResumeSequence(old(Snapshot()), s)
    {
      if !sequences[s].running {
        if sequences[s].pending != [] {
          PopNextInSequence(s);
        } else {
          UntrackSequenceIfIdle(s);
        }
      }
    }

    /** The requests that wait are freed one by one. */
    method ClearSequence(s: nat)
      requires s < |sequences|
      modifies `requests, `sequences
      ensures Snapshot() == EventLoopModel.ClearSequence(old(Snapshot()), s) && |sequences| == old(|sequences|)
    {
      FreePending(s);
      UntrackSequenceIfIdle(s);
    }

    method FreePending(s: nat)
      requires s < |sequences|
      modifies `requests, `sequences
      ensures requests == FreeAll(old(requests), old(sequences)[s].pending)
      ensures sequences == old(sequences)[s := old(sequences)[s].(pending := [])]
    {
      ghost var was := sequences[s].pending;
      ghost var n := 0;
      while sequences[s].pending != []
        invariant n <= |was| && sequences == old(sequences)[s := old(sequences)[s].(pending := was[n..])]
        invariant requests == FreeAll(old(requests), was[..n])
        decreases |was| - n
      {
        var r := sequences[s].pending[0];
        sequences := sequences[s := sequences[s].(pending := sequences[s].pending[1..])];
        if r < |requests| {
          requests := requests[r := MarkedAsFree(requests[r])];
        }
        assert was[..n + 1] == was[..n] + [r];
        n := n + 1;
      }
      assert was[..n] == was;
    }

    // ------------------------------------------------------------------ Active handles

    /** The sequence of the request is not running any more. */
    method ReleaseSequence(s: nat, r: ID)
      requires s < |sequences|
      modifies `sequences
      ensures sequences == old(sequences)[s := Released(old(sequences)[s], r)]
    {
      sequences := sequences[s := sequences[s].(running := false)];
      if sequences[s].runner == r {
        sequences := sequences[s := sequences[s].(runner := NONE)];
      }
      UntrackSequenceIfIdle(s);
    }

    method RemoveActiveHandle(r: ID)
      requires Known(Snapshot(), r)
      modifies `failed, `requests, `sequences, `activeRequests
      modifies `numberOfManualCompletions, `numberOfActiveHandles, `numberOfExternals
      ensures Snapshot() == EventLoopModel.RemoveActiveHandle(old(Snapshot()), r)
    {
      hide Released, Without;
      var q := requests[r];
      FreeActive(r);
      Unlist(r, q);
    }

    /** The request is free, and its sequence is not running any more. */
    method FreeActive(r: ID)
      requires Known(Snapshot(), r)
      modifies `failed, `requests, `sequences
      ensures failed == (old(failed) || old(requests)[r].state != Active)
      ensures requests == old(requests)[r := old(requests)[r].(state := Free)]
      ensures var s := old(requests)[r].sequence;
              sequences == if s == NONE then old(sequences) else old(sequences)[s := Released(old(sequences)[s], r)]
    {
      Assert(requests[r].state == Active);
      SetState(r, Free);
      if requests[r].sequence != NONE {
        ReleaseSequence(requests[r].sequence, r);
      }
    }

    method Unlist(r: ID, q: Request)
      modifies `activeRequests, `numberOfManualCompletions, `numberOfActiveHandles, `numberOfExternals
      ensures numberOfManualCompletions == old(numberOfManualCompletions) - if q.manual then 1 else 0
      ensures numberOfActiveHandles == old(numberOfActiveHandles) - if q.manual then 0 else 1
      ensures numberOfExternals == old(numberOfExternals) + if !q.manual && q.excluded then 1 else 0
      ensures activeRequests == if !q.manual && q.sequence == NONE then Without(old(activeRequests), r)
              else old(activeRequests)
    {
      if q.manual {
        numberOfManualCompletions := numberOfManualCompletions - 1;
        return;
      }
      CountOut(q);
      if q.sequence == NONE {
        activeRequests := Without(activeRequests, r);
      }
    }

    method CountOut(q: Request)
      modifies `numberOfActiveHandles, `numberOfExternals
      ensures numberOfActiveHandles == old(numberOfActiveHandles) - 1
      ensures numberOfExternals == old(numberOfExternals) + if q.excluded then 1 else 0
    {
      numberOfActiveHandles := numberOfActiveHandles - 1;
      if q.excluded {
        numberOfExternals := numberOfExternals + 1;
      }
    }

    method CountIn(q: Request)
      modifies `numberOfActiveHandles, `numberOfExternals
      ensures numberOfActiveHandles == old(numberOfActiveHandles) + 1
      ensures numberOfExternals == old(numberOfExternals) - if q.excluded then 1 else 0
    {
      numberOfActiveHandles := numberOfActiveHandles + 1;
      if q.excluded {
        numberOfExternals := numberOfExternals - 1;
      }
    }

    method TakeSequence(s: nat, r: ID)
      requires s < |sequences|
      modifies `sequences
      ensures sequences == old(sequences)[s := Taken(old(sequences)[s], r)]
    {
      TrackSequence(s);
      sequences := sequences[s := sequences[s].(running := true, runner := r)];
    }

    method AddActiveHandle(r: ID)
      requires Known(Snapshot(), r)
      modifies `failed, `requests, `sequences, `activeRequests
      modifies `numberOfManualCompletions, `numberOfActiveHandles, `numberOfExternals
      ensures Snapshot() == EventLoopModel.AddActiveHandle(old(Snapshot()), r)
    {
      hide Taken;
      Assert(requests[r].state == Submitting);
      SetState(r, Active);
      var q := requests[r];
      if !q.manual && q.sequence != NONE {
        TakeSequence(q.sequence, r);
      }
      List(r, q);
    }

    method List(r: ID, q: Request)
      modifies `activeRequests, `numberOfManualCompletions, `numberOfActiveHandles, `numberOfExternals
      ensures numberOfManualCompletions == old(numberOfManualCompletions) + if q.manual then 1 else 0
      ensures numberOfActiveHandles == old(numberOfActiveHandles) + if q.manual then 0 else 1
      ensures numberOfExternals == old(numberOfExternals) - if !q.manual && q.excluded then 1 else 0
      ensures activeRequests == if !q.manual && q.sequence == NONE then old(activeRequests) + [r]
              else old(activeRequests)
    {
      if q.manual {
        numberOfManualCompletions := numberOfManualCompletions + 1;
        return;
      }
      CountIn(q);
      if q.sequence == NONE {
        activeRequests := activeRequests + [r];
      }
    }

    // ------------------------------------------------------------------ What callers do

    /** A request that is in use cannot be started. */
    method Start(r: ID) returns (ok: bool)
      requires Known(Snapshot(), r)
      modifies this
      ensures ok == (old(requests)[r].state == Free)
      ensures Snapshot() == EventLoopModel.Start(old(Snapshot()), r)
    {
      if requests[r].state != Free {
        return false;
      }
      QueueSubmission(r);
      return true;
    }

    method PushToCancellationQueue(r: ID)
      requires Known(Snapshot(), r)
      modifies this
      ensures Snapshot() == EventLoopModel.PushToCancellationQueue(old(Snapshot()), r)
    {
      Assert(requests[r].state == Cancelling);
      var s := requests[r].sequence;
      if s != NONE && sequences[s].clearOnCancel {
        ClearSequence(s);
      }
      cancellations := cancellations + [r];
    }

    /** The close callback is stored together with the state. */
    method Stop(r: ID, onClose: bool) returns (ok: bool)
      requires Known(Snapshot(), r)
      modifies this
      ensures ok == (old(requests)[r].state != Free)
      ensures Snapshot() == EventLoopModel.Stop(old(Snapshot()), r, onClose)
      ensures requests[r].onClose == onClose && requests[r].closed == old(requests)[r].closed
    {
      EventLoopLife.StopTells(Snapshot(), r, onClose);
      hide EventLoopModel.RemoveActiveHandle, EventLoopModel.PushToCancellationQueue, Without;
      ok := true;
      match requests[r].state
      case Active =>
        StopActive(r, onClose);
      case Setup =>
        StopSubmitted(r, onClose);
      case Submitting =>
        StopSubmitted(r, onClose);
      case Reactivate =>
        StopSubmitted(r, onClose);
      case Free =>
        requests := requests[r := requests[r].(onClose := onClose)];
        ok := false;
      case Cancelling =>
        requests := requests[r := requests[r].(onClose := onClose)];
    }

    method StopActive(r: ID, onClose: bool)
      requires Known(Snapshot(), r) && requests[r].state == Active
      modifies this
      ensures Snapshot() == EventLoopModel.Stop(old(Snapshot()), r, onClose)
    {
      hide Without, EventLoopModel.RemoveActiveHandle;
      RemoveActiveHandle(r);
      if requests[r].manual {
        manualCompletions := Without(manualCompletions, r);
      }
      requests := requests[r := requests[r].(state := Cancelling, manual := false, onClose := onClose)];
      Submit(r);
    }

    method StopSubmitted(r: ID, onClose: bool)
      requires Known(Snapshot(), r)
      requires requests[r].state == Setup || requests[r].state == Submitting || requests[r].state == Reactivate
      modifies this
      ensures Snapshot() == EventLoopModel.Stop(old(Snapshot()), r, onClose)
    {
      hide Without, EventLoopModel.PushToCancellationQueue;
      requests := requests[r := requests[r].(state := Cancelling, onClose := onClose)];
      numberOfSubmissions := numberOfSubmissions - 1;
      submissions := Without(submissions, r);
      PushToCancellationQueue(r);
    }

    method ExcludeFromActiveCount(r: ID)
      requires r < |requests|
      modifies this
      ensures Snapshot() == Exclude(old(Snapshot()), r)
    {
      if requests[r].state != Free && requests[r].state != Cancelling && !requests[r].excluded {
        requests := requests[r := requests[r].(excluded := true)];
        if requests[r].state == Active && !requests[r].manual {
          numberOfExternals := numberOfExternals - 1;
        }
      }
    }

    method IncludeInActiveCount(r: ID)
      requires r < |requests|
      modifies this
      ensures Snapshot() == Include(old(Snapshot()), r)
    {
      if requests[r].state != Free && requests[r].excluded {
        if requests[r].state == Active && !requests[r].manual {
          numberOfExternals := numberOfExternals + 1;
        }
        requests := requests[r := requests[r].(excluded := false)];
      }
    }

    method PostExternalCompletion(r: ID)
      requires Known(Snapshot(), r)
      modifies this
      ensures Snapshot() == Post(old(Snapshot()), r)
    {
      if requests[r].state != Active || requests[r].manual {
        return;
      }
      if requests[r].sequence == NONE {
        activeRequests := Without(activeRequests, r);
      }
      CountOut(requests[r]);
      requests := requests[r := requests[r].(manual := true)];
      numberOfManualCompletions := numberOfManualCompletions + 1;
      manualCompletions := manualCompletions + [r];
    }

    method ReactivateRequest(yes: bool, immediate: bool)
      requires (phase.Completing? || phase.Firing?) && Known(Snapshot(), phase.request)
      modifies this
      ensures Snapshot() == EventLoopModel.ReactivateRequest(old(Snapshot()), yes, immediate)
    {
      hide EventLoopModel.AddActiveHandle, Without;
      var c := phase.request;
      phase := phase.(reactivated := yes);
      var state := requests[c].state;
      if state == Free && yes {
        Resubmit(c, immediate);
      } else if state == Reactivate && !yes {
        SetState(c, Free);
        submissions := Without(submissions, c);
        numberOfSubmissions := numberOfSubmissions - 1;
      } else if state == Submitting {
        Assert(!immediate);
      } else {
        Assert(state == Free || state == Reactivate);
      }
    }

    method Resubmit(c: ID, immediate: bool)
      requires Known(Snapshot(), c)
      modifies this
      ensures var l, state := old(Snapshot()), if immediate then Submitting else Reactivate;
              var put := Put(l, c, l.requests[c].(state := state));
              Snapshot() == if immediate then EventLoopModel.AddActiveHandle(put, c)
                            else put.(submissions := l.submissions + [c], submitted := l.submitted + 1)
    {
      hide EventLoopModel.AddActiveHandle;
      if immediate {
        SetState(c, Submitting);
        AddActiveHandle(c);
      } else {
        SetState(c, Reactivate);
        Submit(c);
      }
    }

    // ------------------------------------------------------------------ What the loop does

    /** The record of the failures of a sequence. */
    method CountFailure(r: ID)
      requires Known(Snapshot(), r)
      modifies `sequences
      ensures Snapshot() == Failed(old(Snapshot()), r)
    {
      var s := requests[r].sequence;
      if s != NONE {
        sequences := sequences[s := sequences[s].(failures := sequences[s].failures + 1)];
      }
    }

    method ReportError(r: ID)
      requires Known(Snapshot(), r)
      modifies this
      ensures Snapshot() == Report(old(Snapshot()), r)
    {
      hide EventLoopModel.ClearSequence, Without, Released, EventLoopModel.RemoveActiveHandle;
      EventLoopDispatch.SameFlags(Failed(Snapshot(), r), r);
      CountFailure(r);
      if requests[r].state == Active {
        RemoveActiveHandle(r);
      }
      var s := requests[r].sequence;
      if s != NONE && sequences[s].clearOnError {
        ClearSequence(s);
      }
      phase := Reporting(r);
    }

    method EndError()
      requires phase.Reporting? && Known(Snapshot(), phase.request)
      modifies this
      ensures Snapshot() == EndReport(old(Snapshot()))
    {
      var r := phase.request;
      phase := Idle;
      if requests[r].state != Cancelling {
        var s := requests[r].sequence;
        if s != NONE && sequences[s].runner == r {
          sequences := sequences[s := sequences[s].(running := false, runner := NONE)];
          UntrackSequenceIfIdle(s);
        }
        requests := requests[r := MarkedAsFree(requests[r])];
      }
    }

    method ActivateAsync(r: ID, a: Answer)
      requires Known(Snapshot(), r)
      modifies this
      ensures Snapshot() == Activate(old(Snapshot()), r, a)
    {
      hide Report, EventLoopModel.AddActiveHandle;
      requests := requests[r := requests[r].(state := Submitting, manual := a.manual)];
      if a.activated {
        if requests[r].manual {
          manualCompletions := manualCompletions + [r];
        }
        AddActiveHandle(r);
      } else {
        ReportError(r);
      }
    }

    /** The first submission is taken from the queue and staged. */
    method StageSubmission(a: Answer)
      requires submissions != [] && Known(Snapshot(), submissions[0])
      modifies this
      ensures Snapshot() == Stage(old(Snapshot()), a)
    {
      hide Report, Activate, EventLoopModel.PushToCancellationQueue;
      var r := submissions[0];
      submissions := submissions[1..];
      numberOfSubmissions := numberOfSubmissions - 1;
      match requests[r].state
      case Setup =>
        if a.setUp {
          ActivateAsync(r, a);
        } else {
          requests := requests[r := requests[r].(manual := false)];
          ReportError(r);
        }
      case Submitting =>
        ActivateAsync(r, a);
      case Reactivate =>
        ActivateAsync(r, a);
      case Cancelling =>
        if a.cancelled {
          requests := requests[r := requests[r].(waits := a.waits)];
          PushToCancellationQueue(r);
        } else {
          requests := requests[r := requests[r].(lost := true)];
          CountFailure(r);
        }
      case Free =>
        Assert(false);
      case Active =>
        Assert(false);
    }

    method CompleteAsync(r: ID)
      requires Known(Snapshot(), r)
      modifies this
      ensures Snapshot() == Complete(old(Snapshot()), r)
    {
      hide Without, Released;
      manualCompletions := Without(manualCompletions, r);
      RemoveActiveHandle(r);
      phase := Completing(r, false);
    }

    method EndCompletion(ok: bool)
      requires phase.Completing? && Known(Snapshot(), phase.request)
      modifies this
      ensures Snapshot() == EventLoopModel.EndCompletion(old(Snapshot()), ok)
    {
      hide EventLoopModel.ClearSequence, EventLoopModel.ResumeSequence;
      var r, reactivated := phase.request, phase.reactivated;
      var s := requests[r].sequence;
      phase := Idle;
      if s != NONE {
        if reactivated {
          TakeSequence(s, r);
        } else if !ok && sequences[s].clearOnError {
          ClearSequence(s);
        } else {
          ResumeSequence(s);
        }
      }
    }

    method CompleteCancellation(r: ID)
      requires Known(Snapshot(), r)
      modifies this
      ensures Snapshot() == FinishCancellation(old(Snapshot()), r)
    {
      hide EventLoopModel.ResumeSequence, Without;
      var s := requests[r].sequence;
      if s != NONE && sequences[s].runner == r {
        sequences := sequences[s := sequences[s].(running := false, runner := NONE)];
      }
      requests := requests[r := MarkedAsFree(requests[r])];
      cancellations := Without(cancellations, r);
      if requests[r].onClose {
        requests := requests[r := requests[r].(onClose := false, closed := requests[r].closed + 1)];
      }
      assert requests == old(requests)[r := requests[r]];
      assert s != NONE ==> old(sequences)[s := old(sequences)[s]] == old(sequences);
      if s != NONE {
        if !sequences[s].clearOnCancel {
          ResumeSequence(s);
        } else {
          UntrackSequenceIfIdle(s);
        }
      }
    }

    // ------------------------------------------------------------------ Closing

    method StopOne(r: ID)
      modifies this
      ensures Snapshot() == Stopped(old(Snapshot()), r) && |sequences| == old(|sequences|)
    {
      hide EventLoopModel.Stop;
      if r < |requests| && -1 <= requests[r].sequence < |sequences| {
        if requests[r].state != Cancelling && requests[r].state != Free {
          var ok := Stop(r, false);
        }
      }
    }

    /** The walk over a list keeps the next request before it stops one, so it sees those that were in the list. */
    method StopRequests(list: seq<ID>)
      modifies this
      ensures Snapshot() == StopEach(old(Snapshot()), list)
    {
      hide Stopped;
      var i := 0;
      while i < |list|
        invariant i <= |list| && StopEach(old(Snapshot()), list) == StopEach(Snapshot(), list[i..])
      {
        assert list[i..][1..] == list[i + 1..];
        StopOne(list[i]);
        i := i + 1;
      }
    }

    method StopSequenceRequests()
      modifies this
      ensures Snapshot() == StopRunners(old(Snapshot()))
    {
      hide Stopped;
      var s := 0;
      while s < |sequences|
        invariant s <= |sequences| == old(|sequences|)
        invariant StopRunners(old(Snapshot())) == StopRunners(Snapshot(), s)
      {
        var v := sequences[s];
        if v.tracked && v.runner >= 0 {
          StopOne(v.runner);
        }
        s := s + 1;
      }
    }

    method StopAll()
      modifies this
      ensures Snapshot() == CloseAll(old(Snapshot()))
    {
      hide StopEach, StopRunners, EventLoopModel.ClearSequence;
      var s := 0;
      while s < |sequences|
        invariant s <= |sequences| == old(|sequences|) && ClearAll(old(Snapshot())) == ClearAll(Snapshot(), s)
      {
        ClearSequence(s);
        s := s + 1;
      }
      StopRequests(submissions);
      StopSequenceRequests();
      StopRequests(activeRequests);
      StopRequests(manualCompletions);
    }

    // ------------------------------------------------------------------ Runs

    method FireTimer(r: ID)
      requires Known(Snapshot(), r)
      modifies this
      ensures Snapshot() == Fire(old(Snapshot()), r)
    {
      hide EventLoopModel.RemoveActiveHandle;
      RemoveActiveHandle(r);
      phase := Firing(r, false);
    }

    method DrainCancellation(r: ID)
      requires r < |requests|
      modifies `requests
      ensures Snapshot() == Drain(old(Snapshot()), r)
    {
      requests := requests[r := requests[r].(waits := false)];
    }

    /** One step of a caller, of the loop or of the kernel. */
    method Take(e: Step)
      requires May(Snapshot(), e)
      modifies this
      ensures Snapshot() == Next(old(Snapshot()), e)
    {
      hide EventLoopModel.Start, EventLoopModel.Stop, Exclude, Include, Post, EventLoopModel.ClearSequence,
        EventLoopModel.ReactivateRequest, Stage, Complete, EventLoopModel.EndCompletion, Report, EndReport, Fire,
        FinishCancellation, Drain;
      match e {
        case StartStep(r) => var started := Start(r);
        case StopStep(r, onClose) => var stopped := Stop(r, onClose);
        case ExcludeStep(r) => ExcludeFromActiveCount(r);
        case IncludeStep(r) => IncludeInActiveCount(r);
        case PostStep(r) => PostExternalCompletion(r);
        case ClearStep(s) => ClearSequence(s);
        case ReactivateStep(yes, immediate) => ReactivateRequest(yes, immediate);
        case StageStep(a) => StageSubmission(a);
        case CompleteStep(r) => CompleteAsync(r);
        case EndCompletionStep(ok) => EndCompletion(ok);
        case FailStep(r) => ReportError(r);
        case EndReportStep => EndError();
        case FireStep(r) => FireTimer(r);
        case EndFiringStep => phase := Idle;
        case FinishStep(r) => CompleteCancellation(r);
        case DrainStep(r) => DrainCancellation(r);
      }
    }

    /** A whole run: from a loop that has just been created no assertion fails, the counters agree with the requests,
        each sequence has at most one request under way, and the close callbacks have run as the stops have asked. */
    method TakeAll(steps: seq<Step>)
      requires Fresh(requests, sequences) && Snapshot() == Initial(requests, sequences)
      requires Allowed(Snapshot(), steps)
      modifies this
      ensures Snapshot() == Run(old(Snapshot()), steps) && Inv(Snapshot())
      ensures !failed && numberOfSubmissions == |submissions|
      ensures numberOfActiveHandles == Total(requests, CountsAsActive)
      ensures numberOfExternals == -Total(requests, CountsAsExternal)
      ensures numberOfManualCompletions == Total(requests, CountsAsManual)
      ensures numberOfActiveHandles + numberOfExternals >= 0
      ensures OneAtATime(Snapshot()) && |requests| == old(|requests|)
      ensures forall r :: 0 <= r < |requests| ==>
                && requests[r].onClose == EventLoopLife.Asked(steps, r, old(requests)[r].onClose)
                && requests[r].closed ==
                   old(requests)[r].closed + EventLoopLife.Calls(steps, r, old(requests)[r].onClose)
    {
      hide May, Next, Fresh, Inv, Initial;
      ghost var l := Snapshot();
      var i := 0;
      assert steps[0..] == steps;
      while i < |steps|
        invariant i <= |steps| && Allowed(Snapshot(), steps[i..]) && Run(l, steps) == Run(Snapshot(), steps[i..])
      {
        assert steps[i..][1..] == steps[i + 1..];
        Take(steps[i]);
        i := i + 1;
      }
      assert Snapshot() == Run(l, steps);
      hide Run, Allowed;
      RunHolds(l.requests, l.sequences, steps, Snapshot());
      RunCloses(l.requests, l.sequences, steps, Snapshot());
    }

    static lemma RunCloses(requests: seq<Request>, sequences: seq<Sequence>, steps: seq<Step>, l: Loop)
      requires Fresh(requests, sequences) && Allowed(Initial(requests, sequences), steps)
      requires l == Run(Initial(requests, sequences), steps)
      ensures |l.requests| == |requests|
      ensures forall r :: 0 <= r < |requests| ==>
                && l.requests[r].onClose == EventLoopLife.Asked(steps, r, requests[r].onClose)
                && l.requests[r].closed == requests[r].closed + EventLoopLife.Calls(steps, r, requests[r].onClose)
    {
      InitialInv(requests, sequences);
      assert Initial(requests, sequences).requests == requests;
      hide Run, Allowed, Fresh, Initial, Inv, EventLoopLife.Asked, EventLoopLife.Calls;
      ReachedInv(requests, sequences, steps);
      forall r | 0 <= r < |requests|
        ensures |l.requests| == |requests|
        ensures l.requests[r].onClose == EventLoopLife.Asked(steps, r, requests[r].onClose)
        ensures l.requests[r].closed == requests[r].closed + EventLoopLife.Calls(steps, r, requests[r].onClose)
      {
        EventLoopLife.CallbacksAsAsked(Initial(requests, sequences), steps, r);
      }
      EventLoopLife.RunSize(Initial(requests, sequences), steps);
    }

    /** What the theorems say of the loop that a run ends in. */
    static lemma RunHolds(requests: seq<Request>, sequences: seq<Sequence>, steps: seq<Step>, l: Loop)
      requires Fresh(requests, sequences) && Allowed(Initial(requests, sequences), steps)
      requires l == Run(Initial(requests, sequences), steps)
      ensures Inv(l) && OneAtATime(l) && !l.failed && l.submitted == |l.submissions|
      ensures l.actives == Total(l.requests, CountsAsActive) && l.externals == -Total(l.requests, CountsAsExternal)
      ensures l.manualCount == Total(l.requests, CountsAsManual) && l.actives + l.externals >= 0
    {
      hide Run, Allowed, Fresh;
      ReachedInv(requests, sequences, steps);
      CountersExact(requests, sequences, steps);
      hide Views, Sequences, Lists;
      OneUnderWay(l);
    }

    // ------------------------------------------------------------------ Running until all is closed

    /** One step on the way to the end. */
    method Shut(e: Step)
      requires Closing(Snapshot()) && Shuts(Snapshot(), e)
      modifies this
      ensures Snapshot() == Next(old(Snapshot()), e) && Closing(Snapshot())
      ensures Kept(old(Snapshot()), Snapshot()) && Measure(Snapshot()) < Measure(old(Snapshot()))
    {
      ShutdownKeeps(Snapshot(), e);
      hide Next, May, Closing, Measure;
      Take(e);
    }

    /** submitRequests: every cancellation is staged. For those in `slow` the kernel has to be waited for. */
    method SubmitCancellations(slow: set<ID>)
      requires Closing(Snapshot())
      modifies this
      ensures Closing(Snapshot()) && submissions == [] && Kept(old(Snapshot()), Snapshot())
    {
      hide Closing, Kept, Measure, Stage;
      KeptItself(Snapshot());
      while submissions != []
        invariant Closing(Snapshot()) && Kept(old(Snapshot()), Snapshot())
        decreases |submissions|
      {
        ghost var l := Snapshot();
        var a := Answer(true, true, false, true, submissions[0] in slow);
        QueuedCancels(l, submissions[0]);
        MayStage(l, a);
        StageQueues(l, a);
        Shut(StageStep(a));
        KeptThen(old(Snapshot()), l, Snapshot());
      }
    }

    /** The kernel drains the cancellations of these requests, or all. */
    method Poll(drained: set<ID>, all: bool)
      requires Closing(Snapshot())
      modifies this
      ensures Closing(Snapshot()) && Kept(old(Snapshot()), Snapshot())
      ensures submissions == old(submissions) && cancellations == old(cancellations)
      ensures all ==> NoneWaits(Snapshot())
    {
      hide Closing, Kept, Measure;
      KeptItself(Snapshot());
      var walk, i := cancellations, 0;
      while i < |walk|
        invariant i <= |walk| && Closing(Snapshot()) && Kept(old(Snapshot()), Snapshot())
        invariant submissions == old(submissions) && cancellations == walk
        invariant all ==> forall j :: 0 <= j < i ==> walk[j] < |requests| && !requests[walk[j]].waits
      {
        ghost var l := Snapshot();
        var r := walk[i];
        QueuedCancels(l, r);
        if requests[r].waits && (all || r in drained) {
          Shut(DrainStep(r));
          KeptThen(old(Snapshot()), l, Snapshot());
        }
        i := i + 1;
      }
    }

    /** executeCancellationCallbacks: those that do not wait for the kernel are finished. */
    method ExecuteCancellations()
      requires Closing(Snapshot())
      modifies this
      ensures Closing(Snapshot()) && Kept(old(Snapshot()), Snapshot()) && submissions == old(submissions)
      ensures old(NoneWaits(Snapshot())) ==> cancellations == []
    {
      hide Closing, Kept, Measure, Without, FinishCancellation;
      KeptItself(Snapshot());
      CancellationsDistinct(Snapshot());
      var walk, i := cancellations, 0;
      while i < |walk|
        invariant i <= |walk| && Closing(Snapshot()) && Kept(old(Snapshot()), Snapshot()) &&
                  submissions == old(submissions)
        invariant forall j :: i <= j < |walk| ==> walk[j] in cancellations
        invariant |requests| == old(|requests|)
        invariant forall j :: i <= j < |walk| && walk[j] < |requests| ==> requests[walk[j]] == old(requests)[walk[j]]
        invariant old(NoneWaits(Snapshot())) ==> forall x :: x in cancellations ==> x in walk[i..]
      {
        ghost var l := Snapshot();
        var r := walk[i];
        QueuedCancels(l, r);
        assert walk[i..] == [r] + walk[i + 1..];
        if !requests[r].waits {
          FinishQueues(l, r);
          Shut(FinishStep(r));
          KeptThen(old(Snapshot()), l, Snapshot());
        }
        i := i + 1;
      }
      assert walk[i..] == [];
      SomeMember(cancellations);
    }

    /** close: everything is stopped, and the loop runs until nothing is left to submit or to cancel. Which
        cancellations the kernel is slow to drain, and at which poll it drains them, is up to the environment; at the
        end of its list it drains what is left. */
    method Close(slow: set<ID>, polls: seq<set<ID>>)
      requires Inv(Snapshot()) && phase == Idle && NothingLost(Snapshot())
      modifies this
      ensures Closed(Snapshot()) && |requests| == old(|requests|)
      ensures forall x :: 0 <= x < |requests| ==> requests[x].closed == Owed(old(requests)[x])
    {
      hide Inv, Closing, Kept, Measure, CloseAll;
      CloseStopsAll(Snapshot());
      StopAll();
      ghost var l := Snapshot();
      KeptItself(l);
      EmptyIsDone(l);
      var k := 0;
      while submissions != [] || cancellations != []
        invariant Closing(Snapshot()) && Kept(l, Snapshot())
        decreases Measure(Snapshot()) + if k < |polls| then |polls| - k else 0
      {
        ghost var l1 := Snapshot();
        EmptyIsDone(l1);
        SubmitCancellations(slow);
        ghost var l2 := Snapshot();
        Poll(if k < |polls| then polls[k] else {}, k >= |polls|);
        ghost var l3 := Snapshot();
        ExecuteCancellations();
        KeptThen(l1, l2, l3);
        KeptThen(l1, l3, Snapshot());
        KeptThen(l, l1, Snapshot());
        KeptMeasure(l1, Snapshot());
        EmptyIsDone(Snapshot());
        k := k + 1;
      }
      EmptyIsDone(Snapshot());
      ClosedAtEnd(Snapshot());
      AllClosed(l, Snapshot());
    }
  }
}
