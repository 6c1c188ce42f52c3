/** The request lifecycle of the event loop: the queues a request goes through, the counters that tell the loop
    whether it may stop, and the sequences that run their requests one at a time. The kernel is the environment: it
    decides whether an operation succeeds, whether it completes at once, and when completions arrive. */
module EventLoopModel {

  import opened IntrusiveLists

  const NONE := -1

  datatype State = Free | Setup | Submitting | Active | Reactivate | Cancelling

  /** `manual`: the completion is ready without the kernel. `waits`: the kernel has still to drain the cancellation.
      `lost`: the kernel could not cancel it, and the loop has forgotten it. `ticket`: when it was last started.
      `closed`: how often its close callback has run. */
  datatype Request = Request(
    state: State, manual: bool, excluded: bool, waits: bool, lost: bool,
    sequence: int, ticket: nat, onClose: bool, closed: nat)

  /** `runner` is the source's runningRequest. `entered` records the tickets of the requests that have left the
      sequence for the submission queue, and `failures` how often a request of it has failed or got lost. */
  datatype Sequence = Sequence(
    pending: seq<ID>, running: bool, runner: int, tracked: bool,
    clearOnError: bool, clearOnCancel: bool, entered: seq<nat>, failures: nat)

  /** Which callback is running, if any. */
  datatype Phase =
    | Idle
    | Completing(request: ID, reactivated: bool)
    | Firing(request: ID, reactivated: bool)
    | Reporting(request: ID)

  /** `listed` stands for the lists of active requests, one for each type. `failed`: a release assertion did not
      hold. */
  datatype Loop = Loop(
    requests: seq<Request>, sequences: seq<Sequence>,
    submissions: seq<ID>, cancellations: seq<ID>, manuals: seq<ID>, listed: seq<ID>,
    submitted: int, actives: int, manualCount: int, externals: int,
    tickets: nat, phase: Phase, failed: bool)

  function Initial(requests: seq<Request>, sequences: seq<Sequence>): Loop
  {
    Loop(requests, sequences, [], [], [], [], 0, 0, 0, 0, 0, Idle, false)
  }

  predicate Known(l: Loop, r: ID)
  {
    r < |l.requests| && -1 <= l.requests[r].sequence < |l.sequences|
  }

  function Put(l: Loop, r: ID, q: Request): Loop
    requires r < |l.requests|
  {
    l.(requests := l.requests[r := q])
  }

  function PutSequence(l: Loop, s: nat, v: Sequence): Loop
    requires s < |l.sequences|
  {
    l.(sequences := l.sequences[s := v])
  }

  function MarkedAsFree(q: Request): Request
  {
    q.(state := Free, manual := false, excluded := false, waits := false)
  }

  // ------------------------------------------------------------------ Sequences

  function Untracked(v: Sequence): Sequence
  {
    if v.tracked && !v.running && v.pending == [] then v.(tracked := false) else v
  }

  function Released(v: Sequence, r: ID): (v': Sequence)
    ensures v'.pending == v.pending && v'.entered == v.entered && !v'.running && v'.runner != r
    ensures v.runner != r ==> v'.runner == v.runner
    ensures v.tracked ==> (v'.tracked <==> v.pending != [])
    ensures v'.failures == v.failures && v'.clearOnError == v.clearOnError && v'.clearOnCancel == v.clearOnCancel
  {
    Untracked(v.(running := false, runner := if v.runner == r then NONE else v.runner))
  }

  function Taken(v: Sequence, r: ID): Sequence
  {
    v.(tracked := true, running := true, runner := r)
  }

  function TicketOf(requests: seq<Request>, x: ID): nat
  {
    if x < |requests| then requests[x].ticket else 0
  }

  function Popped(v: Sequence, requests: seq<Request>): Sequence
    requires v.pending != []
  {
    Taken(v, v.pending[0]).(pending := v.pending[1..], entered := v.entered + [TicketOf(requests, v.pending[0])])
  }

  function PopNext(l: Loop, s: nat): Loop
    requires s < |l.sequences| && l.sequences[s].pending != []
  {
    var v := l.sequences[s];
    PutSequence(l, s, Popped(v, l.requests)).(submissions := l.submissions + [v.pending[0]],
        submitted := l.submitted + 1)
  }

  function ResumeSequence(l: Loop, s: nat): Loop
    requires s < |l.sequences|
  {
    var v := l.sequences[s];
    if v.running then l
    else if v.pending != [] then PopNext(l, s)
    else PutSequence(l, s, Untracked(v))
  }

  function FreeAll(requests: seq<Request>, ids: seq<ID>): (r: seq<Request>)
    ensures |r| == |requests|
  {
    seq(|requests|, x requires 0 <= x < |requests| => if x in ids then MarkedAsFree(requests[x]) else requests[x])
  }

  function ClearSequence(l: Loop, s: nat): (l': Loop)
    requires s < |l.sequences|
    ensures |l'.requests| == |l.requests| && |l'.sequences| == |l.sequences|
  {
    var v := l.sequences[s];
    PutSequence(l, s, Untracked(v.(pending := []))).(requests := FreeAll(l.requests, v.pending))
  }

  function QueueSubmission(l: Loop, r: ID): Loop
    requires Known(l, r)
  {
    var q := l.requests[r];
    var put := Put(l, r, q.(state := Setup, ticket := l.tickets)).(tickets := l.tickets + 1);
    if q.sequence == NONE then put.(submissions := l.submissions + [r], submitted := l.submitted + 1)
    else
      var v := l.sequences[q.sequence];
      var queued := PutSequence(put, q.sequence, v.(pending := v.pending + [r], tracked := true));
      if v.running then queued else PopNext(queued, q.sequence)
  }

  // ------------------------------------------------------------------ Active handles

  function AddActiveHandle(l: Loop, r: ID): Loop
    requires Known(l, r)
  {
    var q := l.requests[r];
    var put := Put(l, r, q.(state := Active)).(failed := l.failed || q.state != Submitting);
    if q.manual then put.(manualCount := l.manualCount + 1)
    else
      var counted := put.(actives := l.actives + 1, externals := l.externals - if q.excluded then 1 else 0);
      if q.sequence == NONE then counted.(listed := l.listed + [r])
      else PutSequence(counted, q.sequence, Taken(l.sequences[q.sequence], r))
  }

  function RemoveActiveHandle(l: Loop, r: ID): (l': Loop)
    requires Known(l, r)
    ensures |l'.requests| == |l.requests| && |l'.sequences| == |l.sequences|
    ensures l'.requests[r] == l.requests[r].(state := Free) && l'.phase == l.phase
    ensures l'.submissions == l.submissions && l'.submitted == l.submitted
    ensures l'.cancellations == l.cancellations && l'.manuals == l.manuals
  {
    var q := l.requests[r];
    var put := Put(l, r, q.(state := Free)).(failed := l.failed || q.state != Active);
    var released := if q.sequence == NONE then put
        else PutSequence(put, q.sequence, Released(l.sequences[q.sequence], r));
    if q.manual then released.(manualCount := l.manualCount - 1)
    else
      var counted := released.(actives := l.actives - 1, externals := l.externals + if q.excluded then 1 else 0);
      if q.sequence == NONE then counted.(listed := Without(l.listed, r)) else counted
  }

  // ------------------------------------------------------------------ What callers do

  function Start(l: Loop, r: ID): Loop
    requires Known(l, r)
  {
    if l.requests[r].state != Free then l else QueueSubmission(l, r)
  }

  function PushToCancellationQueue(l: Loop, r: ID): (l': Loop)
    requires Known(l, r)
    ensures |l'.requests| == |l.requests| && |l'.sequences| == |l.sequences|
  {
    var q := l.requests[r];
    var cleared := if q.sequence != NONE && l.sequences[q.sequence].clearOnCancel then ClearSequence(l, q.sequence)
        else l;
    cleared.(cancellations := l.cancellations + [r], failed := l.failed || q.state != Cancelling)
  }

  function Stop(l: Loop, r: ID, onClose: bool): (l': Loop)
    requires Known(l, r)
    ensures |l'.requests| == |l.requests| && |l'.sequences| == |l.sequences|
  {
    var q := l.requests[r].(onClose := onClose);
    match q.state
    case Free => Put(l, r, q)
    case Cancelling => Put(l, r, q)
    case Active =>
      Put(RemoveActiveHandle(l, r), r, q.(state := Cancelling, manual := false))
        .(manuals := if q.manual then Without(l.manuals, r) else l.manuals,
          submissions := l.submissions + [r], submitted := l.submitted + 1)
    case _ =>
      PushToCancellationQueue(
        Put(l, r, q.(state := Cancelling)).(submissions := Without(l.submissions, r), submitted := l.submitted - 1), r)
  }

  function Exclude(l: Loop, r: ID): Loop
    requires r < |l.requests|
  {
    var q := l.requests[r];
    if q.state == Free || q.state == Cancelling || q.excluded then l
    else Put(l, r, q.(excluded := true)).(externals := l.externals - if q.state == Active && !q.manual then 1 else 0)
  }

  function Include(l: Loop, r: ID): Loop
    requires r < |l.requests|
  {
    var q := l.requests[r];
    if q.state == Free || !q.excluded then l
    else Put(l, r, q.(excluded := false)).(externals := l.externals + if q.state == Active && !q.manual then 1 else 0)
  }

  /** postExternalCompletion, for a request that waits for it. */
  function Post(l: Loop, r: ID): Loop
    requires Known(l, r)
  {
    var q := l.requests[r];
    if q.state != Active || q.manual then l
    else
      Put(l, r, q.(manual := true))
        .(listed := if q.sequence == NONE then Without(l.listed, r) else l.listed,
          actives := l.actives - 1, externals := l.externals + (if q.excluded then 1 else 0),
          manualCount := l.manualCount + 1, manuals := l.manuals + [r])
  }

  /** AsyncResult::reactivateRequest. `immediate`: the backend has already submitted the next operation. */
  function ReactivateRequest(l: Loop, yes: bool, immediate: bool): Loop
    requires (l.phase.Completing? || l.phase.Firing?) && Known(l, l.phase.request)
  {
    var c := l.phase.request;
    var q := l.requests[c];
    var told := l.(phase := l.phase.(reactivated := yes));
    if q.state == Free && yes then
      if immediate then AddActiveHandle(Put(told, c, q.(state := Submitting)), c)
      else Put(told, c, q.(state := Reactivate)).(submissions := l.submissions + [c], submitted := l.submitted + 1)
    else if q.state == Reactivate && !yes then
      Put(told, c, q.(state := Free)).(submissions := Without(l.submissions, c), submitted := l.submitted - 1)
    else told.(failed := l.failed || q.state == Cancelling || q.state == Active || q.state == Setup ||
                         (q.state == Submitting && immediate))
  }

  // ------------------------------------------------------------------ What the loop does

  /** What the kernel answers when a request is staged; `manual`: the operation is complete as soon as it is
      activated. */
  datatype Answer = Answer(setUp: bool, activated: bool, manual: bool, cancelled: bool, waits: bool)

  /** A failure is counted in the sequence of the request. */
  function Failed(l: Loop, r: ID): (l': Loop)
    requires Known(l, r)
    ensures |l'.requests| == |l.requests| && |l'.sequences| == |l.sequences| && l'.requests[r] == l.requests[r]
  {
    var s := l.requests[r].sequence;
    if s == NONE then l else PutSequence(l, s, l.sequences[s].(failures := l.sequences[s].failures + 1))
  }

  /** reportError, up to the callback of the request. */
  function Report(l: Loop, r: ID): Loop
    requires Known(l, r)
  {
    var q := l.requests[r];
    var failed := Failed(l, r);
    var removed := if q.state == Active then RemoveActiveHandle(failed, r) else failed;
    var cleared :=
      if q.sequence != NONE && l.sequences[q.sequence].clearOnError then ClearSequence(removed, q.sequence)
          else removed;
    cleared.(phase := Reporting(r))
  }

  /** ... and after it. */
  function EndReport(l: Loop): Loop
    requires l.phase.Reporting? && Known(l, l.phase.request)
  {
    var r := l.phase.request;
    var q := l.requests[r];
    var idle := l.(phase := Idle);
    if q.state == Cancelling then idle
    else
      var freed := Put(idle, r, MarkedAsFree(q));
      if q.sequence != NONE && l.sequences[q.sequence].runner == r
      then PutSequence(freed, q.sequence, Released(l.sequences[q.sequence], r))
      else freed
  }

  function Activate(l: Loop, r: ID, a: Answer): Loop
    requires Known(l, r)
  {
    var submitting := Put(l, r, l.requests[r].(state := Submitting, manual := a.manual));
    if !a.activated then Report(submitting, r)
    else AddActiveHandle(submitting.(manuals := if a.manual then l.manuals + [r] else l.manuals), r)
  }

  /** stageSubmission, for the first submission. */
  function Stage(l: Loop, a: Answer): Loop
    requires l.submissions != [] && Known(l, l.submissions[0])
  {
    var r := l.submissions[0];
    var q := l.requests[r];
    var taken := l.(submissions := l.submissions[1..], submitted := l.submitted - 1);
    match q.state
    case Setup => if a.setUp then Activate(taken, r, a) else Report(Put(taken, r, q.(manual := false)), r)
    case Submitting => Activate(taken, r, a)
    case Reactivate => Activate(taken, r, a)
    case Cancelling => if a.cancelled then PushToCancellationQueue(Put(taken, r, q.(waits := a.waits)), r)
      else Failed(Put(taken, r, q.(lost := true)), r)
    case _ => taken.(failed := true)
  }

  /** completeAndReactivateOrTeardown, up to the callback of the request. */
  function Complete(l: Loop, r: ID): Loop
    requires Known(l, r)
  {
    RemoveActiveHandle(l, r).(manuals := Without(l.manuals, r), phase := Completing(r, false))
  }

  /** ... and after it. `ok`: what the request has returned. */
  function EndCompletion(l: Loop, ok: bool): Loop
    requires l.phase.Completing? && Known(l, l.phase.request)
  {
    var s := l.requests[l.phase.request].sequence;
    var idle := l.(phase := Idle);
    if s == NONE then idle
    else if l.phase.reactivated then PutSequence(idle, s, Taken(l.sequences[s], l.phase.request))
    else if !ok && l.sequences[s].clearOnError then ClearSequence(idle, s)
    else ResumeSequence(idle, s)
  }

  /** The turn of a timer or of a wake-up. */
  function Fire(l: Loop, r: ID): Loop
    requires Known(l, r)
  {
    RemoveActiveHandle(l, r).(phase := Firing(r, false))
  }

  function EndFiring(l: Loop): Loop
  {
    l.(phase := Idle)
  }

  /** completeCancellation */
  function FinishCancellation(l: Loop, r: ID): Loop
    requires Known(l, r)
  {
    var q := l.requests[r];
    var freed :=
      Put(l, r, MarkedAsFree(q).(onClose := false, closed := q.closed + if q.onClose then 1 else 0))
        .(cancellations := Without(l.cancellations, r));
    if q.sequence == NONE then freed
    else
      var v := l.sequences[q.sequence];
      var released := PutSequence(freed, q.sequence, if v.runner == r then v.(running := false, runner := NONE) else v);
      if !v.clearOnCancel then ResumeSequence(released, q.sequence)
      else PutSequence(released, q.sequence, Untracked(released.sequences[q.sequence]))
  }

  /** The kernel has drained the cancellation of the request. */
  function Drain(l: Loop, r: ID): Loop
    requires r < |l.requests|
  {
    Put(l, r, l.requests[r].(waits := false))
  }

  // ------------------------------------------------------------------ Steps

  datatype Step =
    | StartStep(r: ID)
    | StopStep(r: ID, onClose: bool)
    | ExcludeStep(r: ID)
    | IncludeStep(r: ID)
    | PostStep(r: ID)
    | ClearStep(s: nat)
    | ReactivateStep(yes: bool, immediate: bool)
    | StageStep(a: Answer)
    | CompleteStep(r: ID)
    | EndCompletionStep(ok: bool)
    | FailStep(r: ID)
    | EndReportStep
    | FireStep(r: ID)
    | EndFiringStep
    | FinishStep(r: ID)
    | DrainStep(r: ID)

  predicate Waiting(l: Loop, r: ID)
    requires Known(l, r)
  {
    l.requests[r].sequence != NONE && r in l.sequences[l.requests[r].sequence].pending
  }

  /** A request may be started at any time, except by its own error callback, and except on the sequence of a request
      that its callback has just reactivated. */
  predicate MayStart(l: Loop, r: ID)
  {
    && Known(l, r)
    && (l.phase.Reporting? ==> r != l.phase.request)
    && (l.phase.Completing? && l.phase.reactivated && Known(l, l.phase.request) && l.requests[r].sequence != NONE ==>
          l.requests[r].sequence != l.requests[l.phase.request].sequence)
  }

  /** A request may be stopped at any time, except by its own error callback, and except while it waits in a
      sequence. */
  predicate MayStop(l: Loop, r: ID)
  {
    Known(l, r) && (l.phase.Reporting? ==> r != l.phase.request) && !Waiting(l, r)
  }

  /** A callback may reactivate its own request, unless it has already restarted or stopped it or has started another
      on the same sequence. */
  predicate MayReactivate(l: Loop, yes: bool, immediate: bool)
  {
    && (l.phase.Completing? || l.phase.Firing?) && Known(l, l.phase.request)
    && var q := l.requests[l.phase.request];
       && (q.state == Free || q.state == Reactivate)
       && (immediate ==> !q.manual)
       && (q.state == Free && yes && q.sequence != NONE ==> !l.sequences[q.sequence].running)
  }

  /** The steps that can be taken: what callers do, they do at any time; the loop goes on when no callback runs. */
  predicate May(l: Loop, e: Step)
  {
    match e
    case StartStep(r) => MayStart(l, r)
    case StopStep(r, _) => MayStop(l, r)
    case ExcludeStep(r) => r < |l.requests|
    case IncludeStep(r) => r < |l.requests|
    case PostStep(r) => Known(l, r)
    case ClearStep(s) => s < |l.sequences|
    case ReactivateStep(yes, immediate) => MayReactivate(l, yes, immediate)
    case StageStep(_) => l.phase == Idle && l.submissions != [] && Known(l, l.submissions[0])
    case CompleteStep(r) => l.phase == Idle && Known(l, r) && l.requests[r].state == Active
    case EndCompletionStep(_) => l.phase.Completing? && Known(l, l.phase.request)
    case FailStep(r) => l.phase == Idle && Known(l, r) && l.requests[r].state == Active && !l.requests[r].manual
    case EndReportStep => l.phase.Reporting? && Known(l, l.phase.request)
    case FireStep(r) =>
      l.phase == Idle && Known(l, r) && l.requests[r].state == Active && !l.requests[r].manual &&
          l.requests[r].sequence == NONE
    case EndFiringStep => l.phase.Firing?
    case FinishStep(r) => l.phase == Idle && Known(l, r) && r in l.cancellations && !l.requests[r].waits
    case DrainStep(r) => l.phase == Idle && r < |l.requests| && r in l.cancellations
  }

  function Next(l: Loop, e: Step): Loop
    requires May(l, e)
  {
    match e
    case StartStep(r) => Start(l, r)
    case StopStep(r, onClose) => Stop(l, r, onClose)
    case ExcludeStep(r) => Exclude(l, r)
    case IncludeStep(r) => Include(l, r)
    case PostStep(r) => Post(l, r)
    case ClearStep(s) => ClearSequence(l, s)
    case ReactivateStep(yes, immediate) => ReactivateRequest(l, yes, immediate)
    case StageStep(a) => Stage(l, a)
    case CompleteStep(r) => Complete(l, r)
    case EndCompletionStep(ok) => EndCompletion(l, ok)
    case FailStep(r) => Report(l, r)
    case EndReportStep => EndReport(l)
    case FireStep(r) => Fire(l, r)
    case EndFiringStep => EndFiring(l)
    case FinishStep(r) => FinishCancellation(l, r)
    case DrainStep(r) => Drain(l, r)
  }

  function Run(l: Loop, steps: seq<Step>): Loop
    requires Allowed(l, steps)
    decreases |steps|
  {
    if steps == [] then l else Run(Next(l, steps[0]), steps[1..])
  }

  predicate Allowed(l: Loop, steps: seq<Step>)
    decreases |steps|
  {
    steps == [] || (May(l, steps[0]) && Allowed(Next(l, steps[0]), steps[1..]))
  }
}
