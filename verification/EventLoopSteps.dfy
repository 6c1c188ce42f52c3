/** Every step of the event loop keeps the invariant. */
module EventLoopSteps {

  import opened IntrusiveLists
  import opened EventLoopModel
  import opened EventLoopInvariant
  import opened EventLoopProofs

  // ------------------------------------------------------------------ Active handles

  /** Nothing has been started on the sequence of a request that its callback has just reactivated. */
  predicate NotTaken(l: Loop, r: ID)
    requires Known(l, r)
  {
    l.phase == Completing(r, true) && l.requests[r].sequence != NONE && l.sequences[l.requests[r].sequence].running ==>
      l.sequences[l.requests[r].sequence].runner == r
  }

  /** The sequence of a request that occupies it runs that request, or none yet. */
  lemma OwnRunner(l: Loop, r: ID, loose: int)
    requires InvAt(l, loose) && Known(l, r) && NotTaken(l, r)
    requires var q := l.requests[r]; q.sequence != NONE && Occupies(l, r, q.sequence)
    ensures var v := l.sequences[l.requests[r].sequence];
            (!v.running && v.runner == NONE) || (v.running && v.runner == r)
  {
    About(l, r, loose);
    assert SequenceOk(l, l.requests[r].sequence);
  }

  function Removed(l: Loop, r: ID): (l': Loop)
    requires Known(l, r)
    ensures |l'.requests| == |l.requests| && |l'.sequences| == |l.sequences|
    ensures l'.requests[r] == l.requests[r].(state := Free)
  {
    RemoveActiveHandle(l, r).(manuals := Without(l.manuals, r))
  }

  lemma RemovedMoves(l: Loop, r: ID, loose: int)
    requires InvAt(l, loose) && Known(l, r) && NotTaken(l, r) && l.requests[r].state == Active
    ensures Moves(l, Removed(l, r), r) && Lists(Removed(l, r))
  {
    ListWithout(l.manuals, r, |l.requests|);
    ListWithout(l.listed, r, |l.requests|);
    assert OthersStay(l.listed, l.listed, r);
    hide Without, Views, Sequences, Occupied, Counts, Placed, ListOk, OthersStay, Released;
    var l' := Removed(l, r);
    if l.requests[r].manual {
      assert l'.listed == l.listed;
    } else {
      assert l'.manuals == Without(l.manuals, r);
    }
  }

  lemma RemovedHands(l: Loop, r: ID, loose: int)
    requires InvAt(l, loose) && Known(l, r) && NotTaken(l, r) && l.requests[r].state == Active
    requires Moves(l, Removed(l, r), r)
    ensures Hands(l, Removed(l, r), r)
    ensures forall s :: 0 <= s < |l.sequences| ==> Removed(l, r).sequences[s].runner != r
    ensures l.requests[r].sequence != NONE ==> !Removed(l, r).sequences[l.requests[r].sequence].running
  {
    About(l, r, loose);
    if l.requests[r].sequence != NONE {
      OwnRunner(l, r, loose);
    }
    hide Without, Distinct, Views, Sequences, Occupied, Counts, Lists, PendingOk, InOrder;
  }

  lemma RemoveKeeps(l: Loop, r: ID, loose: int)
    requires InvAt(l, loose) && Known(l, r) && NotTaken(l, r) && l.requests[r].state == Active
    ensures InvAt(Removed(l, r), loose) && Removed(l, r).phase == l.phase
    ensures !l.requests[r].manual ==> Removed(l, r) == RemoveActiveHandle(l, r)
    ensures l.requests[r].sequence != NONE ==> !Removed(l, r).sequences[l.requests[r].sequence].running
  {
    About(l, r, loose);
    RemovedMoves(l, r, loose);
    RemovedHands(l, r, loose);
    ListWithout(l.manuals, r, |l.requests|);
    ListWithout(l.listed, r, |l.requests|);
    hide Without, Distinct, Views, Sequences, Occupied, Hands, Moves, SequenceOk;
    MovedKeeps(l, Removed(l, r), r, loose, loose);
  }

  function Added(l: Loop, r: ID): Loop
    requires Known(l, r)
  {
    AddActiveHandle(l.(manuals := if l.requests[r].manual then l.manuals + [r] else l.manuals), r)
  }

  lemma AddedMoves(l: Loop, r: ID)
    requires InvAt(l, r) && Known(l, r) && l.requests[r].state == Submitting
    ensures Moves(l, Added(l, r), r) && Lists(Added(l, r)) && Placed(Look(Added(l, r), r), false)
  {
    About(l, r, r);
    ListAppended(l.manuals, r, |l.requests|);
    ListAppended(l.listed, r, |l.requests|);
    hide Distinct, Views, Sequences, Occupied, Counts, SequenceOk;
  }

  lemma AddedHands(l: Loop, r: ID)
    requires InvAt(l, r) && Known(l, r) && NotTaken(l, r) && l.requests[r].state == Submitting
    requires l.requests[r].manual ==> l.phase != Completing(r, true)
    requires Moves(l, Added(l, r), r)
    ensures Hands(l, Added(l, r), r)
  {
    About(l, r, r);
    if l.requests[r].sequence != NONE {
      OwnRunner(l, r, r);
    }
    hide Without, Distinct, Views, Sequences, Occupied, Counts, Lists, PendingOk, InOrder;
  }

  lemma AddKeeps(l: Loop, r: ID)
    requires InvAt(l, r) && Known(l, r) && NotTaken(l, r) && l.requests[r].state == Submitting
    requires l.requests[r].manual ==> l.phase != Completing(r, true)
    ensures InvAt(Added(l, r), NONE)
    ensures var l' := Added(l, r);
            && l'.phase == l.phase && |l'.requests| == |l.requests|
            && l'.requests[r] == l.requests[r].(state := Active)
            && (l.requests[r].sequence != NONE && !l.requests[r].manual ==>
                  |l'.sequences| == |l.sequences| && Known(l, r) && l'.sequences[l.requests[r].sequence].runner == r)
  {
    About(l, r, r);
    AddedMoves(l, r);
    AddedHands(l, r);
    hide Distinct, Views, Sequences, Occupied, Hands, Moves, SequenceOk, Placed;
    MovedKeeps(l, Added(l, r), r, r, NONE);
  }

  // ------------------------------------------------------------------ Cancellations

  /** Clearing the sequence of a cancelled request does not touch the cancellation queue. */
  lemma PushForm(l: Loop, r: ID)
    requires Known(l, r) && l.requests[r].state == Cancelling
    ensures var queued, s := l.(cancellations := l.cancellations + [r]), l.requests[r].sequence;
            PushToCancellationQueue(l, r) ==
            if s != NONE && l.sequences[s].clearOnCancel then ClearSequence(queued, s) else queued
  {
    hide FreeAll;
  }

  lemma PushKeeps(l: Loop, r: ID)
    requires Known(l, r) && l.requests[r].state == Cancelling && Inv(l.(cancellations := l.cancellations + [r]))
    ensures Inv(PushToCancellationQueue(l, r))
  {
    PushForm(l, r);
    var s := l.requests[r].sequence;
    if s != NONE && l.sequences[s].clearOnCancel {
      ClearPhase(l.(cancellations := l.cancellations + [r]), s);
    }
    hide InvAt, PhaseOk, ClearSequence, PushToCancellationQueue;
  }

  // ------------------------------------------------------------------ Starting

  /** The request waits in its sequence, or is submitted. */
  function Queued(l: Loop, r: ID): Loop
    requires Known(l, r)
  {
    var q := l.requests[r];
    var put := Put(l, r, q.(state := Setup, ticket := l.tickets)).(tickets := l.tickets + 1);
    if q.sequence == NONE then put.(submissions := l.submissions + [r], submitted := l.submitted + 1)
    else
      var v := l.sequences[q.sequence];
      PutSequence(put, q.sequence, v.(pending := v.pending + [r], tracked := true))
  }

  lemma QueuedViews(l: Loop, r: ID, loose: int)
    requires InvAt(l, loose) && Known(l, r) && l.requests[r].state == Free && r != loose
    ensures Views(Queued(l, r), loose) && Lists(Queued(l, r))
  {
    var l' := Queued(l, r);
    About(l, r, loose);
    ListAppended(l.submissions, r, |l.requests|);
    hide Distinct, Sequences, Occupied, SequenceOk;
    forall x | 0 <= x < |l'.requests| ensures Placed(Look(l', x), x == loose) {
      assert Placed(Look(l, x), x == loose);
      if x != r {
        assert Look(l', x) == Look(l, x);
      }
    }
  }

  lemma QueuedOrder(v: Sequence, v': Sequence, requests: seq<Request>, requests': seq<Request>, r: ID, tickets: nat)
    requires InOrder(v, requests, tickets) && v'.entered == v.entered && r !in v.pending
    requires v'.pending == v.pending || (v'.pending == v.pending + [r] && TicketOf(requests', r) == tickets)
    requires forall x :: x in v.pending ==> TicketOf(requests', x) == TicketOf(requests, x)
    ensures InOrder(v', requests', tickets + 1)
  {
    var log, log' := v.entered + Tickets(requests, v.pending), v'.entered + Tickets(requests', v'.pending);
    assert forall k :: 0 <= k < |log| ==> log'[k] == log[k];
    assert v'.pending != v.pending ==> log'[|log|] == tickets;
  }

  lemma QueuedSequences(l: Loop, r: ID, loose: int)
    requires InvAt(l, loose) && Known(l, r) && l.requests[r].state == Free
    ensures Sequences(Queued(l, r))
  {
    var l' := Queued(l, r);
    About(l, r, loose);
    forall s | 0 <= s < |l'.sequences| ensures SequenceOk(l', s) {
      assert SequenceOk(l, s);
      assert r !in l.sequences[s].pending;
      QueuedOrder(l.sequences[s], l'.sequences[s], l.requests, l'.requests, r, l.tickets);
      hide InOrder, Views, Occupied, Lists, Counts;
    }
  }

  lemma QueuedOccupied(l: Loop, r: ID, loose: int)
    requires InvAt(l, loose) && Known(l, r) && l.requests[r].state == Free
    ensures Occupied(Queued(l, r))
  {
    var l' := Queued(l, r);
    hide Views, Sequences, Lists, Counts;
    forall x: ID, s: nat | Occupies(l', x, s)
      ensures l'.phase == Completing(x, true) || (l'.sequences[s].running && l'.sequences[s].runner == x)
    {
      assert x != r;
      assert Occupies(l, x, s);
    }
  }

  lemma QueuedKeeps(l: Loop, r: ID, loose: int)
    requires InvAt(l, loose) && Known(l, r) && l.requests[r].state == Free && r != loose
    ensures InvAt(Queued(l, r), loose)
  {
    QueuedViews(l, r, loose);
    QueuedSequences(l, r, loose);
    QueuedOccupied(l, r, loose);
    var q' := l.requests[r].(state := Setup, ticket := l.tickets);
    TotalPut(l.requests, r, q', CountsAsActive);
    TotalPut(l.requests, r, q', CountsAsExternal);
    TotalPut(l.requests, r, q', CountsAsManual);
    hide Views, Sequences, Occupied, Lists;
  }

  lemma StartKeeps(l: Loop, r: ID)
    requires Inv(l) && MayStart(l, r)
    ensures Inv(Start(l, r))
  {
    if l.requests[r].state == Free {
      var s := l.requests[r].sequence;
      QueuedKeeps(l, r, Loose(l));
      if s != NONE && !l.sequences[s].running {
        PopKeeps(Queued(l, r), s, Loose(l));
      }
      hide InvAt;
    }
  }

  // ------------------------------------------------------------------ Phases

  /** The request whose callback ends is the runner of its sequence, if it occupies it. */
  lemma PhaseChanges(l: Loop, phase: Phase, loose: int)
    requires InvAt(l, loose)
    requires l.phase.Completing? && l.phase.reactivated && phase != l.phase ==>
               && Known(l, l.phase.request)
               && var c, s := l.phase.request, l.requests[l.phase.request].sequence;
                  s != NONE && Occupies(l, c, s) ==> l.sequences[s].running && l.sequences[s].runner == c
    ensures InvAt(l.(phase := phase), loose)
  {
    var l' := l.(phase := phase);
    assert Views(l', loose) by {
      forall x | 0 <= x < |l'.requests| ensures Placed(Look(l', x), x == loose) {
        assert Look(l', x) == Look(l, x);
      }
    }
    assert Sequences(l') by {
      forall s | 0 <= s < |l'.sequences| ensures SequenceOk(l', s) {
        assert SequenceOk(l, s);
      }
    }
    forall x: ID, s: nat | Occupies(l', x, s)
      ensures l'.phase == Completing(x, true) || (l'.sequences[s].running && l'.sequences[s].runner == x)
    {
      assert Occupies(l, x, s);
    }
  }

  /** A request that is free or active may be loose or not. */
  lemma Loosens(l: Loop, r: ID, loose: int, loose': int)
    requires InvAt(l, loose) && r < |l.requests|
    requires (loose == r || loose == NONE) && (loose' == r || loose' == NONE)
    requires l.requests[r].state == Free || l.requests[r].state == Active
    ensures InvAt(l, loose')
  {
    forall x | 0 <= x < |l.requests| ensures Placed(Look(l, x), x == loose') {
      assert Placed(Look(l, x), x == loose);
    }
    hide Sequences, Occupied, Lists, Counts;
  }

  lemma ClearPhase(l: Loop, s: nat)
    requires Inv(l) && s < |l.sequences|
    ensures Inv(ClearSequence(l, s))
  {
    ClearKeeps(l, s, Loose(l));
    assert SequenceOk(l, s);
    PendingSetup(l, s, Loose(l));
    hide InvAt, InOrder;
  }

  // ------------------------------------------------------------------ What callers do

  /** A free request goes to the submission queue, to be cancelled. */
  lemma SentToCancel(l: Loop, r: ID, q: Request, loose: int)
    requires InvAt(l, loose) && Known(l, r) && l.requests[r].state == Free && r != loose
    requires q.state == Cancelling && !q.lost && q.sequence == l.requests[r].sequence &&
             q.ticket == l.requests[r].ticket
    ensures InvAt(Put(l, r, q).(submissions := l.submissions + [r], submitted := l.submitted + 1), loose)
  {
    var l' := Put(l, r, q).(submissions := l.submissions + [r], submitted := l.submitted + 1);
    About(l, r, loose);
    ListAppended(l.submissions, r, |l.requests|);
    hide Views, Sequences, Occupied, Distinct, InOrder, PendingOk;
    MovedKeeps(l, l', r, loose, loose);
  }

  lemma StopForm(l: Loop, r: ID, onClose: bool)
    requires Known(l, r) && l.requests[r].state == Active && (!l.requests[r].manual ==> r !in l.manuals)
    ensures Stop(l, r, onClose) ==
            Put(Removed(l, r), r, l.requests[r].(onClose := onClose, state := Cancelling, manual := false))
              .(submissions := l.submissions + [r], submitted := l.submitted + 1)
  {
    if !l.requests[r].manual {
      WithoutAbsent(l.manuals, r);
    }
    hide RemoveActiveHandle, Without;
  }

  lemma StopActive(l: Loop, r: ID, onClose: bool)
    requires Inv(l) && MayStop(l, r) && l.requests[r].state == Active
    ensures Inv(Stop(l, r, onClose))
  {
    About(l, r, Loose(l));
    hide InvAt, Stop, PhaseOk, SequenceOk;
    StopActiveKeeps(l, r, onClose);
    StopActivePhase(l, r, onClose);
  }

  lemma StopActiveKeeps(l: Loop, r: ID, onClose: bool)
    requires Inv(l) && MayStop(l, r) && l.requests[r].state == Active
    ensures InvAt(Stop(l, r, onClose), Loose(l)) && Stop(l, r, onClose).phase == l.phase
  {
    var q := l.requests[r].(onClose := onClose, state := Cancelling, manual := false);
    About(l, r, Loose(l));
    RemoveKeeps(l, r, Loose(l));
    StopForm(l, r, onClose);
    hide InvAt, Without, RemoveActiveHandle, Stop, SequenceOk, PhaseOk;
    SentToCancel(Removed(l, r), r, q, Loose(l));
  }

  lemma StopActivePhase(l: Loop, r: ID, onClose: bool)
    requires PhaseOk(l) && MayStop(l, r) && l.requests[r].state == Active && (!l.requests[r].manual ==> r !in l.manuals)
    ensures PhaseOk(Stop(l, r, onClose))
  {
    StopForm(l, r, onClose);
    RemovedPhase(l, r);
    hide Without, Removed, Stop;
  }

  lemma RemovedPhase(l: Loop, r: ID)
    requires Known(l, r) && PhaseOk(l)
    ensures var l' := Removed(l, r);
            && (forall x :: 0 <= x < |l.requests| && x != r ==> l'.requests[x] == l.requests[x])
            && (forall s :: 0 <= s < |l.sequences| && l'.sequences[s].running ==>
                  l'.sequences[s].running == l.sequences[s].running && l'.sequences[s].runner == l.sequences[s].runner)
  {
    hide Released;
  }

  /** The first half of stopping a request that is still to be submitted. */
  function Withdrawn(l: Loop, r: ID, onClose: bool): (l': Loop)
    requires Known(l, r)
    ensures Known(l', r)
  {
    Put(l, r, l.requests[r].(onClose := onClose, state := Cancelling))
      .(submissions := Without(l.submissions, r), submitted := l.submitted - 1)
  }

  lemma WithdrawnKeeps(l: Loop, r: ID, onClose: bool)
    requires Inv(l) && MayStop(l, r) && (l.requests[r].state == Setup || l.requests[r].state == Reactivate)
    ensures var l' := Withdrawn(l, r, onClose); Inv(l'.(cancellations := l'.cancellations + [r]))
  {
    var withdrawn := Withdrawn(l, r, onClose);
    var l' := withdrawn.(cancellations := l.cancellations + [r]);
    About(l, r, Loose(l));
    ListWithout(l.submissions, r, |l.requests|);
    ListAppended(l.cancellations, r, |l.requests|);
    hide Views, Sequences, Occupied, Without, Distinct, InOrder, PendingOk;
    assert Moves(l, l', r) && Lists(l');
    assert Hands(l, l', r);
    MovedKeeps(l, l', r, Loose(l), Loose(l));
  }

  lemma StopPushForm(l: Loop, r: ID, onClose: bool)
    requires Known(l, r)
    requires l.requests[r].state == Setup || l.requests[r].state == Submitting || l.requests[r].state == Reactivate
    ensures Stop(l, r, onClose) == PushToCancellationQueue(Withdrawn(l, r, onClose), r)
  {
    hide PushToCancellationQueue, Without;
  }

  lemma StopWithdraws(l: Loop, r: ID, onClose: bool)
    requires Inv(l) && MayStop(l, r) && (l.requests[r].state == Setup || l.requests[r].state == Reactivate)
    ensures Inv(Stop(l, r, onClose))
  {
    WithdrawnKeeps(l, r, onClose);
    StopPushForm(l, r, onClose);
    hide Inv, PushToCancellationQueue, Stop, Withdrawn;
    PushKeeps(Withdrawn(l, r, onClose), r);
  }

  lemma StopKeeps(l: Loop, r: ID, onClose: bool)
    requires Inv(l) && MayStop(l, r)
    ensures Inv(Stop(l, r, onClose))
  {
    About(l, r, Loose(l));
    if l.requests[r].state == Active {
      StopActive(l, r, onClose);
    } else if l.requests[r].state == Setup || l.requests[r].state == Reactivate {
      StopWithdraws(l, r, onClose);
    } else {
      hide Views, Sequences, Occupied, Distinct, InOrder, PendingOk;
      MovedKeeps(l, Stop(l, r, onClose), r, Loose(l), Loose(l));
    }
  }

  lemma ExcludeKeeps(l: Loop, r: ID)
    requires Inv(l) && r < |l.requests|
    ensures Inv(Exclude(l, r))
  {
    About(l, r, Loose(l));
    if Exclude(l, r) != l {
      hide Views, Sequences, Occupied, Distinct, InOrder, PendingOk;
      MovedKeeps(l, Exclude(l, r), r, Loose(l), Loose(l));
    }
  }

  lemma IncludeKeeps(l: Loop, r: ID)
    requires Inv(l) && r < |l.requests|
    ensures Inv(Include(l, r))
  {
    About(l, r, Loose(l));
    if Include(l, r) != l {
      hide Views, Sequences, Occupied, Distinct, InOrder, PendingOk;
      MovedKeeps(l, Include(l, r), r, Loose(l), Loose(l));
    }
  }

  lemma PostKeeps(l: Loop, r: ID)
    requires Inv(l) && Known(l, r)
    ensures Inv(Post(l, r))
  {
    About(l, r, Loose(l));
    var l' := Post(l, r);
    if l' != l {
      ListAppended(l.manuals, r, |l.requests|);
      ListWithout(l.listed, r, |l.requests|);
      hide Views, Sequences, Occupied, Distinct, Without, InOrder, PendingOk;
      assert Moves(l, l', r) && Lists(l');
      assert Hands(l, l', r);
      MovedKeeps(l, l', r, Loose(l), Loose(l));
    }
  }
}
