/** The parts of the event loop's steps keep the invariant. */
module EventLoopProofs {

  import opened IntrusiveLists
  import opened EventLoopModel
  import opened EventLoopInvariant

  /** No request of the sequence has been reactivated by the callback that is running. */
  predicate NotReactivated(l: Loop, s: nat)
  {
    l.phase.Completing? && l.phase.reactivated ==>
        Known(l, l.phase.request) && l.requests[l.phase.request].sequence != s
  }

  // ------------------------------------------------------------------ The next request of a sequence

  lemma PoppedInOrder(v: Sequence, requests: seq<Request>, tickets: nat)
    requires v.pending != [] && InOrder(v, requests, tickets)
    ensures InOrder(Popped(v, requests), requests, tickets)
  {
    var v' := Popped(v, requests);
    assert v'.entered + Tickets(requests, v'.pending) == v.entered + Tickets(requests, v.pending);
  }

  lemma PopSequences(l: Loop, s: nat)
    requires Sequences(l) && Lists(l) && s < |l.sequences| && l.sequences[s].pending != []
    requires forall x :: x in l.sequences[s].pending ==> x < |l.requests| && l.requests[x].state != Free
    ensures Sequences(PopNext(l, s))
  {
    var l' := PopNext(l, s);
    assert SequenceOk(l, s);
    PoppedInOrder(l.sequences[s], l.requests, l.tickets);
    hide InOrder;
    var pending := l.sequences[s].pending;
    assert pending[0] in pending && forall x :: x in pending[1..] ==> x in pending && x != pending[0];
    forall s' | 0 <= s' < |l'.sequences| ensures SequenceOk(l', s') {
      assert SequenceOk(l, s');
    }
  }

  lemma PopViews(l: Loop, s: nat, loose: int)
    requires Views(l, loose) && Lists(l) && s < |l.sequences| && l.sequences[s].pending != [] && PendingOk(l, s)
    ensures Views(PopNext(l, s), loose) && Lists(PopNext(l, s))
  {
    var l' := PopNext(l, s);
    var p := l.sequences[s].pending[0];
    assert p in l.sequences[s].pending;
    assert Look(l, p).waiting;
    assert Placed(Look(l, p), p == loose);
    forall x | 0 <= x < |l'.requests| ensures Placed(Look(l', x), x == loose) {
      assert Placed(Look(l, x), x == loose);
      if x != p {
        assert Look(l', x) == Look(l, x);
      }
    }
  }

  lemma PopOccupied(l: Loop, s: nat)
    requires Occupied(l) && s < |l.sequences| && l.sequences[s].pending != [] && PendingOk(l, s)
    requires !l.sequences[s].running && NotReactivated(l, s)
    ensures Occupied(PopNext(l, s))
  {
    var l' := PopNext(l, s);
    forall x: ID, s': nat | Occupies(l', x, s')
      ensures l'.phase == Completing(x, true) || (l'.sequences[s'].running && l'.sequences[s'].runner == x)
    {
      if s' != s || x != l.sequences[s].pending[0] {
        assert Occupies(l, x, s');
      }
    }
  }

  lemma PopKeeps(l: Loop, s: nat, loose: int)
    requires InvAt(l, loose) && s < |l.sequences| && l.sequences[s].pending != []
    requires !l.sequences[s].running && NotReactivated(l, s)
    ensures InvAt(PopNext(l, s), loose)
  {
    assert SequenceOk(l, s);
    PendingSetup(l, s, loose);
    PopSequences(l, s);
    PopViews(l, s, loose);
    PopOccupied(l, s);
    hide Views, Sequences, Occupied, Lists, SequenceOk, PendingOk;
  }

  lemma PendingSetup(l: Loop, s: nat, loose: int)
    requires Views(l, loose) && s < |l.sequences| && PendingOk(l, s)
    ensures forall x :: x in l.sequences[s].pending ==>
            l.requests[x].state == Setup && x != loose && x !in l.submissions
  {
    forall x | x in l.sequences[s].pending ensures l.requests[x].state == Setup && x != loose && x !in l.submissions {
      assert Placed(Look(l, x), x == loose);
    }
  }

  // ------------------------------------------------------------------ Untracking and clearing

  lemma UntrackedKeeps(l: Loop, s: nat, loose: int)
    requires InvAt(l, loose) && s < |l.sequences|
    ensures InvAt(PutSequence(l, s, Untracked(l.sequences[s])), loose)
  {
    assert SequenceOk(l, s);
    assert PutSequence(l, s, Untracked(l.sequences[s])) == l;
  }

  lemma ResumeKeeps(l: Loop, s: nat, loose: int)
    requires InvAt(l, loose) && s < |l.sequences| && NotReactivated(l, s)
    ensures InvAt(ResumeSequence(l, s), loose)
  {
    UntrackedKeeps(l, s, loose);
    if !l.sequences[s].running && l.sequences[s].pending != [] {
      PopKeeps(l, s, loose);
    }
    hide InvAt;
  }

  lemma ClearTotals(l: Loop, s: nat, loose: int)
    requires Views(l, loose) && s < |l.sequences| && PendingOk(l, s)
    ensures var r := FreeAll(l.requests, l.sequences[s].pending);
            && Total(r, CountsAsActive) == Total(l.requests, CountsAsActive)
            && Total(r, CountsAsExternal) == Total(l.requests, CountsAsExternal)
            && Total(r, CountsAsManual) == Total(l.requests, CountsAsManual)
  {
    var r := FreeAll(l.requests, l.sequences[s].pending);
    PendingSetup(l, s, loose);
    TotalSame(r, l.requests, CountsAsActive);
    TotalSame(r, l.requests, CountsAsExternal);
    TotalSame(r, l.requests, CountsAsManual);
  }

  lemma ClearViews(l: Loop, s: nat, loose: int)
    requires Views(l, loose) && s < |l.sequences| && PendingOk(l, s)
    ensures Views(ClearSequence(l, s), loose)
  {
    var l' := ClearSequence(l, s);
    PendingSetup(l, s, loose);
    forall x | 0 <= x < |l'.requests| ensures Placed(Look(l', x), x == loose) {
      assert Placed(Look(l, x), x == loose);
      if x !in l.sequences[s].pending {
        assert Look(l', x) == Look(l, x);
      }
    }
  }

  lemma ShortenedInOrder(v: Sequence, v': Sequence, requests: seq<Request>, requests': seq<Request>, tickets: nat)
    requires InOrder(v, requests, tickets) && v'.entered == v.entered
    requires v'.pending == [] || v'.pending == v.pending
    requires forall x :: x in v.pending ==> TicketOf(requests', x) == TicketOf(requests, x)
    ensures InOrder(v', requests', tickets)
  {
    var log, log' := v.entered + Tickets(requests, v.pending), v'.entered + Tickets(requests', v'.pending);
    assert forall k :: 0 <= k < |log'| ==> log'[k] == log[k];
  }

  lemma ClearSequences(l: Loop, s: nat, loose: int)
    requires Sequences(l) && Views(l, loose) && s < |l.sequences|
    ensures Sequences(ClearSequence(l, s))
  {
    var l' := ClearSequence(l, s);
    assert SequenceOk(l, s);
    PendingSetup(l, s, loose);
    forall s' | 0 <= s' < |l'.sequences| ensures SequenceOk(l', s') {
      assert SequenceOk(l, s');
      ShortenedInOrder(l.sequences[s'], l'.sequences[s'], l.requests, l'.requests, l.tickets);
      hide InOrder;
    }
  }

  lemma ClearOccupied(l: Loop, s: nat, loose: int)
    requires Occupied(l) && s < |l.sequences| && PendingOk(l, s)
    ensures Occupied(ClearSequence(l, s))
  {
    var l' := ClearSequence(l, s);
    forall x: ID, s': nat | Occupies(l', x, s')
      ensures l'.phase == Completing(x, true) || (l'.sequences[s'].running && l'.sequences[s'].runner == x)
    {
      assert Occupies(l, x, s');
    }
  }

  lemma ClearKeeps(l: Loop, s: nat, loose: int)
    requires InvAt(l, loose) && s < |l.sequences|
    ensures InvAt(ClearSequence(l, s), loose)
  {
    assert SequenceOk(l, s);
    ClearTotals(l, s, loose);
    ClearViews(l, s, loose);
    ClearSequences(l, s, loose);
    ClearOccupied(l, s, loose);
    hide Views, Sequences, Occupied, SequenceOk, PendingOk, Total;
  }

  // ------------------------------------------------------------------ One request moves

  ghost predicate OthersStay(list: seq<ID>, list': seq<ID>, r: ID)
  {
    forall x :: x != r ==> (x in list' <==> x in list)
  }

  /** Only request r changes, and where it is; its sequence may release it or take it. */
  ghost predicate Moves(l: Loop, l': Loop, r: ID)
  {
    && Known(l, r) && |l'.requests| == |l.requests| && |l'.sequences| == |l.sequences|
    && (var q, q' := l.requests[r], l'.requests[r];
        && l'.requests == l.requests[r := q'] && q'.sequence == q.sequence && q'.ticket == q.ticket
        && (if q.sequence == NONE then l'.sequences == l.sequences else
              var v, v' := l.sequences[q.sequence], l'.sequences[q.sequence];
              l'.sequences == l.sequences[q.sequence := v'] && v'.pending == v.pending && v'.entered == v.entered))
    && l'.tickets == l.tickets && l'.phase == l.phase && !l'.failed
    && OthersStay(l.submissions, l'.submissions, r) && OthersStay(l.cancellations, l'.cancellations, r)
    && OthersStay(l.manuals, l'.manuals, r) && OthersStay(l.listed, l'.listed, r)
  }

  /** The counters change as the request does. */
  predicate Counted(l: Loop, l': Loop, r: ID)
    requires r < |l.requests| && r < |l'.requests|
  {
    var q, q' := l.requests[r], l'.requests[r];
    && l'.actives - l.actives == CountsAsActive(q') - CountsAsActive(q)
    && l.externals - l'.externals == CountsAsExternal(q') - CountsAsExternal(q)
    && l'.manualCount - l.manualCount == CountsAsManual(q') - CountsAsManual(q)
    && l'.submitted == |l'.submissions|
  }

  /** What becomes of the sequence of the request. */
  ghost predicate Hands(l: Loop, l': Loop, r: ID)
    requires Moves(l, l', r)
  {
    var q' := l'.requests[r];
    q'.sequence != NONE ==>
      var v, v' := l.sequences[q'.sequence], l'.sequences[q'.sequence];
      && TrackedOk(v')
      && (v'.runner == r ==> q'.state != Free && r !in v.pending)
      && (v'.runner == NONE || v'.runner == r || v'.runner == v.runner)
      && ((v'.running == v.running && v'.runner == v.runner) || !v.running || v.runner == r)
      && (Occupies(l', r, q'.sequence) ==> l.phase == Completing(r, true) || (v'.running && v'.runner == r))
  }

  lemma MovedViews(l: Loop, l': Loop, r: ID, loose: int, loose': int)
    requires Moves(l, l', r) && Views(l, loose)
    requires loose' == loose || ((loose == r || loose == NONE) && (loose' == r || loose' == NONE))
    requires Placed(Look(l', r), r == loose')
    ensures Views(l', loose')
  {
    forall x | 0 <= x < |l'.requests| ensures Placed(Look(l', x), x == loose') {
      assert Placed(Look(l, x), x == loose);
      if x != r {
        assert Look(l', x) == Look(l, x);
      }
    }
  }

  lemma MovedSequences(l: Loop, l': Loop, r: ID)
    requires Moves(l, l', r) && Hands(l, l', r) && Sequences(l)
    requires l'.requests[r].state == Free ==> forall s :: 0 <= s < |l'.sequences| ==> l'.sequences[s].runner != r
    ensures Sequences(l')
  {
    forall s | 0 <= s < |l'.sequences| ensures SequenceOk(l', s) {
      assert SequenceOk(l, s);
      ShortenedInOrder(l.sequences[s], l'.sequences[s], l.requests, l'.requests, l.tickets);
      hide InOrder, OthersStay;
    }
  }

  lemma MovedOccupied(l: Loop, l': Loop, r: ID)
    requires Moves(l, l', r) && Hands(l, l', r) && Occupied(l)
    ensures Occupied(l')
  {
    forall x: ID, s: nat | Occupies(l', x, s)
      ensures l'.phase == Completing(x, true) || (l'.sequences[s].running && l'.sequences[s].runner == x)
    {
      if x != r {
        assert Occupies(l, x, s);
      }
    }
  }

  lemma MovedCounts(l: Loop, l': Loop, r: ID)
    requires Moves(l, l', r) && Counted(l, l', r) && Counts(l)
    ensures Counts(l')
  {
    var q' := l'.requests[r];
    TotalPut(l.requests, r, q', CountsAsActive);
    TotalPut(l.requests, r, q', CountsAsExternal);
    TotalPut(l.requests, r, q', CountsAsManual);
  }

  lemma MovedKeeps(l: Loop, l': Loop, r: ID, loose: int, loose': int)
    requires InvAt(l, loose) && Moves(l, l', r) && Hands(l, l', r) && Counted(l, l', r) && Lists(l')
    requires loose' == loose || ((loose == r || loose == NONE) && (loose' == r || loose' == NONE))
    requires Placed(Look(l', r), r == loose')
    requires l'.requests[r].state == Free ==> forall s :: 0 <= s < |l'.sequences| ==> l'.sequences[s].runner != r
    ensures InvAt(l', loose')
  {
    MovedViews(l, l', r, loose, loose');
    MovedSequences(l, l', r);
    MovedOccupied(l, l', r);
    MovedCounts(l, l', r);
    hide Views, Sequences, Occupied, Moves, Hands, Counts;
  }

  // ------------------------------------------------------------------ Lists

  lemma ListAppended(list: seq<ID>, r: ID, count: nat)
    requires ListOk(list, count) && r !in list && r < count
    ensures ListOk(list + [r], count) && OthersStay(list, list + [r], r) && r in list + [r] &&
            |list + [r]| == |list| + 1
  {
  }

  lemma ListWithout(list: seq<ID>, r: ID, count: nat)
    requires ListOk(list, count)
    ensures ListOk(Without(list, r), count) && OthersStay(list, Without(list, r), r) && r !in Without(list, r)
    ensures |Without(list, r)| == |list| - if r in list then 1 else 0
    ensures r !in list ==> Without(list, r) == list
  {
    WithoutDistinct(list, r);
    if r !in list {
      WithoutAbsent(list, r);
    }
  }

  lemma ListTaken(list: seq<ID>, count: nat)
    requires ListOk(list, count) && list != []
    ensures ListOk(list[1..], count) && OthersStay(list, list[1..], list[0]) && list[0] !in list[1..] && list[0] in list
  {
    assert list == [list[0]] + list[1..];
    assert forall x :: x in list[1..] ==> x in list;
  }

  /** What the invariant says of one request. */
  lemma About(l: Loop, r: ID, loose: int)
    requires InvAt(l, loose) && r < |l.requests|
    ensures Known(l, r) && Placed(Look(l, r), r == loose)
    ensures l.requests[r].sequence != NONE ==> SequenceOk(l, l.requests[r].sequence)
    ensures forall s: nat :: Occupies(l, r, s) ==>
            l.phase == Completing(r, true) || (l.sequences[s].running && l.sequences[s].runner == r)
    ensures forall s :: 0 <= s < |l.sequences| && l.sequences[s].runner == r ==>
            l.requests[r].sequence == s && l.requests[r].state != Free
  {
    forall s | 0 <= s < |l.sequences| && l.sequences[s].runner == r
      ensures l.requests[r].sequence == s && l.requests[r].state != Free
    {
      assert SequenceOk(l, s);
    }
  }
}
