/** The event loop's active timers: an intrusive doubly linked list kept in the order of expiration, and the pass
    that fires those that are due while their callbacks stop others. */
module Timers {

  import opened IntrusiveLists

  const NONE := -1

  // ------------------------------------------------------------------ Order

  predicate Sorted(list: seq<ID>, expiration: seq<int>)
    requires forall k :: 0 <= k < |list| ==> list[k] < |expiration|
  {
    forall j, k :: 0 <= j < k < |list| ==> expiration[list[j]] <= expiration[list[k]]
  }

  predicate Known(list: seq<ID>, expiration: seq<int>)
  {
    forall k :: 0 <= k < |list| ==> list[k] < |expiration|
  }

  /** Where a timer goes: before the first that expires later. */
  function Position(list: seq<ID>, expiration: seq<int>, t: ID, from: nat := 0): (k: nat)
    requires Known(list, expiration) && t < |expiration| && from <= |list|
    ensures from <= k <= |list|
    ensures forall j :: from <= j < k ==> expiration[list[j]] <= expiration[t]
    ensures k < |list| ==> expiration[list[k]] > expiration[t]
    decreases |list| - from
  {
    if from == |list| || expiration[list[from]] > expiration[t] then from else Position(list, expiration, t, from + 1)
  }

  function Inserted(list: seq<ID>, expiration: seq<int>, t: ID): seq<ID>
    requires Known(list, expiration) && t < |expiration|
  {
    var k := Position(list, expiration, t);
    Spliced(list, k, t)
  }

  function Spliced(list: seq<ID>, k: nat, t: ID): (r: seq<ID>)
    requires k <= |list|
    ensures |r| == |list| + 1
    ensures forall j :: 0 <= j < |r| ==> r[j] == if j < k then list[j] else if j == k then t else list[j - 1]
  {
    list[..k] + [t] + list[k..]
  }

  lemma SplicedDistinct(list: seq<ID>, k: nat, t: ID)
    requires k <= |list| && Distinct(list) && t !in list
    ensures Distinct(Spliced(list, k, t)) && Without(Spliced(list, k, t), t) == list
  {
    WithoutSpliced(list, k, t);
    var r := Spliced(list, k, t);
    hide Spliced, Without;
    forall i, j | 0 <= i < j < |r| ensures r[i] != r[j] {
      if i == k {
        assert r[j] == list[j - 1];
      } else if j == k {
        assert r[i] == list[i];
      } else {
        assert r[i] == list[if i < k then i else i - 1] && r[j] == list[if j < k then j else j - 1];
      }
    }
  }

  lemma {:induction false} WithoutBetween(front: seq<ID>, back: seq<ID>, t: ID)
    requires t !in front && t !in back
    ensures Without(front + [t] + back, t) == front + back
  {
    if front == [] {
      WithoutAbsent(back, t);
      assert front + [t] + back == [t] + back && front + back == back;
      assert ([t] + back)[1..] == back;
    } else {
      WithoutBetween(front[1..], back, t);
      assert (front + [t] + back)[1..] == front[1..] + [t] + back;
      assert front + back == [front[0]] + (front[1..] + back);
    }
  }

  lemma WithoutSpliced(list: seq<ID>, k: nat, t: ID)
    requires k <= |list| && t !in list
    ensures Without(Spliced(list, k, t), t) == list
  {
    var front, back := list[..k], list[k..];
    assert list == front + back && Spliced(list, k, t) == front + [t] + back;
    hide Spliced;
    WithoutBetween(front, back, t);
  }

  /** Insertion keeps the order, and puts a timer after all that expire at the same time: timers with one
      expiration fire in the order in which they were started. */
  lemma InsertionSorts(list: seq<ID>, expiration: seq<int>, t: ID)
    requires Known(list, expiration) && t < |expiration| && Sorted(list, expiration) && Distinct(list) && t !in list
    ensures var r := Inserted(list, expiration, t);
            && Known(r, expiration) && Sorted(r, expiration) && Distinct(r) && Without(r, t) == list
            && exists k :: Placed(r, expiration, t, k)
  {
    var k := Position(list, expiration, t);
    SplicedDistinct(list, k, t);
    SplicedSorted(list, expiration, t, k);
    hide Spliced, Position, Without, Sorted, Distinct, Known, Placed;
  }

  /** Timer t is at position k, after all that expire with it or before and before all that expire later. */
  predicate Placed(r: seq<ID>, expiration: seq<int>, t: ID, k: nat)
    requires Known(r, expiration)
  {
    && k < |r| && r[k] == t
    && (forall j :: 0 <= j < k ==> expiration[r[j]] <= expiration[t])
    && (forall j :: k < j < |r| ==> expiration[r[j]] > expiration[t])
  }

  lemma SplicedSorted(list: seq<ID>, expiration: seq<int>, t: ID, k: nat)
    requires Known(list, expiration) && t < |expiration| && Sorted(list, expiration) && k <= |list|
    requires forall j :: 0 <= j < k ==> expiration[list[j]] <= expiration[t]
    requires k < |list| ==> expiration[list[k]] > expiration[t]
    ensures var r := Spliced(list, k, t); Known(r, expiration) && Sorted(r, expiration) && Placed(r, expiration, t, k)
  {
    var r := Spliced(list, k, t);
    hide Spliced;
    assert forall j :: k <= j < |list| ==> expiration[list[j]] > expiration[t];
    forall i, j | 0 <= i < j < |r| ensures expiration[r[i]] <= expiration[r[j]] {
      var i', j' := if i < k then i else i - 1, if j < k then j else j - 1;
      if i != k && j != k {
        assert r[i] == list[i'] && r[j] == list[j'];
      }
    }
  }

  function Cut(list: seq<ID>, k: nat): (r: seq<ID>)
    requires k < |list|
    ensures |r| == |list| - 1
    ensures forall j :: 0 <= j < |r| ==> r[j] == if j < k then list[j] else list[j + 1]
  {
    list[..k] + list[k + 1..]
  }

  lemma RemovalKeeps(list: seq<ID>, k: nat)
    requires k < |list| && Distinct(list)
    ensures Without(list, list[k]) == Cut(list, k) && Distinct(Cut(list, k))
  {
    CutAbsent(list, k);
    CutSpliced(list, k);
    hide Cut, Spliced, Distinct;
    WithoutSpliced(Cut(list, k), k, list[k]);
  }

  lemma CutAbsent(list: seq<ID>, k: nat)
    requires k < |list| && Distinct(list)
    ensures list[k] !in Cut(list, k) && Distinct(Cut(list, k))
  {
  }

  lemma CutSpliced(list: seq<ID>, k: nat)
    requires k < |list|
    ensures Spliced(Cut(list, k), k, list[k]) == list
  {
    var r := Cut(list, k);
    assert r[..k] == list[..k] && r[k..] == list[k + 1..];
  }

  // ------------------------------------------------------------------ Links

  /** The links of the timers in the list lead to its neighbours. */
  predicate LinksOk(list: seq<ID>, next: seq<int>, prev: seq<int>)
  {
    && |next| == |prev| && (forall k :: 0 <= k < |list| ==> list[k] < |next|)
    && (forall k {:trigger next[list[k]]} {:trigger prev[list[k]]} :: 0 <= k < |list| ==>
          next[list[k]] == At(list, k + 1) && prev[list[k]] == At(list, k - 1))
  }

  function At(list: seq<ID>, k: int): int
  {
    if 0 <= k < |list| then list[k] else NONE
  }

  /** The links that change when timer t comes in at position k. */
  predicate SplicesLinks(list: seq<ID>, next: seq<int>, prev: seq<int>, next': seq<int>, prev': seq<int>,
                         k: nat, t: ID)
  {
    && t < |next| == |prev| == |next'| == |prev'|
    && (forall x :: 0 <= x < |next| ==>
          && next'[x] == (if x == t then At(list, k) else if At(list, k - 1) == x then t else next[x])
          && prev'[x] == (if x == t then At(list, k - 1) else if At(list, k) == x then t else prev[x]))
  }

  lemma LinkSpliced(list: seq<ID>, next: seq<int>, prev: seq<int>, next': seq<int>, prev': seq<int>,
                    k: nat, t: ID, i: nat)
    requires LinksOk(list, next, prev) && Distinct(list) && t !in list && i < |list|
    requires SplicesLinks(list, next, prev, next', prev', k, t)
    ensures list[i] < |next'|
    ensures next'[list[i]] == if i == k - 1 then t else At(list, i + 1)
    ensures prev'[list[i]] == if i == k then t else At(list, i - 1)
  {
    AtOnly(list, k - 1, i);
    AtOnly(list, k, i);
    hide At, Distinct;
    assert next[list[i]] == At(list, i + 1) && prev[list[i]] == At(list, i - 1);
  }

  lemma LinksSpliced(list: seq<ID>, next: seq<int>, prev: seq<int>, next': seq<int>, prev': seq<int>,
                     k: nat, t: ID)
    requires LinksOk(list, next, prev) && Distinct(list) && k <= |list| && t !in list
    requires SplicesLinks(list, next, prev, next', prev', k, t)
    ensures LinksOk(Spliced(list, k, t), next', prev')
  {
    var r := Spliced(list, k, t);
    forall j | 0 <= j < |r| ensures r[j] < |next'| && next'[r[j]] == At(r, j + 1) && prev'[r[j]] == At(r, j - 1) {
      SplicedAt(list, k, t, j + 1);
      SplicedAt(list, k, t, j - 1);
      if j != k {
        var i := if j < k then j else j - 1;
        assert r[j] == list[i];
        hide Spliced, At, Distinct, SplicesLinks, LinksOk;
        LinkSpliced(list, next, prev, next', prev', k, t, i);
      }
    }
    hide Spliced, At, Distinct, SplicesLinks;
  }

  /** The neighbours in the new list. */
  lemma SplicedAt(list: seq<ID>, k: nat, t: ID, j: int)
    requires k <= |list|
    ensures At(Spliced(list, k, t), j) == if j == k then t else At(list, if j < k then j else j - 1)
  {
  }

  lemma CutAt(list: seq<ID>, k: nat, j: int)
    requires k < |list|
    ensures At(Cut(list, k), j) == At(list, if j < k then j else j + 1)
  {
  }

  lemma AtOnly(list: seq<ID>, j: int, i: nat)
    requires Distinct(list) && i < |list|
    ensures At(list, j) == list[i] <==> j == i
  {
  }

  /** The links that change when the timer at position k goes. */
  predicate CutsLinks(list: seq<ID>, next: seq<int>, prev: seq<int>, next': seq<int>, prev': seq<int>, k: nat)
  {
    && |next| == |prev| == |next'| == |prev'|
    && (forall x :: 0 <= x < |next| ==>
          && next'[x] == (if At(list, k) == x then NONE else if At(list, k - 1) == x then At(list, k + 1) else next[x])
          && prev'[x] == (if At(list, k) == x then NONE else if At(list, k + 1) == x then At(list, k - 1) else prev[x]))
  }

  lemma LinkCut(list: seq<ID>, next: seq<int>, prev: seq<int>, next': seq<int>, prev': seq<int>, k: nat, i: nat)
    requires LinksOk(list, next, prev) && Distinct(list) && i < |list| && i != k
    requires CutsLinks(list, next, prev, next', prev', k)
    ensures list[i] < |next'|
    ensures next'[list[i]] == if i == k - 1 then At(list, k + 1) else At(list, i + 1)
    ensures prev'[list[i]] == if i == k + 1 then At(list, k - 1) else At(list, i - 1)
  {
    AtOnly(list, k - 1, i);
    AtOnly(list, k, i);
    AtOnly(list, k + 1, i);
    hide At, Distinct;
    assert next[list[i]] == At(list, i + 1) && prev[list[i]] == At(list, i - 1);
  }

  lemma LinksCut(list: seq<ID>, next: seq<int>, prev: seq<int>, next': seq<int>, prev': seq<int>, k: nat)
    requires LinksOk(list, next, prev) && Distinct(list) && k < |list| && CutsLinks(list, next, prev, next', prev', k)
    ensures LinksOk(Cut(list, k), next', prev')
  {
    var r := Cut(list, k);
    forall j | 0 <= j < |r| ensures r[j] < |next'| && next'[r[j]] == At(r, j + 1) && prev'[r[j]] == At(r, j - 1) {
      CutAt(list, k, j + 1);
      CutAt(list, k, j - 1);
      var i := if j < k then j else j + 1;
      assert r[j] == list[i];
      hide Cut, At, Distinct, CutsLinks, LinksOk;
      LinkCut(list, next, prev, next', prev', k, i);
    }
    hide Cut, At, Distinct, CutsLinks;
  }

  /** The fields of the list and of its timers. */
  datatype Fields = Fields(front: int, back: int, next: seq<int>, prev: seq<int>, expiration: seq<int>,
      active: seq<bool>)

  /** Exactly the timers in the list are active, and the others have no links. */
  predicate Members(f: Fields, list: seq<ID>)
  {
    && |f.next| == |f.prev| == |f.active|
    && (forall t :: 0 <= t < |f.active| ==>
          (f.active[t] <==> t in list) && (t !in list ==> f.next[t] == NONE && f.prev[t] == NONE))
  }

  /** The fields say what the list is. */
  ghost predicate Linked(f: Fields, list: seq<ID>)
  {
    && |f.next| == |f.prev| == |f.active| == |f.expiration|
    && Known(list, f.expiration) && Distinct(list)
    && f.front == At(list, 0) && f.back == At(list, |list| - 1)
    && LinksOk(list, f.next, f.prev)
    && Members(f, list)
  }

  lemma SplicedIn(list: seq<ID>, k: nat, t: ID)
    requires k <= |list|
    ensures forall x: ID :: x in Spliced(list, k, t) <==> x in list || x == t
  {
    assert Spliced(list, k, t) == list[..k] + [t] + list[k..];
    assert list == list[..k] + list[k..];
  }

  lemma CutIn(list: seq<ID>, k: nat)
    requires k < |list| && Distinct(list)
    ensures forall x: ID :: x in Cut(list, k) <==> x in list && x != list[k]
  {
    RemovalKeeps(list, k);
  }

  lemma MembersSpliced(f: Fields, f': Fields, list: seq<ID>, r: seq<ID>, k: nat, t: ID)
    requires Members(f, list) && k <= |list| && t < |f.active| &&
             SplicesLinks(list, f.next, f.prev, f'.next, f'.prev, k, t)
    requires f'.active == f.active[t := true] && forall x: ID :: x in r <==> x in list || x == t
    ensures Members(f', r)
  {
    AtIn(list, k);
    AtIn(list, k - 1);
    hide At;
  }

  lemma LinkedSpliced(f: Fields, f': Fields, list: seq<ID>, k: nat, t: ID)
    requires Linked(f, list) && k <= |list| && t < |f.active| && t !in list
    requires SplicesLinks(list, f.next, f.prev, f'.next, f'.prev, k, t)
    requires f'.front == (if k == 0 then t else f.front) && f'.back == if k == |list| then t else f.back
    requires f'.expiration == f.expiration && f'.active == f.active[t := true]
    ensures Linked(f', Spliced(list, k, t))
  {
    SplicedDistinct(list, k, t);
    LinksSpliced(list, f.next, f.prev, f'.next, f'.prev, k, t);
    SplicedAt(list, k, t, 0);
    SplicedAt(list, k, t, |list|);
    SplicedIn(list, k, t);
    MembersSpliced(f, f', list, Spliced(list, k, t), k, t);
    assert Known(Spliced(list, k, t), f.expiration);
    hide Spliced, Distinct, LinksOk, At, SplicesLinks, Known, Members;
  }

  lemma AtIn(list: seq<ID>, j: int)
    ensures At(list, j) == NONE || At(list, j) in list
    ensures At(list, j) == NONE <==> !(0 <= j < |list|)
  {
  }

  lemma MembersCut(f: Fields, f': Fields, list: seq<ID>, r: seq<ID>, k: nat)
    requires Members(f, list) && k < |list| && list[k] < |f.active| &&
             CutsLinks(list, f.next, f.prev, f'.next, f'.prev, k)
    requires f'.active == f.active[list[k] := false] && forall x: ID :: x in r <==> x in list && x != list[k]
    ensures Members(f', r)
  {
    AtIn(list, k);
    AtIn(list, k - 1);
    AtIn(list, k + 1);
    assert At(list, k) == list[k];
    hide At;
  }

  lemma LinkedCut(f: Fields, f': Fields, list: seq<ID>, k: nat)
    requires Linked(f, list) && k < |list| && CutsLinks(list, f.next, f.prev, f'.next, f'.prev, k)
    requires f'.front == (if k == 0 then At(list, 1) else f.front) &&
             f'.back == if k == |list| - 1 then At(list, k - 1) else f.back
    requires f'.expiration == f.expiration && f'.active == f.active[list[k] := false]
    ensures Linked(f', Cut(list, k))
  {
    RemovalKeeps(list, k);
    LinksCut(list, f.next, f.prev, f'.next, f'.prev, k);
    CutAt(list, k, 0);
    CutAt(list, k, |list| - 2);
    CutIn(list, k);
    MembersCut(f, f', list, Cut(list, k), k);
    assert Known(Cut(list, k), f.expiration);
    hide Cut, Distinct, LinksOk, At, Without, CutsLinks, Known;
  }

  // ------------------------------------------------------------------ Firing

  function WithoutAll(list: seq<ID>, ids: seq<ID>): (r: seq<ID>)
    ensures forall x :: x in r <==> x in list && x !in ids
    decreases |ids|
  {
    if ids == [] then list else WithoutAll(Without(list, ids[0]), ids[1..])
  }

  /** What the callback of a timer stops. */
  function StoppedBy(stops: map<ID, seq<ID>>, t: ID): seq<ID>
  {
    if t in stops then stops[t] else []
  }

  lemma {:induction false} WithoutShorter(list: seq<ID>, t: ID)
    ensures |Without(list, t)| <= |list|
  {
    if list != [] {
      WithoutShorter(list[1..], t);
    }
  }

  lemma {:induction false} WithoutAllShorter(list: seq<ID>, ids: seq<ID>)
    ensures |WithoutAll(list, ids)| <= |list|
    decreases |ids|
  {
    if ids != [] {
      WithoutShorter(list, ids[0]);
      WithoutAllShorter(Without(list, ids[0]), ids[1..]);
    }
  }

  /** The list after the callback of its first timer. */
  function Rest(list: seq<ID>, stops: map<ID, seq<ID>>): (r: seq<ID>)
    requires list != []
    ensures |r| < |list|
  {
    WithoutAllShorter(list[1..], StoppedBy(stops, list[0]));
    WithoutAll(list[1..], StoppedBy(stops, list[0]))
  }

  /** The timers that fire, in order, when each callback stops those that `stops` gives for it. */
  function Fired(list: seq<ID>, expiration: seq<int>, now: int, stops: map<ID, seq<ID>>): seq<ID>
    requires Known(list, expiration)
    decreases |list|
  {
    if list == [] || expiration[list[0]] > now then []
    else [list[0]] + Fired(RestKnown(list, expiration, stops), expiration, now, stops)
  }

  /** The timers that stay in the list. */
  function Left(list: seq<ID>, expiration: seq<int>, now: int, stops: map<ID, seq<ID>>): seq<ID>
    requires Known(list, expiration)
    decreases |list|
  {
    if list == [] || expiration[list[0]] > now then list
    else Left(RestKnown(list, expiration, stops), expiration, now, stops)
  }

  function RestKnown(list: seq<ID>, expiration: seq<int>, stops: map<ID, seq<ID>>): (r: seq<ID>)
    requires list != [] && Known(list, expiration)
    ensures Known(r, expiration) && |r| < |list| && r == Rest(list, stops)
  {
    var r := Rest(list, stops);
    assert forall x: ID :: x in r ==> x in list[1..] && x in list;
    assert forall k :: 0 <= k < |r| ==> r[k] in r;
    r
  }

  /** The turn of the first timer. */
  lemma Turn(list: seq<ID>, expiration: seq<int>, now: int, stops: map<ID, seq<ID>>)
    requires Known(list, expiration)
    ensures if list == [] || expiration[list[0]] > now
            then Fired(list, expiration, now, stops) == [] && Left(list, expiration, now, stops) == list
            else var rest := RestKnown(list, expiration, stops);
                 && Fired(list, expiration, now, stops) == [list[0]] + Fired(rest, expiration, now, stops)
                 && Left(list, expiration, now, stops) == Left(rest, expiration, now, stops)
  {
    hide RestKnown;
  }

  /** The elements of `part` are in the list, in the same order. */
  predicate Within(part: seq<ID>, list: seq<ID>)
    decreases |list|
  {
    part == [] || (list != [] && (if part[0] == list[0] then Within(part[1..], list[1..]) else Within(part, list[1..])))
  }

  lemma {:induction false} WithinDrop(part: seq<ID>, list: seq<ID>)
    requires part != [] && Within(part, list)
    ensures Within(part[1..], list)
    decreases |list|, 0
  {
    if part[0] == list[0] {
      WithinLonger(part[1..], list[1..], list[0]);
      assert list == [list[0]] + list[1..];
    } else {
      WithinDrop(part, list[1..]);
      WithinLonger(part[1..], list[1..], list[0]);
      assert list == [list[0]] + list[1..];
    }
  }

  lemma {:induction false} WithinLonger(part: seq<ID>, list: seq<ID>, t: ID)
    requires Within(part, list)
    ensures Within(part, [t] + list)
    decreases |list|, 1
  {
    assert ([t] + list)[1..] == list;
    if part != [] && part[0] == t {
      WithinDrop(part, list);
    }
  }

  lemma {:induction false} WithinSelf(list: seq<ID>)
    ensures Within(list, list)
  {
    if list != [] {
      WithinSelf(list[1..]);
    }
  }

  lemma {:induction false} WithinTransitive(a: seq<ID>, b: seq<ID>, c: seq<ID>)
    requires Within(a, b) && Within(b, c)
    ensures Within(a, c)
    decreases |c|
  {
    if a != [] {
      if b[0] == c[0] {
        if a[0] == b[0] {
          WithinTransitive(a[1..], b[1..], c[1..]);
        } else {
          WithinTransitive(a, b[1..], c[1..]);
        }
      } else {
        WithinTransitive(a, b, c[1..]);
        WithinLonger(a, c[1..], c[0]);
        assert c == [c[0]] + c[1..];
      }
    }
  }

  lemma {:induction false} WithoutWithin(list: seq<ID>, t: ID)
    ensures Within(Without(list, t), list)
  {
    if list != [] {
      WithoutWithin(list[1..], t);
      if list[0] == t {
        WithinLonger(Without(list[1..], t), list[1..], t);
        assert list == [t] + list[1..];
      } else {
        assert ([list[0]] + Without(list[1..], t))[1..] == Without(list[1..], t);
      }
    }
  }

  lemma {:induction false} WithoutAllWithin(list: seq<ID>, ids: seq<ID>)
    ensures Within(WithoutAll(list, ids), list)
    decreases |ids|
  {
    if ids == [] {
      WithinSelf(list);
    } else {
      WithoutWithin(list, ids[0]);
      WithoutAllWithin(Without(list, ids[0]), ids[1..]);
      WithinTransitive(WithoutAll(list, ids), Without(list, ids[0]), list);
    }
  }

  lemma {:induction false} WithinIn(part: seq<ID>, list: seq<ID>, x: ID)
    requires Within(part, list) && x in part
    ensures x in list
    decreases |list|
  {
    if part[0] == list[0] {
      if x != part[0] {
        assert x in part[1..];
        WithinIn(part[1..], list[1..], x);
      }
    } else {
      WithinIn(part, list[1..], x);
    }
  }

  lemma {:induction false} WithinDistinct(part: seq<ID>, list: seq<ID>)
    requires Within(part, list) && Distinct(list)
    ensures Distinct(part)
    decreases |list|
  {
    if part != [] {
      assert Distinct(list[1..]);
      if part[0] == list[0] {
        WithinDistinct(part[1..], list[1..]);
        forall k | 0 < k < |part| ensures part[0] != part[k] {
          assert part[k] in part[1..];
          WithinIn(part[1..], list[1..], part[k]);
        }
        assert forall i, j :: 0 < i < j < |part| ==> part[i] == part[1..][i - 1] && part[j] == part[1..][j - 1];
      } else {
        WithinDistinct(part, list[1..]);
      }
    }
  }

  /** The timers fire in the order of the list, and those left stay in that order. */
  lemma {:induction false} FiringOrder(list: seq<ID>, expiration: seq<int>, now: int, stops: map<ID, seq<ID>>)
    requires Known(list, expiration)
    ensures Within(Fired(list, expiration, now, stops), list) && Within(Left(list, expiration, now, stops), list)
    decreases |list|
  {
    if list == [] || expiration[list[0]] > now {
      WithinSelf(list);
    } else {
      var rest := RestKnown(list, expiration, stops);
      FiringOrder(rest, expiration, now, stops);
      WithoutAllWithin(list[1..], StoppedBy(stops, list[0]));
      var fired, left := Fired(rest, expiration, now, stops), Left(rest, expiration, now, stops);
      WithinTransitive(fired, rest, list[1..]);
      WithinTransitive(left, rest, list[1..]);
      WithinLonger(left, list[1..], list[0]);
      assert [list[0]] + list[1..] == list;
      assert ([list[0]] + fired)[1..] == fired;
    }
  }

  /** Some callback that ran before the turn of timer t has stopped it: `turn` timers have fired by then. */
  predicate StoppedEarlier(fired: seq<ID>, stops: map<ID, seq<ID>>, t: ID, turn: nat)
    requires turn <= |fired|
  {
    exists i :: 0 <= i < turn && t in StoppedBy(stops, fired[i])
  }

  /** The timer has fired only if it was due and nothing that fired before it had stopped it; it has not fired only
      if it was not due or something had stopped it; and it is left exactly if it is not due and nothing has. */
  ghost predicate FiringOk(fired: seq<ID>, left: seq<ID>, due: bool, stops: map<ID, seq<ID>>, t: ID)
  {
    && (t in fired ==> due)
    && (forall i :: 0 <= i < |fired| && fired[i] == t ==> !StoppedEarlier(fired, stops, t, i))
    && (due && t !in fired ==> StoppedEarlier(fired, stops, t, |fired|))
    && (t in left <==> !due && !StoppedEarlier(fired, stops, t, |fired|))
  }

  /** So it is with every timer in the list. */
  lemma {:induction false} FiringExact(list: seq<ID>, expiration: seq<int>, now: int, stops: map<ID, seq<ID>>, t: ID)
    requires Known(list, expiration) && Distinct(list) && Sorted(list, expiration) && t in list
    ensures FiringOk(Fired(list, expiration, now, stops), Left(list, expiration, now, stops), expiration[t] <= now,
            stops, t)
    decreases |list|
  {
    if expiration[list[0]] > now {
      var k :| 0 <= k < |list| && list[k] == t;
      assert expiration[list[0]] <= expiration[list[k]];
    } else {
      var head := list[0];
      var rest := RestKnown(list, expiration, stops);
      var fired, left := Fired(rest, expiration, now, stops), Left(rest, expiration, now, stops);
      RestOk(list, expiration, stops);
      FiringOrder(rest, expiration, now, stops);
      hide FiringOk, RestKnown, Rest, StoppedBy;
      if t in rest {
        FiringExact(rest, expiration, now, stops, t);
      }
      FiringHead(list, rest, fired, left, stops, t);
      if t == head {
        HeadFires(head, fired, left, stops);
      } else {
        OtherFires(head, rest, fired, left, expiration[t] <= now, stops, t);
      }
    }
  }

  lemma HeadFires(head: ID, fired: seq<ID>, left: seq<ID>, stops: map<ID, seq<ID>>)
    requires head !in fired && head !in left
    ensures FiringOk([head] + fired, left, true, stops, head)
  {
    assert ([head] + fired)[0] == head;
  }

  lemma OtherFires(head: ID, rest: seq<ID>, fired: seq<ID>, left: seq<ID>, due: bool, stops: map<ID, seq<ID>>, t: ID)
    requires t != head && (t in rest <==> t !in StoppedBy(stops, head))
    requires if t in rest then FiringOk(fired, left, due, stops, t) else t !in fired && t !in left
    ensures FiringOk([head] + fired, left, due, stops, t)
  {
    var all := [head] + fired;
    hide StoppedEarlier;
    assert |all| == |fired| + 1 && all[1..] == fired;
    assert t in all <==> t in fired;
    forall i | 0 <= i < |all| && all[i] == t ensures !StoppedEarlier(all, stops, t, i) {
      assert i > 0 && fired[i - 1] == t;
      Shifted(head, fired, stops, t, i - 1);
    }
    Shifted(head, fired, stops, t, |fired|);
  }

  /** The head of the list is no part of the rest, and what is neither has been stopped by the head. */
  lemma FiringHead(list: seq<ID>, rest: seq<ID>, fired: seq<ID>, left: seq<ID>, stops: map<ID, seq<ID>>, t: ID)
    requires list != [] && Distinct(list) && t in list
    requires rest == WithoutAll(list[1..], StoppedBy(stops, list[0])) && Within(fired, rest) && Within(left, rest)
    ensures t == list[0] ==> t !in fired && t !in left
    ensures t != list[0] ==> (t in rest <==> t !in StoppedBy(stops, list[0]))
    ensures t !in rest ==> t !in fired && t !in left
  {
    assert list == [list[0]] + list[1..];
    if t in fired { WithinIn(fired, rest, t); }
    if t in left { WithinIn(left, rest, t); }
  }

  /** What stops a timer, seen with one more callback in front. */
  lemma Shifted(head: ID, fired: seq<ID>, stops: map<ID, seq<ID>>, t: ID, i: nat)
    requires i <= |fired|
    ensures StoppedEarlier([head] + fired, stops, t, i + 1) <==>
              t in StoppedBy(stops, head) || StoppedEarlier(fired, stops, t, i)
  {
    var all := [head] + fired;
    if j :| 0 <= j < i && t in StoppedBy(stops, fired[j]) {
      assert t in StoppedBy(stops, all[j + 1]);
    }
    if t in StoppedBy(stops, head) {
      assert t in StoppedBy(stops, all[0]);
    }
  }

  lemma RestOk(list: seq<ID>, expiration: seq<int>, stops: map<ID, seq<ID>>)
    requires list != [] && Known(list, expiration) && Distinct(list) && Sorted(list, expiration)
    ensures var rest := RestKnown(list, expiration, stops); Distinct(rest) && Sorted(rest, expiration)
  {
    WithoutAllWithin(list[1..], StoppedBy(stops, list[0]));
    var rest := RestKnown(list, expiration, stops);
    WithinDistinct(rest, list[1..]);
    WithinSorted(rest, list[1..], expiration);
  }

  lemma {:induction false} WithinSorted(part: seq<ID>, list: seq<ID>, expiration: seq<int>)
    requires Within(part, list) && Known(list, expiration) && Known(part, expiration) && Sorted(list, expiration)
    ensures Sorted(part, expiration)
    decreases |list|
  {
    if part != [] {
      assert Known(list[1..], expiration) && Sorted(list[1..], expiration);
      if part[0] == list[0] {
        WithinSorted(part[1..], list[1..], expiration);
        forall k | 0 < k < |part| ensures expiration[part[0]] <= expiration[part[k]] {
          assert part[k] in part[1..];
          WithinIn(part[1..], list[1..], part[k]);
          var m :| 0 <= m < |list[1..]| && list[1..][m] == part[k];
          assert expiration[list[0]] <= expiration[list[m + 1]];
        }
        assert forall i, j :: 0 < i < j < |part| ==> part[i] == part[1..][i - 1] && part[j] == part[1..][j - 1];
      } else {
        WithinSorted(part, list[1..], expiration);
      }
    }
  }

  // ------------------------------------------------------------------ The list

  /** The expiration of a timer that is not in the list does not matter to it. */
  lemma Retimed(f: Fields, list: seq<ID>, t: ID, expires: int)
    requires Linked(f, list) && Sorted(list, f.expiration) && t < |f.active| && !f.active[t]
    ensures var f' := f.(expiration := f.expiration[t := expires]);
            t !in list && Linked(f', list) && Sorted(list, f'.expiration)
  {
    hide LinksOk, Distinct, At;
    assert t !in list;
  }

  class TimerList {
    var front: int
    var back: int
    var next: seq<int>
    var prev: seq<int>
    var expiration: seq<int>
    var active: seq<bool>
    ghost var list: seq<ID>

    ghost function Value(): Fields
      reads this
    {
      Fields(front, back, next, prev, expiration, active)
    }

    ghost predicate Valid()
      reads this
    {
      Linked(Value(), list) && Sorted(list, expiration)
    }

    constructor (count: nat)
      ensures Valid() && list == [] && |expiration| == count
    {
      front, back := NONE, NONE;
      next := seq(count, _ => NONE);
      prev := seq(count, _ => NONE);
      expiration := seq(count, _ => 0);
      active := seq(count, _ => false);
      list := [];
    }

    /** addActiveHandle for a timer. */
    method Add(t: ID, expires: int)
      requires Valid() && t < |active| && !active[t]
      modifies this
      ensures Valid() && expiration == old(expiration)[t := expires]
      ensures list == Inserted(old(list), expiration, t)
    {
      expiration := expiration[t := expires];
      Retimed(old(Value()), list, t, expires);
      hide Sorted, Distinct, LinksOk, Members, At, Spliced, Position;
      var cursor, k := FindPlace(t);
      InsertionSorts(list, expiration, t);
      InsertBefore(t, cursor, k);
    }

    /** The first timer that expires later, or none. */
    method FindPlace(t: ID) returns (cursor: int, ghost k: nat)
      requires Linked(Value(), list) && t < |expiration|
      ensures k <= |list| && cursor == At(list, k) && k == Position(list, expiration, t)
    {
      hide Distinct, Members;
      cursor, k := front, 0;
      while cursor != NONE && expiration[cursor] <= expiration[t]
        invariant 0 <= k <= |list| && cursor == At(list, k)
        invariant Position(list, expiration, t) == Position(list, expiration, t, k)
        decreases |list| - k
      {
        assert next[list[k]] == At(list, k + 1);
        cursor := next[cursor];
        k := k + 1;
      }
    }

    /** Links the timer in before the cursor, or at the back. */
    method InsertBefore(t: ID, cursor: int, ghost k: nat)
      requires Linked(Value(), list) && t < |active| && !active[t]
      requires k <= |list| && cursor == At(list, k)
      modifies this
      ensures Linked(Value(), list) && expiration == old(expiration) && list == Spliced(old(list), k, t)
    {
      var before := back;
      if cursor != NONE {
        before := prev[cursor];
      }
      Neighbours(k);
      AtIn(list, k);
      AtIn(list, k - 1);
      hide Spliced, Distinct, LinksOk, At, Known;
      LinkBetween(before, t, cursor);
      active := active[t := true];
      LinkedSpliced(old(Value()), Value(), list, k, t);
      list := Spliced(list, k, t);
    }

    lemma Neighbours(k: nat)
      requires Linked(Value(), list) && k <= |list|
      ensures At(list, k) < |next| && At(list, k - 1) < |next|
      ensures (if At(list, k) != NONE then prev[At(list, k)] else back) == At(list, k - 1)
    {
      if k < |list| {
        assert prev[list[k]] == At(list, k - 1);
      }
    }

    /** The assignments that put a timer between two neighbours, either of which may be missing. */
    method LinkBetween(before: int, t: ID, after: int)
      requires |next| == |prev| && t < |next| && -1 <= before < |next| && -1 <= after < |next|
      requires before != t && after != t
      modifies `front, `back, `next, `prev
      ensures |next| == |prev| == old(|next|)
      ensures front == (if before == NONE then t else old(front)) && back == if after == NONE then t else old(back)
      ensures forall x :: 0 <= x < |next| ==>
                && next[x] == (if x == t then after else if before == x then t else old(next)[x])
                && prev[x] == (if x == t then before else if after == x then t else old(prev)[x])
    {
      prev, next := prev[t := before], next[t := after];
      if before != NONE {
        next := next[before := t];
      } else {
        front := t;
      }
      if after != NONE {
        prev := prev[after := t];
      } else {
        back := t;
      }
    }

    /** removeActiveHandle for a timer. */
    method Remove(t: ID, ghost k: nat)
      requires Valid() && k < |list| && list[k] == t
      modifies this
      ensures Valid() && expiration == old(expiration) && list == Without(old(list), t) && list == Cut(old(list), k)
    {
      RemovalKeeps(list, k);
      CutSorted(list, expiration, k);
      hide Cut, Distinct, LinksOk, At, Known, Sorted, Without, Members;
      CutOut(t, k);
    }

    method CutOut(t: ID, ghost k: nat)
      requires Linked(Value(), list) && k < |list| && list[k] == t
      modifies this
      ensures Linked(Value(), list) && expiration == old(expiration) && list == Cut(old(list), k)
    {
      LinksOf(k);
      hide Cut, Distinct, LinksOk, At, Known, Members;
      Unlink(t);
      active := active[t := false];
      LinkedCut(old(Value()), Value(), list, k);
      list := Cut(list, k);
    }

    lemma LinksOf(k: nat)
      requires Linked(Value(), list) && k < |list|
      ensures var t := list[k];
              && t < |active| && next[t] == At(list, k + 1) && prev[t] == At(list, k - 1) && t == At(list, k)
              && next[t] < |next| && prev[t] < |next| && next[t] != t && prev[t] != t
              && (front == t <==> k == 0) && (back == t <==> k == |list| - 1)
    {
      AtOnly(list, 0, k);
      AtOnly(list, |list| - 1, k);
      AtOnly(list, k + 1, k);
      AtOnly(list, k - 1, k);
    }

    /** IntrusiveDoubleLinkedList::remove. */
    method Unlink(t: ID)
      requires |next| == |prev| && t < |next| && -1 <= next[t] < |next| && -1 <= prev[t] < |next|
      requires next[t] != t && prev[t] != t
      modifies `front, `back, `next, `prev
      ensures |next| == |prev| == old(|next|)
      ensures front == (if old(front) == t then old(next)[t] else old(front))
      ensures back == (if old(back) == t then old(prev)[t] else old(back))
      ensures forall x :: 0 <= x < |next| ==>
                && next[x] == (if x == t then NONE else if old(prev)[t] == x then old(next)[t] else old(next)[x])
                && prev[x] == (if x == t then NONE else if old(next)[t] == x then old(prev)[t] else old(prev)[x])
    {
      if t == front {
        front := next[front];
      }
      if t == back {
        back := prev[back];
      }
      var n, p := next[t], prev[t];
      if p != NONE {
        next := next[p := n];
      }
      if n != NONE {
        prev := prev[n := p];
      }
      next, prev := next[t := NONE], prev[t := NONE];
    }

    /** A callback stops timers: those that are active leave the list, the others are not touched. */
    method StopAll(ids: seq<ID>)
      requires Valid()
      modifies this
      ensures Valid() && expiration == old(expiration) && list == WithoutAll(old(list), ids)
    {
      var i := 0;
      while i < |ids|
        invariant Valid() && expiration == old(expiration) && i <= |ids|
        invariant WithoutAll(old(list), ids) == WithoutAll(list, ids[i..])
      {
        assert ids[i..][1..] == ids[i + 1..];
        if ids[i] < |active| && active[ids[i]] {
          ghost var k :| 0 <= k < |list| && list[k] == ids[i];
          Remove(ids[i], k);
        } else {
          WithoutAbsent(list, ids[i]);
        }
        i := i + 1;
      }
    }

    /** The turn of a due timer: it leaves the list, its callback runs, and the cursor, which stands on the timer
        after it, starts again from the front when the callback has stopped that timer. */
    method Fire(current: ID, following: int, stops: map<ID, seq<ID>>) returns (cursor: int)
      requires Valid() && list != [] && current == list[0] && following == At(list, 1)
      modifies this
      ensures Valid() && expiration == old(expiration)
      ensures list == RestKnown(old(list), expiration, stops) && cursor == At(list, 0)
    {
      Remove(current, 0);
      assert list == old(list)[1..];
      StopAll(StoppedBy(stops, current));
      FirstKept(old(list)[1..], StoppedBy(stops, current));
      cursor := following;
      hide Without, LinksOk, Distinct, Known, Sorted;
      if cursor != NONE && !active[cursor] {
        cursor := front;
      }
    }

    /** invokeExpiredTimers */
    method InvokeExpired(now: int, stops: map<ID, seq<ID>>) returns (fired: seq<ID>)
      requires Valid()
      modifies this
      ensures Valid() && expiration == old(expiration)
      ensures fired == Fired(old(list), expiration, now, stops)
      ensures list == Left(old(list), expiration, now, stops)
    {
      hide LinksOk, Distinct, Sorted, Members, RestKnown, Without, WithoutAll, Fired, Left;
      fired := [];
      var cursor := front;
      assert cursor == At(list, 0);
      while cursor != NONE
        invariant Valid() && expiration == old(expiration) && cursor == At(list, 0)
        invariant Fired(old(list), expiration, now, stops) == fired + Fired(list, expiration, now, stops)
        invariant Left(old(list), expiration, now, stops) == Left(list, expiration, now, stops)
        decreases |list|
      {
        var current := cursor;
        LinksOf(0);
        Turn(list, expiration, now, stops);
        cursor := next[current];
        if now >= expiration[current] {
          ghost var rest := Fired(RestKnown(list, expiration, stops), expiration, now, stops);
          assert fired + ([current] + rest) == fired + [current] + rest;
          fired := fired + [current];
          cursor := Fire(current, cursor, stops);
        } else {
          break;
        }
      }
      Turn(list, expiration, now, stops);
      assert fired + [] == fired;
    }
  }

  lemma {:induction false} FirstKept(list: seq<ID>, ids: seq<ID>)
    ensures list == [] ==> WithoutAll(list, ids) == []
    ensures list != [] && list[0] !in ids ==> WithoutAll(list, ids) != [] && WithoutAll(list, ids)[0] == list[0]
    decreases |ids|
  {
    if ids != [] {
      FirstKept(Without(list, ids[0]), ids[1..]);
    }
  }

  lemma CutSorted(list: seq<ID>, expiration: seq<int>, k: nat)
    requires Known(list, expiration) && Sorted(list, expiration) && k < |list|
    ensures Known(Cut(list, k), expiration) && Sorted(Cut(list, k), expiration)
  {
    var r := Cut(list, k);
    hide Cut;
    forall i, j | 0 <= i < j < |r| ensures expiration[r[i]] <= expiration[r[j]] {
      assert r[i] == list[if i < k then i else i + 1] && r[j] == list[if j < k then j else j + 1];
    }
  }
}
