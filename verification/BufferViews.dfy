/** Child views of pool buffers: who keeps whose memory alive. The pipeline's model of the pool, in module
    StreamModel, has only writable buffers; here are the other kinds of entry and the views into them. */
module BufferViews {

  import opened Wrappers

  type ID = nat

  /** An entry of the pool. A root owns the bytes from `start` on, `size` of them; a child is a window on
      a root's bytes, and caches the span it shows. */
  datatype View =
    | Empty
    | Root(writable: bool, start: nat, size: nat, offset: nat, length: nat, refs: int, reUse: bool)
    | Child(parent: ID, start: nat, size: nat, offset: nat, length: nat, refs: int)

  datatype Outcome = Ok(views: seq<View>, id: ID) | Error(views: seq<View>)

  // ------------------------------------------------------------------ Operations

  /** Parents of children are never children. */
  predicate Flat(views: seq<View>)
  {
    forall b :: 0 <= b < |views| && views[b].Child? ==> views[b].parent < |views| && views[views[b].parent].Root?
  }

  predicate Used(views: seq<View>, b: ID)
  {
    b < |views| && !views[b].Empty?
  }

  function Ref(views: seq<View>, b: ID): seq<View>
    requires Used(views, b)
  {
    views[b := views[b].(refs := views[b].refs + 1)]
  }

  /** The last reference of a child gives back the one it holds on its root; that of a root restores
      a reusable buffer and empties any other. */
  function Unref(views: seq<View>, b: ID): (r: seq<View>)
    requires Used(views, b) && views[b].refs != 0 && Flat(views)
    requires views[b].Child? ==> views[views[b].parent].refs != 0
    ensures |r| == |views|
    decreases if views[b].Child? then 1 else 0
  {
    var v := views[b].(refs := views[b].refs - 1);
    if v.refs != 0 then views[b := v]
    else if v.Child? then Unref(views[b := v], v.parent)[b := Empty]
    else if v.reUse then views[b := Root(v.writable, v.start, v.size, 0, v.size, 0, true)]
    else views[b := Empty]
  }

  function FirstEmpty(views: seq<View>, from: nat := 0): (r: Option<ID>)
    ensures r.Some? ==> from <= r.value < |views| && views[r.value].Empty?
    decreases |views| - from
  {
    if from >= |views| then None
    else if views[from].Empty? then Some(from)
    else FirstEmpty(views, from + 1)
  }

  /** createChildView: the parent of a view of a view is the root. */
  function ChildViewOf(views: seq<View>, parent: ID, offset: nat, length: nat): Outcome
    requires Flat(views)
  {
    if !Used(views, parent) then Error(views)
    else
      var rootOffset := views[parent].offset + offset;
      var root := if views[parent].Child? then views[parent].parent else parent;
      if rootOffset + length > views[root].size then Error(views)
      else match FirstEmpty(views)
        case None => Error(views)
        case Some(id) =>
          var child := Child(root, views[root].start + rootOffset, length, rootOffset, length, 1);
          Ok(Ref(views[id := child], root), id)
  }

  /** The bytes an entry could be written through. */
  function WritableSize(v: View): nat
  {
    match v
    case Empty => 0
    case Root(writable, _, size, _, _, _, _) => if writable then size else 0
    case Child(_, _, size, _, _, _) => size
  }

  function FindIdle(views: seq<View>, minimum: nat, from: nat := 0): (r: Option<ID>)
    ensures r.Some? ==> from <= r.value < |views| && Used(views, r.value) && views[r.value].refs == 0
    ensures r.Some? ==> WritableSize(views[r.value]) >= minimum
    decreases |views| - from
  {
    if from >= |views| then None
    else if !views[from].Empty? && views[from].refs == 0 && WritableSize(views[from]) >= minimum then Some(from)
    else FindIdle(views, minimum, from + 1)
  }

  /** requestNewBuffer: the first entry without references that is big enough. An entry that
      turns out not to be writable keeps the reference it got. */
  function NewBufferOf(views: seq<View>, minimum: nat): Outcome
  {
    match FindIdle(views, minimum)
    case None => Error(views)
    case Some(b) =>
      var taken := views[b := views[b].(refs := 1, offset := 0, length := WritableSize(views[b]))];
      if views[b].Root? && !views[b].writable then Error(taken) else Ok(taken, b)
  }

  /** setNewBufferSize; a child can only shrink. */
  function SetNewBufferSize(views: seq<View>, b: ID, size: nat): seq<View>
  {
    if !Used(views, b) then views
    else match views[b]
      case Root(writable, start, whole, offset, _, refs, reUse) =>
        if size <= (if writable then whole else 0) - offset
        then views[b := Root(writable, start, whole, offset, size, refs, reUse)] else views
      case Child(parent, start, _, offset, length, refs) =>
        if size <= length then views[b := Child(parent, start, size, offset, size, refs)] else views
  }

  // ------------------------------------------------------------------ The invariant

  function Children(views: seq<View>, p: ID): nat
  {
    if views == [] then 0
    else
      (if views[|views| - 1].Child? && views[|views| - 1].parent == p then 1 else 0)
      + Children(views[..|views| - 1], p)
  }

  /** A child shows a part of its root's bytes. */
  predicate ChildOk(views: seq<View>, b: ID)
    requires b < |views| && views[b].Child?
  {
    var v := views[b];
    && v.parent < |views| && views[v.parent].Root?
    && v.offset + v.length <= views[v.parent].size
    && v.start == views[v.parent].start + v.offset && v.size == v.length
    && v.refs > 0
  }

  /** `held[b]` is the number of references that the clients of the pool hold on entry b. */
  ghost predicate Inv(views: seq<View>, held: seq<nat>)
  {
    && |held| == |views|
    && (forall b :: 0 <= b < |views| && views[b].Child? ==> ChildOk(views, b))
    && (forall b {:trigger views[b]} :: 0 <= b < |views| ==>
          (if views[b].Empty? then 0 else views[b].refs) == held[b] + Children(views, b))
  }

  lemma {:induction false} ChildrenUpdate(views: seq<View>, b: ID, v: View, p: ID)
    requires b < |views|
    ensures Children(views[b := v], p) + (if views[b].Child? && views[b].parent == p then 1 else 0)
         == Children(views, p) + (if v.Child? && v.parent == p then 1 else 0)
  {
    var n := |views| - 1;
    if b == n {
      assert views[b := v][..n] == views[..n];
    } else {
      ChildrenUpdate(views[..n], b, v, p);
      assert views[b := v][..n] == views[..n][b := v];
    }
  }

  lemma {:induction false} HasChild(views: seq<View>, b: ID)
    requires b < |views| && views[b].Child?
    ensures Children(views, views[b].parent) > 0
  {
    if b < |views| - 1 {
      HasChild(views[..|views| - 1], b);
    }
  }

  lemma {:induction false} NoChildren(views: seq<View>, p: ID)
    requires forall b :: 0 <= b < |views| && views[b].Child? ==> views[b].parent != p
    ensures Children(views, p) == 0
  {
    if views != [] {
      NoChildren(views[..|views| - 1], p);
    }
  }

  /** Only roots have children. */
  lemma Childless(views: seq<View>, held: seq<nat>, b: ID)
    requires Inv(views, held) && b < |views| && !views[b].Root?
    ensures Children(views, b) == 0
  {
    NoChildren(views, b);
  }

  // ------------------------------------------------------------------ Every operation keeps it

  lemma RefKeeps(views: seq<View>, held: seq<nat>, b: ID)
    requires Inv(views, held) && Used(views, b)
    ensures Inv(Ref(views, b), held[b := held[b] + 1])
  {
    forall p: ID ensures Children(Ref(views, b), p) == Children(views, p) {
      ChildrenUpdate(views, b, Ref(views, b)[b], p);
    }
  }

  lemma UnrefRootKeeps(views: seq<View>, held: seq<nat>, b: ID)
    requires Inv(views, held) && Used(views, b) && views[b].Root? && held[b] > 0
    ensures Inv(Unref(views, b), held[b := held[b] - 1])
  {
    var r := Unref(views, b);
    forall p: ID ensures Children(r, p) == Children(views, p) {
      ChildrenUpdate(views, b, r[b], p);
    }
    forall c | 0 <= c < |r| && r[c].Child? ensures ChildOk(r, c) {
      assert ChildOk(views, c);
      if views[c].parent == b { HasChild(views, c); }
    }
  }

  /** A child that is still shared loses one reference; the last one gives its entry back, and the
      reference it holds on its root. */
  lemma UnrefChildKeeps(views: seq<View>, held: seq<nat>, b: ID)
    requires Inv(views, held) && Used(views, b) && views[b].Child? && held[b] > 0
    ensures views[views[b].parent].refs > 0 && Inv(Unref(views, b), held[b := held[b] - 1])
  {
    HasChild(views, b);
    Childless(views, held, b);
    if views[b].refs == 1 {
      LastUnrefKeeps(views, held, b);
    } else {
      var r := Unref(views, b);
      forall p: ID ensures Children(r, p) == Children(views, p) {
        ChildrenUpdate(views, b, r[b], p);
      }
    }
  }

  /** The entry of a child becomes empty, and its reference on the root becomes one of the caller's. */
  lemma EmptiesChild(views: seq<View>, held: seq<nat>, b: ID)
    requires Inv(views, held) && Used(views, b) && views[b].Child? && held[b] == 1 && views[b].refs == 1
    ensures var p := views[b].parent;
            p != b && Inv(views[b := Empty], held[b := 0][p := held[p] + 1])
  {
    var p := views[b].parent;
    var r := views[b := Empty];
    Childless(views, held, b);
    assert ChildOk(views, b);
    forall q: ID ensures Children(r, q) + (if q == p then 1 else 0) == Children(views, q) {
      ChildrenUpdate(views, b, Empty, q);
    }
    forall c | 0 <= c < |r| && r[c].Child? ensures ChildOk(r, c) {
      assert ChildOk(views, c);
    }
  }

  lemma LastUnrefKeeps(views: seq<View>, held: seq<nat>, b: ID)
    requires Inv(views, held) && Used(views, b) && views[b].Child? && held[b] > 0 && views[b].refs == 1
    ensures views[views[b].parent].refs > 0 && Inv(Unref(views, b), held[b := held[b] - 1])
  {
    HasChild(views, b);
    EmptiesChild(views, held, b);
    var p := views[b].parent;
    var h := held[b := 0][p := held[p] + 1];
    UnrefRootKeeps(views[b := Empty], h, p);
    assert h[p := h[p] - 1] == held[b := held[b] - 1];
    UnrefSwaps(views, b, p);
  }

  /** Giving back the root's reference and emptying the child's entry can be done in either order. */
  lemma UnrefSwaps(views: seq<View>, b: ID, p: ID)
    requires Flat(views) && Used(views, b) && views[b].Child? && views[b].parent == p && views[b].refs == 1
    requires views[p].refs != 0
    ensures Unref(views, b) == Unref(views[b := Empty], p)
  {
    var v := views[b];
    v := Child(v.parent, v.start, v.size, v.offset, v.length, 0);
    var u := Unref(views[b := v], p)[p];
    assert Unref(views[b := v], p) == views[b := v][p := u];
    assert Unref(views[b := Empty], p) == views[b := Empty][p := u];
  }

  lemma CreateKeeps(views: seq<View>, held: seq<nat>, parent: ID, offset: nat, length: nat)
    requires Inv(views, held)
    ensures var r := ChildViewOf(views, parent, offset, length);
            Inv(r.views, if r.Ok? && r.id < |held| then held[r.id := 1] else held)
  {
    var r := ChildViewOf(views, parent, offset, length);
    if r.Ok? {
      var root := if views[parent].Child? then views[parent].parent else parent;
      assert views[parent].Child? ==> ChildOk(views, parent);
      Childless(views, held, r.id);
      forall p: ID ensures Children(r.views, p) == Children(views, p) + (if p == root then 1 else 0) {
        ChildrenUpdate(views, r.id, r.views[r.id], p);
        ChildrenUpdate(views[r.id := r.views[r.id]], root, r.views[root], p);
      }
      forall c | 0 <= c < |r.views| && r.views[c].Child? ensures ChildOk(r.views, c) {
        if c != r.id { assert ChildOk(views, c); }
      }
    }
  }

  /** The entry that requestNewBuffer takes is a root that nobody holds and nobody has a view of. */
  lemma RequestTakes(views: seq<View>, held: seq<nat>, minimum: nat)
    requires Inv(views, held)
    ensures var found := FindIdle(views, minimum);
            var r := NewBufferOf(views, minimum);
            if found.None? then r == Error(views)
            else var b := found.value;
              && views[b].Root? && held[b] == 0 && Children(views, b) == 0
              && Inv(r.views, held[b := 1]) && r == (if views[b].writable then Ok(r.views, b) else Error(r.views))
  {
    var found := FindIdle(views, minimum);
    if found.Some? {
      var b := found.value;
      assert views[b].Root?;
      var r := NewBufferOf(views, minimum).views;
      forall p: ID ensures Children(r, p) == Children(views, p) {
        ChildrenUpdate(views, b, r[b], p);
      }
      forall c | 0 <= c < |r| && r[c].Child? ensures ChildOk(r, c) {
        assert ChildOk(views, c);
      }
    }
  }

  lemma ResizeKeeps(views: seq<View>, held: seq<nat>, b: ID, size: nat)
    requires Inv(views, held)
    ensures Inv(SetNewBufferSize(views, b, size), held)
  {
    var r := SetNewBufferSize(views, b, size);
    if r != views {
      forall p: ID ensures Children(r, p) == Children(views, p) {
        ChildrenUpdate(views, b, r[b], p);
      }
      forall c | 0 <= c < |r| && r[c].Child? ensures ChildOk(r, c) {
        assert ChildOk(views, c);
      }
    }
  }

  // ------------------------------------------------------------------ When an operation succeeds, and what it changes

  /** The root whose memory an entry shows. */
  function OwnerOf(views: seq<View>, b: ID): ID
    requires Used(views, b)
  {
    if views[b].Child? then views[b].parent else b
  }

  /** The address of the first byte that an entry shows. */
  function ShownFrom(views: seq<View>, b: ID): nat
    requires Used(views, b)
  {
    match views[b]
    case Root(_, start, _, offset, _, _, _) => start + offset
    case Child(_, start, _, _, _, _) => start
  }

  /** A root that shows these bytes of its memory and is held so often. */
  function Held(v: View, offset: nat, length: nat, refs: int): View
    requires v.Root?
  {
    Root(v.writable, v.start, v.size, offset, length, refs, v.reUse)
  }

  /** A stretch of memory that neither begins before the root nor ends behind it. */
  predicate WithinRoot(views: seq<View>, root: ID, first: nat, length: nat)
  {
    && root < |views| && views[root].Root?
    && views[root].start <= first && first + length <= views[root].start + views[root].size
  }

  /** Said of its bytes, when it has any. */
  lemma WithinRootBytes(views: seq<View>, root: ID, first: nat, length: nat)
    requires length > 0
    ensures WithinRoot(views, root, first, length) <==>
            forall address: nat {:trigger InRoot(views, root, address)} ::
              first <= address < first + length ==> InRoot(views, root, address)
  {
    if forall address: nat {:trigger InRoot(views, root, address)} ::
         first <= address < first + length ==> InRoot(views, root, address) {
      assert InRoot(views, root, first) && InRoot(views, root, first + length - 1);
    }
  }

  ghost predicate HasEmpty(views: seq<View>)
  {
    exists b :: 0 <= b < |views| && views[b].Empty?
  }

  lemma {:induction false} FindsEmpty(views: seq<View>, from: nat)
    requires from <= |views|
    ensures FirstEmpty(views, from).Some? <==> exists b :: from <= b < |views| && views[b].Empty?
    ensures FirstEmpty(views, from).Some? ==>
              forall b :: from <= b < FirstEmpty(views, from).value ==> !views[b].Empty?
    decreases |views| - from
  {
    if from < |views| && !views[from].Empty? {
      FindsEmpty(views, from + 1);
    }
  }

  /** A view is created if and only if the entry that is asked for a slice is in use, the slice lies within its root, up
      to the last byte of it, and an entry is empty. Otherwise nothing changes; and if it is, the new entry and one
      more reference on the root are all that changes. */
  lemma CreatesExactly(views: seq<View>, held: seq<nat>, parent: ID, offset: nat, length: nat)
    requires Inv(views, held)
    ensures var r := ChildViewOf(views, parent, offset, length);
            && (r.Ok? <==>
                  && Used(views, parent) && HasEmpty(views)
                  && WithinRoot(views, OwnerOf(views, parent), ShownFrom(views, parent) + offset, length))
            && (!r.Ok? ==> r.views == views)
            && (r.Ok? ==>
                  var root := OwnerOf(views, parent);
                  && r.id < |views| == |r.views| && views[r.id].Empty? && root < |views| && root != r.id
                  && r.views[r.id] == Child(root, ShownFrom(views, parent) + offset, length,
                                            ShownFrom(views, parent) + offset - views[root].start, length, 1)
                  && views[root].Root?
                  && r.views[root] == Held(views[root], views[root].offset, views[root].length, views[root].refs + 1)
                  && forall c :: 0 <= c < |views| && c != r.id && c != root ==> r.views[c] == views[c])
  {
    FindsEmpty(views, 0);
    if Used(views, parent) {
      assert views[parent].Child? ==> ChildOk(views, parent);
    }
    hide Children;
  }

  /** Nobody holds the entry, and it is big enough. */
  predicate Fits(v: View, minimum: nat)
  {
    !v.Empty? && v.refs == 0 && WritableSize(v) >= minimum
  }

  lemma {:induction false} FindsIdle(views: seq<View>, minimum: nat, from: nat)
    requires from <= |views|
    ensures var r := FindIdle(views, minimum, from);
            && (r.None? <==> forall b :: from <= b < |views| ==> !Fits(views[b], minimum))
            && (r.Some? ==> Fits(views[r.value], minimum) &&
                            forall b :: from <= b < r.value ==> !Fits(views[b], minimum))
    decreases |views| - from
  {
    if from < |views| && !Fits(views[from], minimum) {
      FindsIdle(views, minimum, from + 1);
    }
  }

  /** The first entry that nobody holds and that is big enough is taken, whole, if it can be written; if it cannot, it
      is held all the same, and the caller gets an error. With no such entry nothing changes. */
  lemma RequestsExactly(views: seq<View>, held: seq<nat>, minimum: nat)
    requires Inv(views, held)
    ensures var r := NewBufferOf(views, minimum);
            if b :| 0 <= b < |views| && Fits(views[b], minimum) && forall c :: 0 <= c < b ==> !Fits(views[c], minimum)
            then
              && views[b].Root? && (r.Ok? <==> views[b].writable) && (r.Ok? ==> r.id == b)
              && |r.views| == |views| && (forall c :: 0 <= c < |views| && c != b ==> r.views[c] == views[c])
              && r.views[b] == Held(views[b], 0, if views[b].writable then views[b].size else 0, 1)
            else r == Error(views)
  {
    FindsIdle(views, minimum, 0);
    RequestTakes(views, held, minimum);
    hide Children;
  }

  /** A reference that is given back: an entry that is still held stays what it is; a child's last one empties it and
      gives back one of its root; a root's last one makes a reusable buffer whole again, and empties any other. */
  lemma UnrefsExactly(views: seq<View>, held: seq<nat>, b: ID)
    requires Inv(views, held) && Used(views, b) && held[b] > 0
    ensures views[b].refs > 0 && Flat(views) && (views[b].Child? ==> views[views[b].parent].refs > 0)
    ensures var r, root := Unref(views, b), OwnerOf(views, b);
            && |r| == |views| && root < |views| && views[root].Root?
            && (forall c :: 0 <= c < |views| && c != b && c != root ==> r[c] == views[c])
            && if views[b].Child? then
                 var v := views[b];
                 if v.refs > 1 then
                   && r[b] == Child(v.parent, v.start, v.size, v.offset, v.length, v.refs - 1)
                   && r[root] == views[root]
                 else r[b] == Empty && r[root] == Dropped(views[root])
               else r[b] == Dropped(views[b])
  {
    if views[b].Child? {
      UnrefChildKeeps(views, held, b);
      assert ChildOk(views, b);
      Childless(views, held, b);
    }
    hide Children;
  }

  function Dropped(v: View): View
    requires v.Root?
  {
    if v.refs != 1 then Held(v, v.offset, v.length, v.refs - 1)
    else if v.reUse then Held(v, 0, v.size, 0)
    else Empty
  }

  predicate SizeFits(v: View, size: nat)
    requires !v.Empty?
  {
    if v.Child? then size <= v.length else v.offset + size <= WritableSize(v)
  }

  /** An entry that is given a new size shows that many bytes, from where it did, if they lie within what it may be
      written through, or, for a child, within what it shows; otherwise it stays as it is. Nothing else changes. */
  lemma ResizesExactly(views: seq<View>, held: seq<nat>, b: ID, size: nat)
    requires Inv(views, held) && Used(views, b)
    ensures var r := SetNewBufferSize(views, b, size);
            && |r| == |views| && (forall c :: 0 <= c < |views| && c != b ==> r[c] == views[c])
            && Used(r, b) && r[b].refs == views[b].refs && ShownFrom(r, b) == ShownFrom(views, b)
            && (if SizeFits(views[b], size)
                then r[b].length == size && (views[b].Child? ==> r[b].size == size)
                else r[b] == views[b])
  {
  }

  // ------------------------------------------------------------------ What a view shows

  /** The addresses a reader of entry b sees. */
  predicate Visible(views: seq<View>, b: ID, address: nat)
  {
    Used(views, b) && match views[b]
      case Root(_, start, size, offset, length, _, _) => offset + length <= size &&
          start + offset <= address < start + offset + length
      case Child(_, start, size, _, _, _) => start <= address < start + size
  }

  /** A new view shows exactly the composed slice of the root's memory. */
  lemma ViewComposes(views: seq<View>, held: seq<nat>, parent: ID, offset: nat, length: nat, address: nat)
    requires Inv(views, held) && ChildViewOf(views, parent, offset, length).Ok?
    ensures var r := ChildViewOf(views, parent, offset, length);
            var root := if views[parent].Child? then views[parent].parent else parent;
            && r.views[r.id].Child? && r.views[r.id].parent == root && views[root].Root?
            && (Visible(r.views, r.id, address) <==>
                  views[root].start + views[parent].offset + offset <= address
                    < views[root].start + views[parent].offset + offset + length)
            && (Visible(r.views, r.id, address) ==> views[root].start <= address < views[root].start + views[root].size)
  {
    assert views[parent].Child? ==> ChildOk(views, parent);
  }

  /** A view of a view stays within it exactly when the slice asked for does: the bound that is
      checked is that of the root. */
  lemma NestedWithin(views: seq<View>, held: seq<nat>, parent: ID, offset: nat, length: nat)
    requires Inv(views, held) && Used(views, parent) && views[parent].Child? && length > 0
    requires ChildViewOf(views, parent, offset, length).Ok?
    ensures var r := ChildViewOf(views, parent, offset, length);
            (forall address: nat :: Visible(r.views, r.id, address) ==> Visible(views, parent, address))
            <==> offset + length <= views[parent].length
  {
    assert ChildOk(views, parent);
    var r := ChildViewOf(views, parent, offset, length);
    var last := r.views[r.id].start + length - 1;
    ViewComposes(views, held, parent, offset, length, last);
    assert Visible(r.views, r.id, last);
  }

  /** Two roots share no byte. */
  ghost predicate Disjoint(views: seq<View>)
  {
    forall b, c, address: nat {:trigger InRoot(views, b, address), InRoot(views, c, address)} ::
      InRoot(views, b, address) && InRoot(views, c, address) ==> b == c
  }

  predicate InRoot(views: seq<View>, b: ID, address: nat)
  {
    b < |views| && views[b].Root? && views[b].start <= address < views[b].start + views[b].size
  }

  /** requestNewBuffer never returns memory that a live child shows. */
  lemma RequestIsPrivate(views: seq<View>, held: seq<nat>, minimum: nat, child: ID, address: nat)
    requires Inv(views, held) && Disjoint(views) && NewBufferOf(views, minimum).Ok?
    requires child < |views| && views[child].Child? && Visible(views, child, address)
    ensures var r := NewBufferOf(views, minimum);
            !Visible(r.views, r.id, address) && held[r.id] == 0
  {
    RequestTakes(views, held, minimum);
    var r := NewBufferOf(views, minimum);
    assert ChildOk(views, child);
    assert InRoot(views, views[child].parent, address);
    if Visible(r.views, r.id, address) {
      assert InRoot(views, r.id, address);
      HasChild(views, child);
      assert false;
    }
  }

  /** Once the clients hold nothing, no child is left and no root is referenced: every reference that
      the views held has been given back. */
  lemma NothingLeaks(views: seq<View>, held: seq<nat>, b: ID)
    requires Inv(views, held) && (forall c :: 0 <= c < |held| ==> held[c] == 0) && b < |views|
    ensures !views[b].Child? && (views[b].Root? ==> views[b].refs == 0)
  {
    forall c | 0 <= c < |views| ensures !views[c].Child? {
      NoChildLeft(views, held, c);
    }
    NoChildren(views, b);
  }

  lemma NoChildLeft(views: seq<View>, held: seq<nat>, b: ID)
    requires Inv(views, held) && (forall c :: 0 <= c < |held| ==> held[c] == 0) && b < |views|
    ensures !views[b].Child?
  {
    if views[b].Child? {
      Childless(views, held, b);
      assert false;
    }
  }

  // ------------------------------------------------------------------ The pool, in place

  /** AsyncBuffersPool with every kind of entry but growable ones. */
  class ViewsPool {
    var views: seq<View>
    ghost var held: seq<nat>

    ghost predicate Valid()
      reads this
    {
      Inv(views, held)
    }

    /** Roots that nobody uses yet. */
    constructor (roots: seq<View>)
      requires forall b :: 0 <= b < |roots| ==> roots[b].Empty? || (roots[b].Root? && roots[b].refs == 0)
      ensures Valid() && views == roots && held == seq(|roots|, _ => 0)
    {
      views, held := roots, seq(|roots|, _ => 0);
      new;
      forall b | 0 <= b < |roots| ensures Children(roots, b) == 0 { NoChildren(roots, b); }
    }

    method RefBuffer(b: ID)
      requires Valid() && Used(views, b)
      modifies this
      ensures Valid() && views == Ref(old(views), b) && held == old(held)[b := old(held)[b] + 1]
    {
      RefKeeps(views, held, b);
      AddRef(b);
      held := held[b := held[b] + 1];
    }

    method AddRef(b: ID)
      requires Used(views, b)
      modifies this`views
      ensures views == Ref(old(views), b)
    {
      views := views[b := views[b].(refs := views[b].refs + 1)];
    }

    /** The caller holds the reference it gives back. */
    method UnrefBuffer(b: ID)
      requires Valid() && Used(views, b) && held[b] > 0
      modifies this
      ensures Valid() && held == old(held)[b := old(held)[b] - 1]
      ensures old(views[b].Child? ==> views[views[b].parent].refs > 0) && views == Unref(old(views), b)
    {
      if views[b].Child? { UnrefChildKeeps(views, held, b); } else { UnrefRootKeeps(views, held, b); }
      Drop(b);
      held := held[b := held[b] - 1];
    }

    method Drop(b: ID)
      requires Used(views, b) && views[b].refs != 0 && Flat(views)
      requires views[b].Child? ==> views[views[b].parent].refs != 0
      modifies this`views
      ensures views == Unref(old(views), b)
      decreases if views[b].Child? then 1 else 0
    {
      views := views[b := views[b].(refs := views[b].refs - 1)];
      if views[b].refs == 0 {
        if views[b].Child? {
          Drop(views[b].parent);
          views := views[b := Empty];
        } else if views[b].reUse {
          views := views[b := Root(views[b].writable, views[b].start, views[b].size, 0, views[b].size, 0, true)];
        } else {
          views := views[b := Empty];
        }
      }
    }

    method CreateChildView(parent: ID, offset: nat, length: nat) returns (child: Option<ID>)
      requires Valid()
      modifies this
      ensures Valid()
      ensures var r := ChildViewOf(old(views), parent, offset, length);
              && views == r.views && child == (if r.Ok? then Some(r.id) else None)
              && held == if r.Ok? && r.id < |old(held)| then old(held)[r.id := 1] else old(held)
    {
      CreateKeeps(views, held, parent, offset, length);
      RootsOfViews();
      hide Inv, FirstEmpty;
      if parent >= |views| || views[parent].Empty? {
        return None;
      }
      var rootOffset := views[parent].offset + offset;
      var root := RootOf(parent);
      if rootOffset + length > views[root].size {
        return None;
      }
      child := FindEmpty();
      if child.Some? {
        Install(child.value, root, rootOffset, length);
      }
    }

    /** The entry becomes a child, which holds a reference on its root. */
    method Install(id: ID, root: ID, rootOffset: nat, length: nat)
      requires id < |views| && root != id && Used(views, root) && id < |held|
      modifies this
      ensures views == Ref(old(views)[id := Child(root, old(views)[root].start + rootOffset, length,
                                                  rootOffset, length, 1)], root)
      ensures held == old(held)[id := 1]
    {
      views := views[id := Child(root, views[root].start + rootOffset, length, rootOffset, length, 1)];
      AddRef(root);
      held := held[id := 1];
    }

    lemma RootsOfViews()
      requires Valid()
      ensures Flat(views) && |held| == |views|
      ensures forall b :: 0 <= b < |views| && views[b].Child? ==> views[b].parent != b
    {
    }

    method RootOf(b: ID) returns (root: ID)
      requires Valid() && Used(views, b)
      ensures root == if views[b].Child? then views[b].parent else b
    {
      root := b;
      while views[root].Child?
        invariant root < |views| && !views[root].Empty?
        invariant root == b || (views[b].Child? && root == views[b].parent)
        decreases if views[root].Child? && root == b then 1 else 0
      {
        assert ChildOk(views, root);
        root := views[root].parent;
      }
    }

    method FindEmpty() returns (id: Option<ID>)
      ensures id == FirstEmpty(views)
    {
      var i := 0;
      while i < |views|
        invariant 0 <= i <= |views| && FirstEmpty(views) == FirstEmpty(views, i)
      {
        if views[i].Empty? {
          return Some(i);
        }
        i := i + 1;
      }
      return None;
    }

    method RequestNewBuffer(minimum: nat) returns (id: Option<ID>)
      requires Valid()
      modifies this
      ensures Valid()
      ensures var r := NewBufferOf(old(views), minimum);
              views == r.views && id == (if r.Ok? then Some(r.id) else None)
      ensures var found := FindIdle(old(views), minimum);
              held == if found.Some? && found.value < |old(held)| then old(held)[found.value := 1] else old(held)
    {
      RequestTakes(views, held, minimum);
      var b := 0;
      while b < |views|
        invariant 0 <= b <= |views| && FindIdle(views, minimum) == FindIdle(views, minimum, b)
      {
        if !views[b].Empty? && views[b].refs == 0 && WritableSize(views[b]) >= minimum {
          var v := views[b];
          views := views[b := Root(v.writable, v.start, v.size, 0, WritableSize(v), 1, v.reUse)];
          held := held[b := 1];
          return if v.writable then Some(b) else None;
        }
        b := b + 1;
      }
      return None;
    }
  }
}
