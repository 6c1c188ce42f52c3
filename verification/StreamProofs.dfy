/** Lemmas about single operations: references and logs. */
module StreamProofs {

  import opened Wrappers
  import opened StreamModel
  import opened StreamInvariant

  // ------------------------------------------------------------------ Counting

  lemma {:induction false} CountAppend(ids: seq<ID>, ids': seq<ID>, b: ID)
    ensures Count(ids + ids', b) == Count(ids, b) + Count(ids', b)
  {
    if ids == [] {
      assert ids + ids' == ids';
    } else {
      assert (ids + ids')[1..] == ids[1..] + ids';
      CountAppend(ids[1..], ids', b);
    }
  }

  lemma {:induction false} CountIn(ids: seq<ID>, b: ID)
    ensures b in ids <==> Count(ids, b) > 0
  {
    if ids != [] {
      CountIn(ids[1..], b);
    }
  }

  lemma {:induction false} SinkUpdate(sinks: seq<Sink>, i: nat, k: Sink, b: ID)
    requires i < |sinks|
    ensures SinkHeld(sinks[i := k], b) + 2 * Count(SinkIds(sinks[i]), b) ==
            SinkHeld(sinks, b) + 2 * Count(SinkIds(k), b)
  {
    if i == 0 {
      assert sinks[0 := k][1..] == sinks[1..];
    } else {
      SinkUpdate(sinks[1..], i - 1, k, b);
      assert sinks[i := k][1..] == sinks[1..][i - 1 := k];
    }
  }

  lemma {:induction false} SinkHolds(sinks: seq<Sink>, i: nat, b: ID)
    requires i < |sinks|
    ensures SinkHeld(sinks, b) >= 2 * Count(SinkIds(sinks[i]), b)
  {
    if i > 0 {
      SinkHolds(sinks[1..], i - 1, b);
    }
  }

  function SlotCount(slot: Option<PendingWrite>, b: ID): nat
  {
    if slot.Some? && slot.value.buffer == b then 1 else 0
  }

  lemma {:induction false} SlotUpdate(slots: seq<Option<PendingWrite>>, j: nat, slot: Option<PendingWrite>, b: ID)
    requires j < |slots|
    ensures SlotHeld(slots[j := slot], b) + SlotCount(slots[j], b) == SlotHeld(slots, b) + SlotCount(slot, b)
  {
    if j == 0 {
      assert slots[0 := slot][1..] == slots[1..];
    } else {
      SlotUpdate(slots[1..], j - 1, slot, b);
      assert slots[j := slot][1..] == slots[1..][j - 1 := slot];
    }
  }

  lemma {:induction false} NoPending(slots: seq<Option<PendingWrite>>, i: nat)
    requires forall j :: 0 <= j < |slots| && slots[j].Some? ==> slots[j].value.sink != i
    ensures PendingOf(slots, i) == []
  {
    if slots != [] {
      assert slots[0].Some? ==> slots[0].value.sink != i;
      forall j | 0 <= j < |slots[1..]| && slots[1..][j].Some?
        ensures slots[1..][j].value.sink != i
      {
        assert slots[1..][j] == slots[j + 1];
      }
      NoPending(slots[1..], i);
    }
  }

  lemma {:induction false} OnePending(slots: seq<Option<PendingWrite>>, j: nat)
    requires j < |slots| && slots[j].Some?
    requires forall l :: 0 <= l < |slots| && l != j && slots[l].Some? ==> slots[l].value.sink != slots[j].value.sink
    ensures PendingOf(slots, slots[j].value.sink) == [slots[j].value.buffer]
  {
    var rest := slots[1..];
    assert forall l :: 0 <= l < |rest| ==> rest[l] == slots[l + 1];
    if j == 0 {
      NoPending(rest, slots[0].value.sink);
    } else {
      OnePending(rest, j - 1);
    }
  }

  lemma {:induction false} OtherPending(slots: seq<Option<PendingWrite>>, j: nat, slot: Option<PendingWrite>, i: nat)
    requires j < |slots|
    requires slots[j].Some? ==> slots[j].value.sink != i
    requires slot.Some? ==> slot.value.sink != i
    ensures PendingOf(slots[j := slot], i) == PendingOf(slots, i)
  {
    if j == 0 {
      assert slots[0 := slot][1..] == slots[1..];
    } else {
      OtherPending(slots[1..], j - 1, slot, i);
      assert slots[j := slot][1..] == slots[1..][j - 1 := slot];
    }
  }

  lemma {:induction false} ContentsSame(buffers: seq<Buffer>, buffers': seq<Buffer>, ids: seq<ID>)
    requires forall b :: b in ids ==> Content(buffers, b) == Content(buffers', b)
    ensures Contents(buffers, ids) == Contents(buffers', ids)
  {
    if ids != [] {
      ContentsSame(buffers, buffers', ids[1..]);
    }
  }

  lemma {:induction false} ContentsAppend(buffers: seq<Buffer>, ids: seq<ID>, ids': seq<ID>)
    ensures Contents(buffers, ids + ids') == Contents(buffers, ids) + Contents(buffers, ids')
  {
    if ids == [] {
      assert ids + ids' == ids';
    } else {
      assert (ids + ids')[1..] == ids[1..] + ids';
      ContentsAppend(buffers, ids[1..], ids');
    }
  }

  lemma {:induction false} PendingHeld(slots: seq<Option<PendingWrite>>, i: nat, b: ID)
    requires b in PendingOf(slots, i)
    ensures SlotHeld(slots, b) > 0
  {
    if slots[0].None? || slots[0].value.sink != i || slots[0].value.buffer != b {
      PendingHeld(slots[1..], i, b);
    }
  }

  /** What a sink has received is held, so its bytes are the same in any pool that keeps held buffers. */
  lemma LogHeld(s: Sys, i: nat, b: ID)
    requires i < |s.sinks| && b in SinkIds(s.sinks[i]) + PendingOf(s.slots, i)
    ensures Stored(s, b) > 0
  {
    if b in SinkIds(s.sinks[i]) {
      CountIn(SinkIds(s.sinks[i]), b);
      SinkHolds(s.sinks, i, b);
    } else {
      PendingHeld(s.slots, i, b);
    }
  }

  ghost predicate KeepsHeld(s: Sys, s': Sys)
  {
    forall b: ID :: Stored(s', b) > 0 ==> Content(s.buffers, b) == Content(s'.buffers, b)
  }

  lemma LogSame(s: Sys, s': Sys, i: nat)
    requires i < |s.sinks| && i < |s'.sinks| && s.written == s'.written
    requires SinkIds(s.sinks[i]) + PendingOf(s.slots, i) == SinkIds(s'.sinks[i]) + PendingOf(s'.slots, i)
    requires KeepsHeld(s, s')
    ensures Log(s, i) == Log(s', i)
  {
    var ids := SinkIds(s'.sinks[i]) + PendingOf(s'.slots, i);
    forall b | b in ids ensures Content(s.buffers, b) == Content(s'.buffers, b) {
      LogHeld(s', i, b);
    }
    ContentsSame(s.buffers, s'.buffers, ids);
  }

  lemma LogAppend(s: Sys, s': Sys, i: nat, b: ID)
    requires i < |s.sinks| && i < |s'.sinks| && s.written == s'.written
    requires SinkIds(s.sinks[i]) + PendingOf(s.slots, i) + [b] == SinkIds(s'.sinks[i]) + PendingOf(s'.slots, i)
    requires KeepsHeld(s, s')
    ensures Log(s', i) == Log(s, i) + [Content(s.buffers, b)]
  {
    var ids := SinkIds(s'.sinks[i]) + PendingOf(s'.slots, i);
    forall x | x in ids ensures Content(s.buffers, x) == Content(s'.buffers, x) {
      LogHeld(s', i, x);
    }
    ContentsSame(s.buffers, s'.buffers, ids);
    ContentsAppend(s.buffers, SinkIds(s.sinks[i]) + PendingOf(s.slots, i), [b]);
  }

  // ------------------------------------------------------------------ A sink takes a buffer

  function Accept(k: Sink, b: ID): Sink
  {
    if k.state == WriteState.Stopped then k.(state := Writing, writing := Some(b)) else k.(queue := k.queue + [b])
  }

  function AddRef(buffers: seq<Buffer>, b: ID): seq<Buffer>
    requires b < |buffers|
  {
    buffers[b := buffers[b].(refs := buffers[b].refs + 1)]
  }

  lemma Overwrite<T>(q: seq<T>, i: nat, x: T, y: T)
    requires i < |q|
    ensures q[i := x][i := y] == q[i := y]
  {
  }

  lemma WriteForm(s: Sys, i: nat, b: ID)
    requires i < |s.sinks| && SinkOk(s.sinks[i]) && CanAcceptWrite(s.sinks[i])
    requires b < |s.buffers| && s.buffers[b].refs > 0
    ensures Write(s, i, b) == (s.(buffers := AddRef(s.buffers, b), sinks := s.sinks[i := Accept(s.sinks[i], b)]), true)
  {
    var k := s.sinks[i];
    if k.state == WriteState.Stopped {
      assert k.queue + [b] == [b] && [b][1..] == [];
      var one := AddRef(s.buffers, b);
      Overwrite(s.buffers, b, one[b], AddRef(one, b)[b]);
      Overwrite(s.buffers, b, AddRef(one, b)[b], one[b]);
    }
  }

  lemma AcceptIds(k: Sink, b: ID)
    requires SinkOk(k) && CanAcceptWrite(k)
    ensures SinkOk(Accept(k, b)) && SinkIds(Accept(k, b)) == SinkIds(k) + [b]
  {
    if k.state != WriteState.Stopped {
      assert Opt(k.writing) + (k.queue + [b]) == Opt(k.writing) + k.queue + [b];
    }
  }

  lemma AcceptRefs(s: Sys, s': Sys, i: nat, b: ID, extra: multiset<ID>)
    requires i < |s.sinks| && RefsExact(s, extra + multiset{b}) && b < |s.buffers|
    requires SinkOk(s.sinks[i]) && CanAcceptWrite(s.sinks[i])
    requires s' == s.(buffers := AddRef(s.buffers, b), sinks := s.sinks[i := Accept(s.sinks[i], b)])
    ensures RefsExact(s', extra)
  {
    AcceptIds(s.sinks[i], b);
    forall x: ID
      ensures Held(s', x) == Held(s, x) + (if x == b then 2 else 0)
    {
      SinkUpdate(s.sinks, i, Accept(s.sinks[i], b), x);
      CountAppend(SinkIds(s.sinks[i]), [b], x);
    }
  }

  lemma AcceptShape(s: Sys, s': Sys, i: nat, b: ID, extra: multiset<ID>)
    requires i < |s.sinks| && Shape(s, extra + multiset{b}) && CanAcceptWrite(s.sinks[i]) && SlotFree(s, i)
    requires b < |s.buffers|
    requires s' == s.(buffers := AddRef(s.buffers, b), sinks := s.sinks[i := Accept(s.sinks[i], b)])
    ensures Shape(s', extra)
  {
    AcceptRefs(s, s', i, b, extra);
    AcceptIds(s.sinks[i], b);
    if s.source.request != Free {
      var r := s.source.bufferID.value;
      assert Held(s, r) >= 1;
    }
  }

  lemma AcceptLogs(s: Sys, s': Sys, i: nat, b: ID)
    requires i < |s.sinks| && SinkOk(s.sinks[i]) && CanAcceptWrite(s.sinks[i]) && SlotFree(s, i)
    requires b < |s.buffers|
    requires s' == s.(buffers := AddRef(s.buffers, b), sinks := s.sinks[i := Accept(s.sinks[i], b)])
    ensures forall x: ID :: Content(s'.buffers, x) == Content(s.buffers, x)
    ensures Log(s', i) == Log(s, i) + [Content(s.buffers, b)]
    ensures forall l :: 0 <= l < |s.sinks| && l != i ==> Log(s', l) == Log(s, l)
  {
    AcceptIds(s.sinks[i], b);
    assert forall x: ID :: Content(s'.buffers, x) == Content(s.buffers, x);
    NoPending(s.slots, i);
    LogAppend(s, s', i, b);
    forall l | 0 <= l < |s.sinks| && l != i ensures Log(s', l) == Log(s, l) {
      LogSame(s, s', l);
    }
  }

  /** A write the sink accepts turns the caller's reference into one held by the sink, and is the
      last thing the sink will write. */
  lemma WriteKeeps(s: Sys, i: nat, b: ID, extra: multiset<ID>)
    requires i < |s.sinks| && Shape(s, extra + multiset{b}) && CanAcceptWrite(s.sinks[i]) && SlotFree(s, i)
    ensures b < |s.buffers|
    ensures Write(s, i, b) == (s.(buffers := AddRef(s.buffers, b), sinks := s.sinks[i := Accept(s.sinks[i], b)]), true)
    ensures var s' := Write(s, i, b).0;
            && Shape(s', extra) && (forall x: ID :: Content(s'.buffers, x) == Content(s.buffers, x))
            && Log(s', i) == Log(s, i) + [Content(s.buffers, b)]
            && forall l :: 0 <= l < |s.sinks| && l != i ==> Log(s', l) == Log(s, l)
  {
    hide Write, Log, Content;
    assert Held(s, b) >= 0;
    WriteForm(s, i, b);
    var s' := Write(s, i, b).0;
    AcceptShape(s, s', i, b, extra);
    AcceptLogs(s, s', i, b);
  }

  // ------------------------------------------------------------------ A pending slot

  lemma {:induction false} FindsEmpty(slots: seq<Option<PendingWrite>>, i: nat, from: nat, empty: Option<nat>, l: nat)
    requires from <= |slots|
    requires forall j :: from <= j < |slots| && slots[j].Some? ==> slots[j].value.sink != i
    requires empty.None? && l < |slots| && slots[l].None? && from <= l
    ensures var r := FindSlot(slots, i, from, empty);
            r.Some? && from <= r.value <= l && slots[r.value].None?
    decreases |slots| - from
  {
    if slots[from].None? {
      FindsFirst(slots, i, from + 1, from);
    } else {
      FindsEmpty(slots, i, from + 1, empty, l);
    }
  }

  lemma {:induction false} FindsFirst(slots: seq<Option<PendingWrite>>, i: nat, from: nat, first: nat)
    requires from <= |slots|
    requires forall j :: from <= j < |slots| && slots[j].Some? ==> slots[j].value.sink != i
    ensures FindSlot(slots, i, from, Some(first)) == Some(first)
    decreases |slots| - from
  {
    if from < |slots| {
      FindsFirst(slots, i, from + 1, first);
    }
  }

  /** Putting a buffer in a free slot turns a reference into the slot's, and the buffer into the last
      thing its sink has received. */
  lemma SlotKeeps(s: Sys, s': Sys, j: nat, i: nat, b: ID, extra: multiset<ID>)
    requires i < |s.sinks| && Shape(s, extra + multiset{b}) && SlotFree(s, i)
    requires Open(s.sinks[i]) && !CanAcceptWrite(s.sinks[i])
    requires j < |s.slots| && s.slots[j].None?
    requires s' == s.(slots := s.slots[j := Some(PendingWrite(i, b))])
    ensures Shape(s', extra)
    ensures Log(s', i) == Log(s, i) + [Content(s.buffers, b)]
    ensures forall l :: 0 <= l < |s.sinks| && l != i ==> Log(s', l) == Log(s, l)
  {
    forall x: ID ensures Held(s', x) == Held(s, x) + (if x == b then 1 else 0) {
      SlotUpdate(s.slots, j, s'.slots[j], x);
    }
    SlotLogs(s, s', j, i, b);
  }

  lemma SlotLogs(s: Sys, s': Sys, j: nat, i: nat, b: ID)
    requires i < |s.sinks| && SlotFree(s, i)
    requires j < |s.slots| && s.slots[j].None?
    requires s' == s.(slots := s.slots[j := Some(PendingWrite(i, b))])
    ensures Log(s', i) == Log(s, i) + [Content(s.buffers, b)]
    ensures forall l :: 0 <= l < |s.sinks| && l != i ==> Log(s', l) == Log(s, l)
  {
    NoPending(s.slots, i);
    assert forall l :: 0 <= l < |s.slots| && l != j ==> s'.slots[l] == s.slots[l];
    OnePending(s'.slots, j);
    LogAppend(s, s', i, b);
    forall l | 0 <= l < |s.sinks| && l != i ensures Log(s', l) == Log(s, l) {
      OtherPending(s.slots, j, s'.slots[j], l);
      LogSame(s, s', l);
    }
  }

  /** Every pending write but the one in slot j still waits for room. */
  predicate BlockedBut(s: Sys, j: nat)
    requires SlotsDistinct(s)
  {
    forall l :: 0 <= l < |s.slots| && l != j && s.slots[l].Some? ==>
      var k := s.sinks[s.slots[l].value.sink];
      Open(k) && !CanAcceptWrite(k)
  }

  /** Emptying a slot gives its reference and its buffer back to the operation under way. */
  lemma SlotCleared(s: Sys, s0: Sys, j: nat, extra: multiset<ID>)
    requires Sound(s, extra) && j < |s.slots| && s.slots[j].Some? && BlockedBut(s, j)
    requires s0 == s.(slots := s.slots[j := None])
    ensures var p := s.slots[j].value;
            && p.sink < |s.sinks| && Shape(s0, extra + multiset{p.buffer}) && SlotFree(s0, p.sink)
            && Log(s, p.sink) == Log(s0, p.sink) + [Content(s.buffers, p.buffer)]
            && forall l :: 0 <= l < |s.sinks| && l != p.sink ==> Log(s0, l) == Log(s, l)
  {
    var p := s.slots[j].value;
    forall x: ID ensures Held(s0, x) + (if x == p.buffer then 1 else 0) == Held(s, x) {
      SlotUpdate(s.slots, j, None, x);
    }
    forall l | 0 <= l < |s.slots| && s0.slots[l].Some? ensures s0.slots[l].value.sink != p.sink {
      assert s0.slots[l] == s.slots[l] && l != j;
    }
    assert s.slots == s0.slots[j := Some(PendingWrite(p.sink, p.buffer))];
    SlotLogs(s0, s, j, p.sink, p.buffer);
  }

  // ------------------------------------------------------------------ asyncWriteWritable

  /** Slots are filled in order while a buffer goes round the sinks. */
  ghost predicate SlotsBelow(s: Sys, i: nat)
  {
    forall j :: 0 <= j < |s.slots| && s.slots[j].Some? ==> j < i && s.slots[j].value.sink < i
  }

  ghost predicate OpenSinks(s: Sys)
  {
    forall i :: 0 <= i < |s.sinks| ==> Open(s.sinks[i])
  }

  lemma RefLogs(s: Sys, b: ID)
    requires b < |s.buffers|
    ensures forall x: ID :: Content(Ref(s, b).buffers, x) == Content(s.buffers, x)
    ensures forall i :: 0 <= i < |s.sinks| ==> Log(Ref(s, b), i) == Log(s, i)
  {
    var s1 := Ref(s, b);
    assert forall x: ID :: Content(s1.buffers, x) == Content(s.buffers, x);
    forall i | 0 <= i < |s.sinks| ensures Log(s1, i) == Log(s, i) {
      LogSame(s, s1, i);
    }
  }

  lemma RefKeeps(s: Sys, b: ID, extra: multiset<ID>)
    requires Shape(s, extra) && extra[b] > 0
    ensures b < |s.buffers| && Shape(Ref(s, b), extra + multiset{b}) && Ref(s, b) == s.(buffers := AddRef(s.buffers, b))
  {
    assert Held(s, b) >= 0;
    var s1 := Ref(s, b);
    assert forall x: ID :: Held(s1, x) == Held(s, x);
    hide SinkOk, SlotsOk;
    if s.source.request != Free {
      assert Held(s, s.source.bufferID.value) >= 1;
    }
    assert SlotsOk(s1) by { SlotsSame(s, s1); }
  }

  lemma SlotsSame(s: Sys, s': Sys)
    requires SlotsOk(s) && s.sinks == s'.sinks && s.slots == s'.slots
    ensures SlotsOk(s')
  {
  }

  lemma FullSinkWrites(k: Sink)
    requires SinkOk(k) && Open(k) && !CanAcceptWrite(k)
    ensures k.capacity > 0 ==> StillWriting(k)
  {
  }

  /** Buffer b, and nothing else, has been given to sink i: it is being written, queued or pending,
      and a pending one has paused the source. */
  ghost predicate Given(s: Sys, s': Sys, i: nat, b: ID)
    requires i < |s.sinks|
  {
    && s' == s.(buffers := s'.buffers, sinks := s'.sinks, slots := s'.slots, source := s'.source)
    && (forall x: ID :: Content(s'.buffers, x) == Content(s.buffers, x))
    && (HasPendingWrites(s) ==> HasPendingWrites(s'))
    && (s'.source == s.source || (HasPendingWrites(s') && s'.source == Pause(s).source))
    && (HasPendingWrites(s') ==> HasPendingWrites(s) || s'.source == Pause(s).source)
    && |s'.sinks| == |s.sinks| && (forall l :: 0 <= l < |s.sinks| && l != i ==> s'.sinks[l] == s.sinks[l])
    && (s.sinks[i].capacity > 0 ==> StillWriting(s'.sinks[i])) && s'.sinks[i].capacity == s.sinks[i].capacity
    && Log(s', i) == Log(s, i) + [Content(s.buffers, b)]
    && forall l :: 0 <= l < |s.sinks| && l != i ==> Log(s', l) == Log(s, l)
  }

  lemma GivesWrite(s: Sys, b: ID, i: nat, extra: multiset<ID>)
    requires i < |s.sinks| && Shape(s, extra) && extra[b] > 0 && SlotFree(s, i) && CanAcceptWrite(s.sinks[i])
    requires Open(s.sinks[i])
    ensures var s' := AsyncWriteWritable(s, b, i);
            Shape(s', extra) && Given(s, s', i, b) && s'.slots == s.slots && Open(s'.sinks[i])
  {
    hide Write, Log, Held, RefsExact, SinkOk, Content, SlotsOk;
    RefKeeps(s, b, extra);
    RefLogs(s, b);
    WriteKeeps(Ref(s, b), i, b, extra);
  }

  lemma SamePending(s: Sys, s': Sys)
    requires s.slots == s'.slots
    ensures HasPendingWrites(s) == HasPendingWrites(s')
  {
  }

  lemma SlotPends(s: Sys, s': Sys, j: nat, p: PendingWrite)
    requires j < |s.slots| && s'.slots == s.slots[j := Some(p)]
    ensures HasPendingWrites(s')
  {
    assert s'.slots[j].Some?;
  }

  lemma SlotForm(s: Sys, b: ID, i: nat)
    requires i < |s.sinks| && !CanAcceptWrite(s.sinks[i]) && SlotFree(s, i) && i < |s.slots| && s.slots[i].None?
    ensures var j := FindSlot(s.slots, i);
            && j.Some? && j.value <= i && s.slots[j.value].None?
            && var s2 := Ref(s, b).(slots := s.slots[j.value := Some(PendingWrite(i, b))]);
               AsyncWriteWritable(s, b, i) == if HasPendingWrites(s) then s2 else Pause(s2)
  {
    FindsEmpty(s.slots, i, 0, None, i);
    hide HasPendingWrites, FindSlot, CanAcceptWrite;
    SamePending(s, Ref(s, b));
  }

  /** A new reference for a slot that was empty. */
  lemma FillsSlot(s: Sys, s2: Sys, b: ID, i: nat, j: nat, extra: multiset<ID>)
    requires i < |s.sinks| && Shape(s, extra) && extra[b] > 0 && SlotFree(s, i)
    requires !CanAcceptWrite(s.sinks[i]) && Open(s.sinks[i])
    requires j < |s.slots| && s.slots[j].None?
    requires s2 == Ref(s, b).(slots := s.slots[j := Some(PendingWrite(i, b))])
    ensures Shape(s2, extra) && HasPendingWrites(s2)
    ensures s2 == s.(buffers := s2.buffers, slots := s2.slots)
    ensures forall x: ID :: Content(s2.buffers, x) == Content(s.buffers, x)
    ensures Log(s2, i) == Log(s, i) + [Content(s.buffers, b)]
    ensures forall l :: 0 <= l < |s.sinks| && l != i ==> Log(s2, l) == Log(s, l)
  {
    hide Log, Shape, Content, CanAcceptWrite, HasPendingWrites, Open;
    RefKeeps(s, b, extra);
    RefLogs(s, b);
    SlotKeeps(Ref(s, b), s2, j, i, b, extra);
    SlotPends(s, s2, j, PendingWrite(i, b));
  }

  lemma GivesSlot(s: Sys, b: ID, i: nat, extra: multiset<ID>)
    requires i < |s.sinks| && Shape(s, extra) && extra[b] > 0 && SlotFree(s, i) && !CanAcceptWrite(s.sinks[i])
    requires i < |s.slots| && s.slots[i].None? && Open(s.sinks[i])
    ensures var s' := AsyncWriteWritable(s, b, i);
            && Shape(s', extra) && Given(s, s', i, b) && s'.sinks == s.sinks
            && var j := FindSlot(s.slots, i);
               j.Some? && j.value <= i && s'.slots == s.slots[j.value := Some(PendingWrite(i, b))]
  {
    FullSinkWrites(s.sinks[i]);
    SlotForm(s, b, i);
    hide AsyncWriteWritable, Log, Shape, Content, CanAcceptWrite, HasPendingWrites, FindSlot, Open, Ref, Given, Pause;
    var j := FindSlot(s.slots, i).value;
    var s2 := Ref(s, b).(slots := s.slots[j := Some(PendingWrite(i, b))]);
    FillsSlot(s, s2, b, i, j, extra);
    FilledGiven(s, s2, AsyncWriteWritable(s, b, i), b, i, extra);
  }

  lemma FilledGiven(s: Sys, s2: Sys, s': Sys, b: ID, i: nat, extra: multiset<ID>)
    requires i < |s.sinks| && Shape(s2, extra) && HasPendingWrites(s2) &&
             s2 == s.(buffers := s2.buffers, slots := s2.slots)
    requires forall x: ID :: Content(s2.buffers, x) == Content(s.buffers, x)
    requires Log(s2, i) == Log(s, i) + [Content(s.buffers, b)]
    requires forall l :: 0 <= l < |s.sinks| && l != i ==> Log(s2, l) == Log(s, l)
    requires s.sinks[i].capacity > 0 ==> StillWriting(s.sinks[i])
    requires s' == if HasPendingWrites(s) then s2 else Pause(s2)
    ensures Shape(s', extra) && Given(s, s', i, b) && s'.sinks == s.sinks && s'.slots == s2.slots
  {
    hide Log, Shape, Content, HasPendingWrites;
    PauseKeeps(s2, extra);
    SamePending(s2, Pause(s2));
  }

  lemma Gives(s: Sys, b: ID, i: nat, extra: multiset<ID>)
    requires i < |s.sinks| && Shape(s, extra) && extra[b] > 0 && SlotsBelow(s, i) && OpenSinks(s)
    ensures var s' := AsyncWriteWritable(s, b, i);
            Shape(s', extra) && Given(s, s', i, b) && SlotsBelow(s', i + 1) && OpenSinks(s')
  {
    hide AsyncWriteWritable, Log, Held, RefsExact, SinkOk, Content, SlotsOk;
    if CanAcceptWrite(s.sinks[i]) {
      GivesWrite(s, b, i, extra);
    } else {
      GivesSlot(s, b, i, extra);
    }
  }

  lemma PauseKeeps(s: Sys, extra: multiset<ID>)
    requires Shape(s, extra)
    ensures Shape(Pause(s), extra) && Pause(s) == s.(source := s.source.(state := Pause(s).source.state))
    ensures forall i :: 0 <= i < |s.sinks| ==> Log(Pause(s), i) == Log(s, i)
  {
    assert forall x: ID :: Held(Pause(s), x) == Held(s, x);
  }

  // ------------------------------------------------------------------ One buffer goes to every sink

  ghost predicate Roomy(s: Sys)
  {
    forall i :: 0 <= i < |s.sinks| ==> s.sinks[i].capacity > 0
  }

  ghost predicate InFlight(s: Sys)
  {
    exists i :: 0 <= i < |s.sinks| && StillWriting(s.sinks[i])
  }

  /** Dispatching only moves buffers to sinks and slots; it pauses the source exactly when it fills a slot. */
  ghost predicate Moved(s: Sys, s': Sys)
  {
    && s' == s.(buffers := s'.buffers, sinks := s'.sinks, slots := s'.slots, source := s'.source)
    && (forall x: ID :: Content(s'.buffers, x) == Content(s.buffers, x))
    && (s'.source == s.source || (HasPendingWrites(s') && s'.source == Pause(s).source))
    && (HasPendingWrites(s') ==> HasPendingWrites(s) || s'.source == Pause(s).source)
    && (HasPendingWrites(s) ==> HasPendingWrites(s'))
    && |s'.sinks| == |s.sinks| && Roomy(s) == Roomy(s')
  }

  lemma {:induction false} GoesRound(s: Sys, b: ID, i: nat, extra: multiset<ID>)
    requires i <= |s.sinks| && Shape(s, extra) && extra[b] > 0 && SlotsBelow(s, i) && OpenSinks(s)
    requires Logs(s, i, [Content(s.buffers, b)])
    ensures var s' := DispatchFrom(s, b, i);
            && Shape(s', extra) && Moved(s, s') && OpenSinks(s') && Logs(s', 0, [])
            && (Roomy(s) && (i < |s.sinks| || InFlight(s)) ==> InFlight(s'))
    decreases |s.sinks| - i
  {
    hide AsyncWriteWritable, Log, RefsExact, SinkOk, Content, SlotsOk, Shape;
    if i < |s.sinks| {
      Gives(s, b, i, extra);
      var s1 := AsyncWriteWritable(s, b, i);
      assert Logs(s1, i + 1, [Content(s1.buffers, b)]);
      assert Moved(s, s1);
      GoesRound(s1, b, i + 1, extra);
      assert Roomy(s) ==> InFlight(s1);
    }
  }

  // ------------------------------------------------------------------ The reference of an operation ends

  lemma UnrefRefs(s: Sys, b: ID, extra: multiset<ID>)
    requires Sound(s, extra + multiset{b})
    ensures b < |s.buffers| && s.buffers[b].refs > 0 && RefsExact(Unref(s, b), extra)
    ensures s.source.request != Free ==> s.source.bufferID != Some(b)
    ensures KeepsHeld(s, Unref(s, b))
  {
    assert Held(s, b) >= 0;
    var s1 := Unref(s, b);
    assert forall x: ID :: Held(s1, x) == Held(s, x);
    if s.source.request != Free {
      assert Held(s, s.source.bufferID.value) >= 1;
    }
  }

  /** Dropping a reference that no holder accounts for leaves every log as it is, even when the buffer becomes free. */
  lemma UnrefSound(s: Sys, b: ID, extra: multiset<ID>)
    requires Sound(s, extra + multiset{b})
    ensures var s' := Unref(s, b);
            && Sound(s', extra) && s' == s.(buffers := s'.buffers) && KeepsHeld(s, s')
            && (forall i :: 0 <= i < |s.sinks| ==> Log(s', i) == Log(s, i))
            && Contents(s'.buffers, s.source.queue) == Contents(s.buffers, s.source.queue)
  {
    hide SinkOk, SlotsDistinct, Content, Held, RefsExact, KeepsHeld;
    UnrefRefs(s, b, extra);
    var s1 := Unref(s, b);
    DistinctSame(s, s1);
    forall i | 0 <= i < |s.sinks| ensures Log(s1, i) == Log(s, i) {
      LogSame(s, s1, i);
    }
    QueueSame(s, s1);
  }

  lemma DistinctSame(s: Sys, s': Sys)
    requires SlotsDistinct(s) && |s.sinks| == |s'.sinks| && s.slots == s'.slots
    ensures SlotsDistinct(s')
  {
  }

  lemma UnrefKeeps(s: Sys, b: ID, extra: multiset<ID>)
    requires Shape(s, extra + multiset{b})
    ensures var s' := Unref(s, b);
            && Shape(s', extra) && s' == s.(buffers := s'.buffers) && KeepsHeld(s, s')
            && (forall i :: 0 <= i < |s.sinks| ==> Log(s', i) == Log(s, i))
            && Contents(s'.buffers, s.source.queue) == Contents(s.buffers, s.source.queue)
  {
    hide Sound, Content, KeepsHeld, Log;
    assert SlotsDistinct(s) by { DistinctOf(s, extra + multiset{b}); }
    UnrefSound(s, b, extra);
    DistinctOf(Unref(s, b), extra);
    SlotsSame(s, Unref(s, b));
  }

  lemma DistinctOf(s: Sys, extra: multiset<ID>)
    requires Sound(s, extra)
    ensures SlotsDistinct(s)
  {
  }

  lemma QueueSame(s: Sys, s': Sys)
    requires KeepsHeld(s, s') && s'.source.queue == s.source.queue
    ensures Contents(s'.buffers, s.source.queue) == Contents(s.buffers, s.source.queue)
  {
    forall b | b in s.source.queue ensures Content(s.buffers, b) == Content(s'.buffers, b) {
      CountIn(s.source.queue, b);
      assert Stored(s', b) > 0;
    }
    ContentsSame(s.buffers, s'.buffers, s.source.queue);
  }

  // ------------------------------------------------------------------ dispatchToPipes

  /** A buffer that cannot be dispatched yet goes back where it came from. */
  lemma Unshifts(s: Sys, b: ID, extra: multiset<ID>)
    requires Shape(s, extra) && extra[b] > 0 && |s.source.queue| < s.source.capacity
    requires Accounted(s, [Content(s.buffers, b)])
    ensures var s' := Unshift(s, b);
            && Shape(s', extra) && Accounted(s', [])
            && s' == s.(buffers := s'.buffers, source := s.source.(queue := [b] + s.source.queue))
            && (forall i :: 0 <= i < |s.sinks| ==> Log(s', i) == Log(s, i))
  {
    hide SinkOk, SlotsOk, Content;
    RefKeeps(s, b, extra);
    RefLogs(s, b);
    var s1 := Ref(s, b);
    var s' := Unshift(s, b);
    assert s' == s1.(source := s.source.(queue := [b] + s.source.queue));
    forall x: ID ensures Held(s', x) == Held(s1, x) + (if x == b then 1 else 0) {
      CountAppend([b], s.source.queue, x);
    }
    SlotsSame(s1, s');
    ContentsSame(s.buffers, s'.buffers, s.source.queue);
    ContentsAppend(s'.buffers, [b], s.source.queue);
    assert s.dispatched + [Content(s.buffers, b)] + Contents(s.buffers, s.source.queue)
        == s.dispatched + ([Content(s.buffers, b)] + Contents(s.buffers, s.source.queue));
  }
}
