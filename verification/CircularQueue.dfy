/** The ring buffer under the read and write queues. It holds up to one element less than its memory,
    which is why the streams' model of a queue has a capacity of its own. */
module CircularQueue {

  import opened Wrappers

  /** Indices are 32 bits wide. */
  const MAX_ELEMENTS := 0x1_0000_0000

  /** What a ring holds, front first. */
  function Unrolled<T>(ring: seq<T>, read: nat, write: nat): seq<T>
    requires read < |ring| && write < |ring|
  {
    if read <= write then ring[read..write] else ring[read..] + ring[..write]
  }

  lemma UnrolledAt<T>(ring: seq<T>, read: nat, write: nat, i: nat)
    requires read < |ring| && write < |ring|
    ensures |Unrolled(ring, read, write)| == (write - read) % |ring| < |ring|
    ensures i < |Unrolled(ring, read, write)| ==> Unrolled(ring, read, write)[i] == ring[(read + i) % |ring|]
  {
    Wraps(write - read, |ring|);
    if i < |ring| { Wraps(read + i, |ring|); }
  }

  /** The next index, computed in 32 bits. */
  function Next(index: nat, size: nat): (next: nat)
    requires index < size <= MAX_ELEMENTS
    ensures next == if index + 1 == size then 0 else index + 1
  {
    Wraps(index + 1, size);
    if index + 1 < MAX_ELEMENTS then Wraps(index + 1, MAX_ELEMENTS); (index + 1) % MAX_ELEMENTS % size
    else (index + 1) % MAX_ELEMENTS % size
  }

  lemma Wraps(x: int, n: int)
    requires 0 < n && -n < x < 2 * n
    ensures x % n == if x < 0 then x + n else if x < n then x else x - n
  {
    var r := if x < 0 then x + n else if x < n then x else x - n;
    if x < 0 {
      assert x == (-1) * n + r;
    } else if x >= n {
      assert x == n + r;
    }
  }

  lemma PushedBack<T>(ring: seq<T>, read: nat, write: nat, x: T)
    requires read < |ring| <= MAX_ELEMENTS && write < |ring| && Next(write, |ring|) != read
    ensures Unrolled(ring[write := x], read, Next(write, |ring|)) == Unrolled(ring, read, write) + [x]
  {
  }

  lemma PushedFront<T>(ring: seq<T>, read: nat, write: nat, x: T)
    requires read < |ring| && write < |ring|
    requires var next := if read == 0 then |ring| - 1 else read - 1; next != write
    ensures var next := if read == 0 then |ring| - 1 else read - 1;
            Unrolled(ring[next := x], next, write) == [x] + Unrolled(ring, read, write)
  {
  }

  lemma PoppedFront<T>(ring: seq<T>, read: nat, write: nat)
    requires read < |ring| <= MAX_ELEMENTS && write < |ring| && read != write
    ensures Unrolled(ring, read, write) == [ring[read]] + Unrolled(ring, Next(read, |ring|), write)
  {
  }

  class CircularQueue<T(0)> {
    const buffer: array<T>
    var readIndex: nat
    var writeIndex: nat

    constructor (buffer: array<T>)
      requires 0 < buffer.Length <= MAX_ELEMENTS
      ensures Valid() && this.buffer == buffer && Contents() == []
    {
      this.buffer := buffer;
      readIndex, writeIndex := 0, 0;
    }

    ghost predicate Valid()
      reads this
    {
      0 < buffer.Length <= MAX_ELEMENTS && readIndex < buffer.Length && writeIndex < buffer.Length
    }

    ghost function Contents(): seq<T>
      requires Valid()
      reads this, buffer
    {
      Unrolled(buffer[..], readIndex, writeIndex)
    }

    method IsEmpty() returns (empty: bool)
      requires Valid()
      ensures empty == (Contents() == [])
    {
      UnrolledAt(buffer[..], readIndex, writeIndex, 0);
      empty := readIndex == writeIndex;
    }

    method IsFull() returns (full: bool)
      requires Valid()
      ensures full == (|Contents()| == buffer.Length - 1)
    {
      Wraps(writeIndex - readIndex, buffer.Length);
      UnrolledAt(buffer[..], readIndex, writeIndex, 0);
      full := Next(writeIndex, buffer.Length) == readIndex;
    }

    method PushBack(x: T) returns (ok: bool)
      requires Valid()
      modifies this, buffer
      ensures Valid()
      ensures ok == (old(|Contents()|) < buffer.Length - 1)
      ensures Contents() == if ok then old(Contents()) + [x] else old(Contents())
    {
      Wraps(writeIndex - readIndex, buffer.Length);
      UnrolledAt(buffer[..], readIndex, writeIndex, 0);
      var next := Next(writeIndex, buffer.Length);
      if next == readIndex {
        return false;
      }
      PushedBack(buffer[..], readIndex, writeIndex, x);
      buffer[writeIndex] := x;
      writeIndex := next;
      return true;
    }

    method PopFront() returns (front: Option<T>)
      requires Valid()
      modifies this
      ensures Valid()
      ensures front.None? <==> old(Contents()) == []
      ensures front.None? ==> Contents() == old(Contents())
      ensures front.Some? ==> old(Contents()) == [front.value] + Contents()
    {
      var empty := IsEmpty();
      if empty {
        return None;
      }
      PoppedFront(buffer[..], readIndex, writeIndex);
      front := Some(buffer[readIndex]);
      readIndex := Next(readIndex, buffer.Length);
    }

    method PushFront(x: T) returns (ok: bool)
      requires Valid()
      modifies this, buffer
      ensures Valid()
      ensures ok == (old(|Contents()|) < buffer.Length - 1)
      ensures Contents() == if ok then [x] + old(Contents()) else old(Contents())
    {
      Wraps(writeIndex - readIndex, buffer.Length);
      UnrolledAt(buffer[..], readIndex, writeIndex, 0);
      var next := if readIndex == 0 then buffer.Length - 1 else readIndex - 1;
      if next == writeIndex {
        return false;
      }
      PushedFront(buffer[..], readIndex, writeIndex, x);
      buffer[next] := x;
      readIndex := next;
      return true;
    }
  }
}
