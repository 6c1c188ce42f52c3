/** The streams as objects that are updated in place. Each method is proved to do to the fields what the
    function of the same name in module StreamModel does to the state of the whole pipeline, so that the
    theorems about every run hold of these classes. Listeners of events are direct calls. */
module AsyncStreams {

  import opened Wrappers
  import opened StreamModel
  import StreamTheorems

  /** The release assertions that have failed so far. */
  class Assertions {
    var failed: set<Assertion>

    constructor ()
      ensures failed == {}
    {
      failed := {};
    }

    method Check(condition: bool, assertion: Assertion)
      modifies this
      ensures failed == if condition then old(failed) else old(failed) + {assertion}
    {
      if !condition {
        failed := failed + {assertion};
      }
    }
  }

  class AsyncBuffersPool {
    const assertions: Assertions
    var buffers: seq<Buffer>

    constructor (buffers: seq<Buffer>, assertions: Assertions)
      ensures this.buffers == buffers && this.assertions == assertions
    {
      this.buffers := buffers;
      this.assertions := assertions;
    }

    method RefBuffer(b: ID)
      modifies this
      ensures forall s: Sys :: s.buffers == old(buffers) ==> Ref(s, b) == s.(buffers := buffers)
    {
      if b < |buffers| {
        buffers := buffers[b := buffers[b].(refs := buffers[b].refs + 1)];
      }
    }

    method UnrefBuffer(b: ID)
      modifies this, assertions
      ensures forall s: Sys :: s.buffers == old(buffers) && s.failed == old(assertions.failed) ==>
                Unref(s, b) == s.(buffers := buffers, failed := assertions.failed)
    {
      if b < |buffers| && buffers[b].refs != 0 {
        var buffer := buffers[b];
        buffer := buffer.(refs := buffer.refs - 1);
        if buffer.refs == 0 {
          buffer := buffer.(length := |buffer.store|);
        }
        buffers := buffers[b := buffer];
      } else {
        assertions.Check(false, UnrefOfFreeBuffer);
      }
    }

    method RequestNewBuffer() returns (found: Option<ID>)
      modifies this
      ensures found == FirstFree(old(buffers))
      ensures found.None? ==> buffers == old(buffers)
      ensures found.Some? ==> forall s: Sys :: s.buffers == old(buffers) ==>
              Request(s, found.value) == s.(buffers := buffers)
    {
      var i := 0;
      while i < |buffers|
        invariant 0 <= i <= |buffers| && buffers == old(buffers)
        invariant FirstFree(buffers) == FirstFree(buffers, i)
      {
        if buffers[i].refs == 0 {
          buffers := buffers[i := buffers[i].(refs := 1, length := |buffers[i].store|)];
          return Some(i);
        }
        i := i + 1;
      }
      return None;
    }

    method SetNewBufferSize(b: ID, size: nat)
      modifies this
      ensures forall s: Sys :: s.buffers == old(buffers) ==> SetSize(s, b, size) == s.(buffers := buffers)
    {
      if b < |buffers| && size <= |buffers[b].store| {
        buffers := buffers[b := buffers[b].(length := size)];
      }
    }

    /** The operating system (or the owner of the source) stores bytes in the buffer. */
    method Store(b: ID, data: Bytes)
      modifies this
      ensures forall s: Sys :: s.buffers == old(buffers) ==> Fill(s, b, data) == s.(buffers := buffers)
    {
      if b < |buffers| && |data| <= |buffers[b].store| {
        buffers := buffers[b := buffers[b].(store := data + buffers[b].store[|data|..])];
      }
    }
  }

  class AsyncWritableStream {
    const pool: AsyncBuffersPool
    const capacity: nat
    const autoDestroy: bool
    var state: WriteState
    var destroyed: bool
    var writeQueue: seq<ID>
    var writing: Option<ID>     // the buffer of the request, while it is in use
    var listening: bool         // afterSinkEnd is registered on eventFinish

    constructor (pool: AsyncBuffersPool, capacity: nat, autoDestroy: bool)
      ensures this.pool == pool && this.capacity == capacity && this.autoDestroy == autoDestroy
      ensures Value() == Sink(WriteState.Stopped, false, autoDestroy, [], capacity, None, false)
    {
      this.pool, this.capacity, this.autoDestroy := pool, capacity, autoDestroy;
      state, destroyed, writeQueue, writing, listening := WriteState.Stopped, false, [], None, false;
    }

    function Value(): Sink
      reads this
    {
      Sink(state, destroyed, autoDestroy, writeQueue, capacity, writing, listening)
    }

    /** s is the state of a pipeline around this sink, which is its sink i. */
    ghost predicate On(s: Sys, i: nat)
      reads this, pool, pool.assertions
    {
      Near(s, i) && s.sinks[i] == Value()
    }

    ghost predicate Near(s: Sys, i: nat)
      reads pool, pool.assertions
    {
      i < |s.sinks| && s.buffers == pool.buffers && s.failed == pool.assertions.failed
    }

    /** The state of the pipeline after an operation of this sink. */
    ghost function After(s: Sys, i: nat): Sys
      requires i < |s.sinks|
      reads this, pool, pool.assertions
    {
      s.(buffers := pool.buffers, failed := pool.assertions.failed, sinks := s.sinks[i := Value()])
    }

    method CanAcceptWrite() returns (ok: bool)
      ensures ok == StreamModel.CanAcceptWrite(Value())
    {
      ok := (state == WriteState.Stopped || state == Writing) && |writeQueue| < capacity;
    }

    /** AsyncRequestWritableStream::asyncWrite, with a request that starts. */
    method AsyncWrite(b: ID)
      modifies this`writing, pool
      ensures writing == Some(b)
      ensures forall s: Sys :: s.buffers == old(pool.buffers) ==> Ref(s, b) == s.(buffers := pool.buffers)
    {
      writing := Some(b);
      pool.RefBuffer(b);
    }

    /** Starts the write at the front of the queue. */
    method StartFront()
      requires writeQueue != []
      modifies this, pool, pool.assertions
      ensures forall s: Sys, i: nat :: old(Near(s, i)) ==> StreamModel.StartFront(s, i, old(Value())) == After(s, i)
    {
      var b := writeQueue[0];
      writeQueue := writeQueue[1..];
      AsyncWrite(b);
      ghost var k, mid := Value(), pool.buffers;
      pool.UnrefBuffer(b);
      forall s: Sys, i: nat | old(Near(s, i)) ensures StreamModel.StartFront(s, i, old(Value())) == After(s, i) {
        var s1 := SetSink(s, i, k);
        assert Ref(s1, b) == s1.(buffers := mid);
        hide Ref, Unref;
      }
    }

    method ResumeWriting()
      modifies this, pool, pool.assertions
      ensures forall s: Sys, i: nat :: old(Near(s, i)) ==> StreamModel.ResumeWriting(s, i, old(Value())) == After(s, i)
    {
      match state {
        case Stopped =>
          if writeQueue != [] {
            state := Writing;
            StartFront();
          }
        case Ending =>
          if writing.None? {
            EndAndDestroy();
          }
        case _ =>
      }
    }

    /** Ended, and destroyed if that is automatic. */
    method EndAndDestroy()
      modifies this, pool, pool.assertions
      ensures forall s: Sys, i: nat :: old(Near(s, i)) ==>
                AutoDestroySink(SetSink(s, i, old(Value()).(state := WriteState.Ended)), i) == After(s, i)
    {
      state := WriteState.Ended;
      ghost var k := Value();
      AutoDestroy();
      forall s: Sys, i: nat | old(Near(s, i)) ensures AutoDestroySink(SetSink(s, i, k), i) == After(s, i) {
        assert SetSink(s, i, k).sinks[i := Value()] == s.sinks[i := Value()];
        hide AutoDestroySink;
      }
    }

    method AutoDestroy()
      modifies this, pool, pool.assertions
      ensures forall s: Sys, i: nat :: old(On(s, i)) ==> AutoDestroySink(s, i) == After(s, i)
    {
      if autoDestroy {
        Destroy();
      } else {
        forall s: Sys, i: nat | On(s, i) ensures After(s, i) == s { Same(s, i); }
      }
    }

    method Destroy()
      modifies this, pool, pool.assertions
      ensures forall s: Sys, i: nat :: old(On(s, i)) ==> DestroySink(s, i) == After(s, i)
    {
      ghost var k := Value();
      ClearQueue();
      if state != WriteState.Destroying && state != WriteState.Errored {
        if writing.None? {
          state, destroyed := WriteState.Ended, true;
        } else {
          state := WriteState.Destroying;
        }
      }
      forall s: Sys, i: nat | old(On(s, i)) ensures DestroySink(s, i) == After(s, i) {
        var s0 := s.(sinks := s.sinks[i := k.(queue := [])]);
        assert UnrefAll(s0, k.queue) == s0.(buffers := pool.buffers, failed := pool.assertions.failed);
        assert s0.sinks[i := Value()] == s.sinks[i := Value()];
        hide UnrefAll;
      }
    }

    method ClearQueue()
      modifies this`writeQueue, pool, pool.assertions
      ensures writeQueue == []
      ensures forall s: Sys :: s.buffers == old(pool.buffers) && s.failed == old(pool.assertions.failed) ==>
                UnrefAll(s, old(writeQueue)) == s.(buffers := pool.buffers, failed := pool.assertions.failed)
    {
      while writeQueue != []
        invariant forall s: Sys :: s.buffers == old(pool.buffers) && s.failed == old(pool.assertions.failed) ==>
                    UnrefAll(s, old(writeQueue)) ==
                    UnrefAll(s.(buffers := pool.buffers, failed := pool.assertions.failed), writeQueue)
        decreases |writeQueue|
      {
        var b := writeQueue[0];
        writeQueue := writeQueue[1..];
        pool.UnrefBuffer(b);
      }
    }

    lemma Same(s: Sys, i: nat)
      requires On(s, i)
      ensures After(s, i) == s
    {
      assert s.sinks[i := Value()] == s.sinks;
    }

    method Write(b: ID) returns (ok: bool)
      modifies this, pool, pool.assertions
      ensures forall s: Sys, i: nat :: old(On(s, i)) ==> StreamModel.Write(s, i, b) == (After(s, i), ok)
    {
      if state == WriteState.Ended || state == Ending || |writeQueue| >= capacity {
        forall s: Sys, i: nat | On(s, i) ensures After(s, i) == s { Same(s, i); }
        return false;
      }
      writeQueue := writeQueue + [b];
      ghost var k := Value();
      pool.RefBuffer(b);
      ResumeWriting();
      forall s: Sys, i: nat | old(On(s, i)) ensures StreamModel.Write(s, i, b) == (After(s, i), true) {
        assert StreamModel.ResumeWriting(Ref(s, b), i, k) == After(Ref(s, b), i);
        hide StreamModel.ResumeWriting;
      }
      return true;
    }

    /** eventFinish, to which afterSinkEnd of pipeline p may listen, then the automatic destroy. */
    method Finish(p: AsyncPipeline, i: nat)
      requires p.Valid() && i < |p.sinks| && p.sinks[i] == this
      modifies p.Frame()
      ensures p.Snapshot() == StreamModel.Finish(old(p.Snapshot()), i)
    {
      if listening {
        p.AfterSinkEnd();
      }
      label Heard:
      hide AutoDestroySink, StreamModel.AfterSinkEnd;
      AutoDestroy();
      p.SinkDid@Heard(i);
    }

    method End(p: AsyncPipeline, i: nat)
      requires p.Valid() && i < |p.sinks| && p.sinks[i] == this
      modifies p.Frame()
      ensures p.Snapshot() == EndSink(old(p.Snapshot()), i)
    {
      match state {
        case Stopped =>
          if writing.None? {
            state := WriteState.Ended;
            p.SinkDid(i);
            hide StreamModel.Finish;
            Finish(p, i);
          } else {
            state := Ending;
            p.SinkDid(i);
          }
        case Writing =>
          state := Ending;
          p.SinkDid(i);
        case _ =>
      }
    }

    /** AsyncRequestWritableStream::afterWrite: the write in flight has completed. */
    method AfterWrite(p: AsyncPipeline, i: nat)
      requires p.Valid() && i < |p.sinks| == |p.written| && p.sinks[i] == this && writing.Some?
      modifies p.Frame()
      ensures p.Snapshot() == CompleteWrite(old(p.Snapshot()), i)
    {
      hide Unref, StreamModel.FinishedWriting, Content;
      var b := writing.value;
      Complete(p, i);
      p.Release(b);
      FinishedWriting(p, i, b);
    }

    /** The request is free again, and what it wrote has reached the other side. */
    method Complete(p: AsyncPipeline, i: nat)
      requires p.Valid() && i < |p.sinks| == |p.written| && p.sinks[i] == this && writing.Some?
      modifies p`written, this`writing
      ensures var s := old(p.Snapshot());
              var done := s.written[i] + [Content(s.buffers, s.sinks[i].writing.value)];
              p.Snapshot() == SetSink(s, i, s.sinks[i].(writing := None)).(written := s.written[i := done])
    {
      p.written := p.written[i := p.written[i] + [Content(pool.buffers, writing.value)]];
      label Recorded:
      writing := None;
      p.SinkDid@Recorded(i);
    }

    method FinishedWriting(p: AsyncPipeline, i: nat, b: ID)
      requires p.Valid() && i < |p.sinks| && p.sinks[i] == this
      modifies p.Frame()
      ensures p.Snapshot() == StreamModel.FinishedWriting(old(p.Snapshot()), i, b)
    {
      ghost var s := p.Snapshot();
      pool.assertions.Check(state == Writing || state == Ending, NotWriting);
      assert p.Snapshot() == StreamModel.Check(s, StillWriting(s.sinks[i]), NotWriting);
      hide StreamModel.Check, StreamModel.StartNext, StreamModel.AfterWrite, StreamModel.Finish;
      label Checked:
      StartNext();
      p.SinkDid@Checked(i);
      p.AfterWrite(b);
      if state == WriteState.Ended {
        Finish(p, i);
      }
    }

    /** The first half of finishedWriting: the next queued write, or the end, or idle again. */
    method StartNext()
      modifies this, pool, pool.assertions
      ensures forall s: Sys, i: nat :: old(On(s, i)) ==> StreamModel.StartNext(s, i) == After(s, i)
    {
      if writeQueue != [] {
        StartFront();
      } else if state == Ending {
        if writing.None? {
          state := WriteState.Ended;
        } else {
          forall s: Sys, i: nat | On(s, i) ensures After(s, i) == s { Same(s, i); }
        }
      } else {
        state := WriteState.Stopped;
      }
    }
  }

  class AsyncReadableStream {
    const pool: AsyncBuffersPool
    const capacity: nat
    const autoDestroy: bool
    var state: ReadState
    var destroyed: bool
    var readQueue: seq<ID>
    var request: RequestState
    var bufferID: Option<ID>    // the buffer of the request, while it is in use

    constructor (pool: AsyncBuffersPool, capacity: nat, autoDestroy: bool)
      ensures this.pool == pool && this.capacity == capacity && this.autoDestroy == autoDestroy
      ensures Value() == Source(CanRead, false, autoDestroy, [], capacity, Free, None)
    {
      this.pool, this.capacity, this.autoDestroy := pool, capacity, autoDestroy;
      state, destroyed, readQueue, request, bufferID := CanRead, false, [], Free, None;
    }

    function Value(): Source
      reads this
    {
      Source(state, destroyed, autoDestroy, readQueue, capacity, request, bufferID)
    }

    /** s is the state of a pipeline around this source. */
    ghost predicate On(s: Sys)
      reads this, pool, pool.assertions
    {
      s.source == Value() && s.buffers == pool.buffers && s.failed == pool.assertions.failed
    }

    ghost function After(s: Sys): Sys
      reads this, pool, pool.assertions
    {
      s.(buffers := pool.buffers, failed := pool.assertions.failed, source := Value())
    }

    method Pause()
      modifies this`state
      ensures forall s: Sys :: old(On(s)) ==> StreamModel.Pause(s) == After(s)
    {
      match state {
        case Reading | AsyncReading | SyncPushing | AsyncPushing => state := Pausing;
        case _ =>
      }
    }

    method Unshift(b: ID)
      modifies this`readQueue, pool
      ensures forall s: Sys :: old(On(s)) ==> StreamModel.Unshift(s, b) == After(s)
    {
      if |readQueue| < capacity {
        readQueue := [b] + readQueue;
        pool.RefBuffer(b);
      }
    }

    method ReleaseBufferID()
      modifies this`bufferID, pool, pool.assertions
      ensures forall s: Sys :: old(On(s)) ==> StreamModel.ReleaseBufferID(s) == After(s)
    {
      if bufferID.Some? {
        var b := bufferID.value;
        bufferID := None;
        pool.UnrefBuffer(b);
      }
    }

    /** AsyncRequestReadableStream::asyncRead, with a request that starts. */
    method AsyncRead()
      modifies this, pool, pool.assertions
      ensures forall s: Sys :: old(On(s)) ==> StreamModel.AsyncRead(s) == After(s)
    {
      pool.assertions.Check(request == Free, RequestInUse);
      var found := pool.RequestNewBuffer();
      if found.Some? {
        bufferID, request := found, Active;
      } else {
        Pause();
      }
    }

    // ---- Operations that emit events to pipeline p.

    /** The loop of emitOnData. */
    method EmitQueued(p: AsyncPipeline)
      requires p.Valid() && p.source == this && Emitting(state)
      modifies p.Frame()
      ensures p.Snapshot() == EmitLoop(old(p.Snapshot()))
    {
      while readQueue != []
        invariant Emitting(state)
        invariant EmitLoop(p.Snapshot()) == EmitLoop(old(p.Snapshot()))
        decreases |readQueue|
      {
        ghost var s := p.Snapshot();
        EmitNext(p);
        EmitTurn(s, p.Snapshot());
        hide EmitLoop;
        if state == Pausing || state == Paused || (state == ReadState.Ended && readQueue != []) {
          return;
        }
      }
    }

    /** The front of the queue is emitted; the reference that push took is dropped after the event. */
    method EmitNext(p: AsyncPipeline)
      requires p.Valid() && p.source == this && readQueue != []
      modifies p.Frame()
      ensures var s := old(p.Snapshot());
              var b := s.source.queue[0];
              p.Snapshot() == Unref(Dispatch(s.(source := s.source.(queue := s.source.queue[1..])), b), b)
    {
      var b := readQueue[0];
      readQueue := readQueue[1..];
      p.SourceDid();
      hide Dispatch;
      p.DispatchToPipes(b);
      pool.UnrefBuffer(b);
    }

    static lemma EmitTurn(s: Sys, s1: Sys)
      requires Emitting(s.source.state) && s.source.queue != []
      requires var b := s.source.queue[0];
               s1 == Unref(Dispatch(s.(source := s.source.(queue := s.source.queue[1..])), b), b)
      ensures Emitting(s1.source.state)
      ensures if s1.source.state == Pausing || s1.source.state == Paused ||
              (s1.source.state == ReadState.Ended && s1.source.queue != [])
              then EmitLoop(s) == s1
              else EmitLoop(s) == EmitLoop(s1) && |s1.source.queue| < |s.source.queue|
    {
      hide Dispatch, Unref;
    }

    method EmitOnData(p: AsyncPipeline)
      requires p.Valid() && p.source == this && Emitting(state)
      modifies p.Frame()
      ensures p.Snapshot() == StreamModel.EmitOnData(old(p.Snapshot()))
      decreases if destroyed then 0 else 1, 3
    {
      hide EmitLoop, StreamModel.MaybeDestroyEnded;
      EmitQueued(p);
      MaybeDestroyEnded(p);
    }

    method MaybeDestroyEnded(p: AsyncPipeline)
      requires p.Valid() && p.source == this
      modifies p.Frame()
      ensures p.Snapshot() == StreamModel.MaybeDestroyEnded(old(p.Snapshot()))
      decreases if destroyed then 0 else 1, 2
    {
      hide DestroySource;
      if state == ReadState.Ended && autoDestroy && !destroyed && readQueue == [] {
        Destroy(p);
      }
    }

    method ClearQueue()
      modifies this`readQueue, pool, pool.assertions
      ensures readQueue == []
      ensures forall s: Sys :: s.buffers == old(pool.buffers) && s.failed == old(pool.assertions.failed) ==>
                UnrefAll(s, old(readQueue)) == s.(buffers := pool.buffers, failed := pool.assertions.failed)
    {
      while readQueue != []
        invariant forall s: Sys :: s.buffers == old(pool.buffers) && s.failed == old(pool.assertions.failed) ==>
                    UnrefAll(s, old(readQueue)) ==
                    UnrefAll(s.(buffers := pool.buffers, failed := pool.assertions.failed), readQueue)
        decreases |readQueue|
      {
        var b := readQueue[0];
        readQueue := readQueue[1..];
        pool.UnrefBuffer(b);
      }
    }

    method Destroy(p: AsyncPipeline)
      requires p.Valid() && p.source == this && !destroyed
      modifies p.Frame()
      ensures p.Snapshot() == DestroySource(old(p.Snapshot()))
      decreases if destroyed then 0 else 1, 1
    {
      ghost var s := p.Snapshot();
      ClearQueue();
      p.SourceDid();
      assert UnrefAll(s.(source := s.source.(queue := [])), s.source.queue) == p.Snapshot();
      hide UnrefAll, StreamModel.FinalizeDestruction;
      if state != ReadState.Destroying && state != ReadState.Errored {
        label Cleared:
        state := ReadState.Destroying;
        if request == Free {
          p.SourceDid@Cleared();
          FinalizeDestruction(p);
        } else {
          request := Cancelling;
          p.SourceDid@Cleared();
        }
      }
    }

    method FinalizeDestruction(p: AsyncPipeline)
      requires p.Valid() && p.source == this && !destroyed
      modifies p.Frame()
      ensures p.Snapshot() == StreamModel.FinalizeDestruction(old(p.Snapshot()))
      decreases if destroyed then 0 else 1, 0
    {
      ReleaseBufferID();
      p.SourceDid();
      hide StreamModel.ReleaseBufferID, StreamModel.EndPipes;
      if state != ReadState.Destroying {
        pool.assertions.Check(false, NotDestroying);
      } else {
        label Released:
        state, destroyed, request := ReadState.Ended, true, Free;
        p.SourceDid@Released();
        if p.piped {
          p.EndPipes();
        }
      }
    }

    method ExecuteRead(p: AsyncPipeline)
      requires p.Valid() && p.source == this
      modifies p.Frame()
      ensures p.Snapshot() == StreamModel.ExecuteRead(old(p.Snapshot()))
      decreases if destroyed then 0 else 1, 4
    {
      state := Reading;
      p.SourceDid();
      hide StreamModel.EmitOnData, StreamModel.AsyncRead;
      if readQueue != [] {
        EmitOnData(p);
      }
      if state == Reading {
        IssueRead(p);
      }
    }

    method IssueRead(p: AsyncPipeline)
      requires p.Valid() && p.source == this
      modifies p.Frame()
      ensures var s := StreamModel.AsyncRead(old(p.Snapshot()));
              p.Snapshot() == if s.source.state == Reading then s.(source := s.source.(state := AsyncReading)) else s
    {
      AsyncRead();
      p.SourceDid();
      hide StreamModel.AsyncRead;
      label Issued:
      if state == Reading {
        state := AsyncReading;
        p.SourceDid@Issued();
      }
    }

    method ResumeReading(p: AsyncPipeline)
      requires p.Valid() && p.source == this
      modifies p.Frame()
      ensures p.Snapshot() == StreamModel.ResumeReading(old(p.Snapshot()))
      decreases if destroyed then 0 else 1, 5
    {
      hide StreamModel.ExecuteRead, StreamModel.EmitOnData, StreamModel.MaybeDestroyEnded;
      match state {
        case Pausing | Paused | CanRead => ExecuteRead(p);
        case Ended =>
          if readQueue != [] {
            EmitOnData(p);
          } else {
            MaybeDestroyEnded(p);
          }
        case _ =>
      }
    }

    method PushEnd(p: AsyncPipeline)
      requires p.Valid() && p.source == this
      modifies p.Frame()
      ensures p.Snapshot() == StreamModel.PushEnd(old(p.Snapshot()))
    {
      hide StreamModel.EndPipes, StreamModel.MaybeDestroyEnded;
      if state != ReadState.Stopped && state != ReadState.Ended && state != ReadState.Destroying &&
          state != ReadState.Errored {
        state := ReadState.Ended;
        p.SourceDid();
        if p.piped {
          p.EndPipes();
        }
        MaybeDestroyEnded(p);
      }
    }

    method Push(p: AsyncPipeline, b: ID, size: nat) returns (more: bool)
      requires p.Valid() && p.source == this
      modifies p.Frame()
      ensures StreamModel.Push(old(p.Snapshot()), b, size) == (p.Snapshot(), more)
    {
      if size == 0 {
        return false;
      }
      ghost var s := p.Snapshot();
      pool.SetNewBufferSize(b, size);
      assert p.Snapshot() == SetSize(s, b, size);
      hide SetSize, StreamModel.PushQueued, Content, Ref;
      if |readQueue| >= capacity {
        SetState(p, ReadState.Errored);
        return false;
      }
      Enqueue(p, b);
      PushQueued(p);
      more := state == AsyncPushing || state == SyncPushing;
    }

    /** The queue holds the buffer with a reference of its own. */
    method Enqueue(p: AsyncPipeline, b: ID)
      requires p.Valid() && p.source == this
      modifies this`readQueue, pool, p`accepted
      ensures var s := old(p.Snapshot());
              var s1 := Ref(s.(source := s.source.(queue := s.source.queue + [b])), b);
              p.Snapshot() == s1.(accepted := s1.accepted + [Content(s1.buffers, b)])
    {
      readQueue := readQueue + [b];
      pool.RefBuffer(b);
      p.SourceDid();
      hide Content, Ref;
      p.accepted := p.accepted + [Content(pool.buffers, b)];
    }

    method SetState(p: AsyncPipeline, next: ReadState)
      requires p.Valid() && p.source == this
      modifies this`state
      ensures p.Snapshot() == (var s := old(p.Snapshot()); s.(source := s.source.(state := next)))
    {
      state := next;
      p.SourceDid();
    }

    /** The second half of push. */
    method PushQueued(p: AsyncPipeline)
      requires p.Valid() && p.source == this
      modifies p.Frame()
      ensures p.Snapshot() == StreamModel.PushQueued(old(p.Snapshot()))
    {
      hide StreamModel.EmitOnData;
      match state {
        case SyncPushing | Reading =>
          EmitOnData(p);
          SetState(p, SyncPushing);
        case AsyncPushing | AsyncReading =>
          EmitOnData(p);
          if state == AsyncReading {
            SetState(p, AsyncPushing);
          }
        case Pausing => EmitOnData(p);
        case _ =>
      }
    }

    /** AsyncRequestReadableStream::afterRead: the operating system has stored data in the buffer. */
    method AfterRead(p: AsyncPipeline, data: Bytes)
      requires p.Valid() && p.source == this && bufferID.Some?
      modifies p.Frame()
      ensures p.Snapshot() == CompleteRead(old(p.Snapshot()), data)
    {
      var b := bufferID.value;
      ghost var s := p.Snapshot();
      pool.Store(b, data);
      assert p.Snapshot() == Fill(s, b, data);
      hide Fill, StreamModel.Push, StreamModel.ReleaseBufferID, StreamModel.Pause, Request, FirstFree;
      label Stored:
      request := Free;
      p.SourceDid@Stored();
      var more := Push(p, b, |data|);
      label Pushed:
      if !destroyed {
        ReleaseBufferID();
        p.SourceDid@Pushed();
      }
      if more {
        Rearm(p);
      }
    }

    /** The same request reads again, into a new buffer. */
    method Rearm(p: AsyncPipeline)
      requires p.Valid() && p.source == this
      modifies p.Frame()
      ensures var s := old(p.Snapshot());
              p.Snapshot() ==
                match FirstFree(s.buffers)
                case None => StreamModel.Pause(s)
                case Some(n) => Request(s, n).(source := s.source.(bufferID := Some(n), request := Active))
    {
      var found := pool.RequestNewBuffer();
      if found.Some? {
        bufferID, request := found, Active;
      } else {
        Pause();
      }
      p.SourceDid();
    }

    /** The read reports the end of the file or of the connection. */
    method AfterReadEnd(p: AsyncPipeline)
      requires p.Valid() && p.source == this
      modifies p.Frame()
      ensures var s := old(p.Snapshot());
              p.Snapshot() == StreamModel.PushEnd(StreamModel.ReleaseBufferID(s.(source := s.source.(request := Free))))
    {
      AfterReadError(p);
      PushEnd(p);
    }

    method AfterReadError(p: AsyncPipeline)
      requires p.Valid() && p.source == this
      modifies p.Frame()
      ensures var s := old(p.Snapshot());
              p.Snapshot() == StreamModel.ReleaseBufferID(s.(source := s.source.(request := Free)))
    {
      request := Free;
      p.SourceDid();
      label Freed:
      ReleaseBufferID();
      p.SourceDid@Freed();
    }
  }

  class AsyncPipeline {
    const pool: AsyncBuffersPool
    const source: AsyncReadableStream
    const sinks: seq<AsyncWritableStream>
    var slots: seq<Option<PendingWrite>>
    var shouldEndWhenDrained: bool
    var endingPipes: bool
    var piped: bool
    ghost var accepted: seq<Bytes>
    ghost var dispatched: seq<Bytes>
    ghost var written: seq<seq<Bytes>>

    /** pipe, on streams that use one pool. */
    constructor (pool: AsyncBuffersPool, source: AsyncReadableStream, sinks: seq<AsyncWritableStream>)
      requires source.pool == pool && forall i :: 0 <= i < |sinks| ==> sinks[i].pool == pool
      requires forall i, j :: 0 <= i < j < |sinks| ==> sinks[i] != sinks[j]
      ensures Valid() && this.pool == pool && this.source == source && this.sinks == sinks
      ensures Snapshot() ==
                Sys(pool.buffers, source.Value(), SinkValues(), seq(NUM_SLOTS, _ => None), false, false, true,
                    pool.assertions.failed, [], [], seq(|sinks|, _ => []))
    {
      this.pool, this.source, this.sinks := pool, source, sinks;
      slots := seq(NUM_SLOTS, _ => None);
      shouldEndWhenDrained, endingPipes, piped := false, false, true;
      accepted, dispatched, written := [], [], seq(|sinks|, _ => []);
    }

    /** All streams use the pool of the pipeline, and no sink is there twice. */
    ghost predicate Valid()
    {
      && source.pool == pool
      && (forall i :: 0 <= i < |sinks| ==> sinks[i].pool == pool)
      && (forall i, j :: 0 <= i < j < |sinks| ==> sinks[i] != sinks[j])
    }

    ghost function Frame(): set<object>
    {
      {this, pool, pool.assertions, source} + set i | 0 <= i < |sinks| :: sinks[i]
    }

    ghost function SinkValues(): seq<Sink>
      reads set i | 0 <= i < |sinks| :: sinks[i]
    {
      seq(|sinks|, i requires 0 <= i < |sinks| reads set l | 0 <= l < |sinks| :: sinks[l] => sinks[i].Value())
    }

    ghost function Snapshot(): Sys
      reads Frame()
    {
      Sys(pool.buffers, source.Value(), SinkValues(), slots, shouldEndWhenDrained, endingPipes, piped,
          pool.assertions.failed, accepted, dispatched, written)
    }

    /** What one sink does to itself and to the pool, seen from the pipeline. */
    twostate lemma SinkDid(i: nat)
      requires Valid() && i < |sinks|
      requires unchanged(this) && unchanged(source) && forall l :: 0 <= l < |sinks| && l != i ==> unchanged(sinks[l])
      ensures old(sinks[i].On(Snapshot(), i)) && sinks[i].After(old(Snapshot()), i) == Snapshot()
    {
      assert SinkValues() == old(SinkValues())[i := sinks[i].Value()];
    }

    method HasPendingWrites() returns (found: bool)
      ensures found == StreamModel.HasPendingWrites(Snapshot())
    {
      var j := 0;
      while j < |slots|
        invariant 0 <= j <= |slots| && forall l :: 0 <= l < j ==> slots[l].None?
      {
        if slots[j].Some? {
          return true;
        }
        j := j + 1;
      }
      return false;
    }

    method FindPendingWrite(i: nat) returns (found: Option<nat>)
      ensures found == FindSlot(slots, i)
    {
      found := None;
      var j := 0;
      while j < |slots|
        invariant 0 <= j <= |slots| && FindSlot(slots, i) == FindSlot(slots, i, j, found)
      {
        if slots[j].Some? {
          if slots[j].value.sink == i {
            return Some(j);
          }
        } else if found.None? {
          found := Some(j);
        }
        j := j + 1;
      }
    }

    /** Hands the buffer to the sink; its reference is dropped if the sink refuses it. */
    method WriteNow(b: ID, i: nat)
      requires Valid() && i < |sinks|
      modifies Frame()
      ensures Snapshot() == (var (s, ok) := StreamModel.Write(old(Snapshot()), i, b); if ok then s else Unref(s, b))
    {
      var ok := sinks[i].Write(b);
      SinkDid(i);
      hide StreamModel.Write, Unref;
      assert StreamModel.Write(old(Snapshot()), i, b) == (Snapshot(), ok);
      if !ok {
        pool.UnrefBuffer(b);
      }
    }

    /** Keeps the buffer for a sink that cannot take it, and pauses the source at the first one. */
    method Postpone(b: ID, i: nat)
      requires Valid() && i < |sinks|
      modifies Frame()
      ensures Snapshot() == StreamModel.Postpone(old(Snapshot()), b, i)
    {
      var found := FindPendingWrite(i);
      hide FindSlot, StreamModel.HasPendingWrites;
      if found.None? || found.value >= |slots| || slots[found.value].Some? {
        pool.assertions.Check(false, PendingSlot);
      } else {
        Keep(b, i, found.value);
      }
    }

    method Keep(b: ID, i: nat, j: nat)
      requires Valid() && j < |slots|
      modifies `slots, source`state
      ensures var s := old(Snapshot());
              var s1 := s.(slots := s.slots[j := Some(PendingWrite(i, b))]);
              Snapshot() == if StreamModel.HasPendingWrites(s) then s1 else StreamModel.Pause(s1)
    {
      hide StreamModel.HasPendingWrites;
      var wasAlreadyBackpressured := HasPendingWrites();
      slots := slots[j := Some(PendingWrite(i, b))];
      ghost var s := Snapshot();
      if !wasAlreadyBackpressured {
        source.Pause();
        assert Snapshot() == StreamModel.Pause(s);
      }
    }

    method AsyncWriteWritable(b: ID, i: nat)
      requires Valid() && i < |sinks|
      modifies Frame()
      ensures Snapshot() == StreamModel.AsyncWriteWritable(old(Snapshot()), b, i)
    {
      ghost var s := Snapshot();
      pool.RefBuffer(b);
      assert Snapshot() == Ref(s, b);
      var accepts := sinks[i].CanAcceptWrite();
      assert accepts == StreamModel.CanAcceptWrite(Snapshot().sinks[i]);
      hide Ref, StreamModel.Write, StreamModel.Postpone, StreamModel.CanAcceptWrite, Unref;
      if accepts {
        WriteNow(b, i);
      } else {
        Postpone(b, i);
      }
    }

    /** What the source does to itself and to the pool, seen from the pipeline. */
    twostate lemma SourceDid()
      requires Valid()
      requires unchanged(this) && forall l :: 0 <= l < |sinks| ==> unchanged(sinks[l])
      ensures old(source.On(Snapshot())) && source.After(old(Snapshot())) == Snapshot()
    {
      assert SinkValues() == old(SinkValues());
    }

    method DispatchToPipes(b: ID)
      requires Valid()
      modifies Frame()
      ensures Snapshot() == Dispatch(old(Snapshot()), b)
    {
      if !piped {
        return;
      }
      var waiting := HasPendingWrites();
      hide StreamModel.HasPendingWrites, DispatchFrom, StreamModel.Unshift, StreamModel.Pause;
      if waiting {
        HoldBack(b);
      } else {
        DispatchToAll(b);
      }
    }

    /** A buffer that cannot be given to the sinks goes back to the source. */
    method HoldBack(b: ID)
      requires Valid()
      modifies Frame()
      ensures Snapshot() == StreamModel.Unshift(StreamModel.Pause(old(Snapshot())), b)
    {
      source.Pause();
      SourceDid();
      label Paused:
      source.Unshift(b);
      SourceDid@Paused();
    }

    method DispatchToAll(b: ID)
      requires Valid()
      modifies Frame()
      ensures var s := old(Snapshot());
              Snapshot() == DispatchFrom(s.(dispatched := s.dispatched + [Content(s.buffers, b)]), b, 0)
    {
      hide StreamModel.AsyncWriteWritable;
      dispatched := dispatched + [Content(pool.buffers, b)];
      ghost var s := Snapshot();
      assert s == old(Snapshot()).(dispatched := dispatched);
      var i := 0;
      while i < |sinks|
        invariant 0 <= i <= |sinks|
        invariant DispatchFrom(s, b, 0) == DispatchFrom(Snapshot(), b, i)
      {
        AsyncWriteWritable(b, i);
        i := i + 1;
      }
    }

    /** Gives each pending write to its sink once there is room for it. */
    method RetryPendingWrites() returns (drained: bool)
      requires Valid()
      modifies Frame()
      ensures Snapshot() == Retry(old(Snapshot()), 0)
      ensures drained == !StreamModel.HasPendingWrites(Snapshot())
    {
      var j := 0;
      while j < |slots|
        invariant 0 <= j <= |slots|
        invariant Retry(old(Snapshot()), 0) == Retry(Snapshot(), j)
        decreases |slots| - j
      {
        RetrySlot(j);
        j := j + 1;
      }
      var waiting := HasPendingWrites();
      drained := !waiting;
    }

    method RetrySlot(j: nat)
      requires Valid() && j < |slots|
      modifies Frame()
      ensures |slots| == old(|slots|)
      ensures Retry(old(Snapshot()), j) == Retry(Snapshot(), j + 1)
    {
      if slots[j].Some? && slots[j].value.sink < |sinks| {
        var p := slots[j].value;
        var accepts := sinks[p.sink].CanAcceptWrite();
        assert accepts == StreamModel.CanAcceptWrite(Snapshot().sinks[p.sink]);
        hide StreamModel.Write, Unref, StreamModel.CanAcceptWrite;
        if accepts {
          WriteSlot(p, j);
        }
      }
    }

    method WriteSlot(p: PendingWrite, j: nat)
      requires Valid() && j < |slots| && p.sink < |sinks|
      modifies Frame()
      ensures |slots| == old(|slots|)
      ensures var (s1, ok) := StreamModel.Write(old(Snapshot()), p.sink, p.buffer);
              var s2 := if ok then s1 else Unref(s1, p.buffer);
              j < |s2.slots| && Snapshot() == s2.(slots := s2.slots[j := None])
    {
      hide Unref, StreamModel.Write;
      ghost var s := Snapshot();
      WriteNow(p.buffer, p.sink);
      assert |Snapshot().slots| == |s.slots|;
      slots := slots[j := None];
    }

    method ReleaseSlot(j: nat)
      requires Valid() && j < |slots| && slots[j].Some?
      modifies Frame()
      ensures var s := Unref(old(Snapshot()), old(slots)[j].value.buffer);
              Snapshot() == s.(slots := s.slots[j := None])
    {
      ghost var s := Snapshot();
      pool.UnrefBuffer(slots[j].value.buffer);
      assert Snapshot() == Unref(s, slots[j].value.buffer);
      hide Unref;
      slots := slots[j := None];
    }

    /** Releases the pending writes and stops listening. */
    method Unpipe()
      requires Valid()
      modifies Frame()
      ensures Snapshot() == StreamModel.Unpipe(old(Snapshot()))
    {
      var j := 0;
      while j < |slots|
        invariant 0 <= j <= |slots|
        invariant ReleaseSlots(old(Snapshot()), 0) == ReleaseSlots(Snapshot(), j)
        decreases |slots| - j
      {
        ghost var s := Snapshot();
        if slots[j].Some? {
          ReleaseSlot(j);
        }
        assert ReleaseSlots(s, j) == ReleaseSlots(Snapshot(), j + 1);
        hide ReleaseSlots;
        j := j + 1;
      }
      shouldEndWhenDrained, endingPipes, piped := false, false, false;
    }

    method AfterSinkEnd()
      requires Valid()
      modifies Frame()
      ensures Snapshot() == StreamModel.AfterSinkEnd(old(Snapshot()))
    {
      if piped {
        var allEnded := RemoveAllListeners();
        hide RemoveListeners, StreamModel.Unpipe, StillWriting;
        if allEnded {
          Unpipe();
        }
      }
    }

    method RemoveAllListeners() returns (allEnded: bool)
      requires Valid()
      modifies Frame()
      ensures Snapshot() == RemoveListeners(old(Snapshot()), 0)
      ensures allEnded == !exists i :: 0 <= i < |old(Snapshot()).sinks| && StillWriting(old(Snapshot()).sinks[i])
    {
      hide StillWriting;
      allEnded := RemoveFrom();
      assert |old(Snapshot()).sinks| == |sinks|;
      assert forall i :: 0 <= i < |sinks| ==> old(Snapshot()).sinks[i] == old(sinks[i].Value());
    }

    method RemoveFrom() returns (allEnded: bool)
      requires Valid()
      modifies Frame()
      ensures Snapshot() == RemoveListeners(old(Snapshot()), 0)
      ensures allEnded == !exists i :: 0 <= i < |sinks| && StillWriting(old(sinks[i].Value()))
    {
      hide RemoveListeners, StillWriting;
      allEnded := true;
      var i := 0;
      while i < |sinks|
        invariant 0 <= i <= |sinks|
        invariant RemoveListeners(old(Snapshot()), 0) == RemoveListeners(Snapshot(), i)
        invariant forall l :: i <= l < |sinks| ==> sinks[l].Value() == old(sinks[l].Value())
        invariant allEnded == !exists l :: 0 <= l < i && StillWriting(old(sinks[l].Value()))
      {
        var ended := RemoveListener(i);
        allEnded := allEnded && ended;
        i := i + 1;
      }
      RemovedAll(Snapshot());
    }

    lemma RemovedAll(s: Sys)
      ensures RemoveListeners(s, |s.sinks|) == s
    {
    }

    method RemoveListener(i: nat) returns (ended: bool)
      requires Valid() && i < |sinks|
      modifies sinks[i], pool.assertions
      ensures ended == !StillWriting(old(sinks[i].Value()))
      ensures RemoveListeners(old(Snapshot()), i) == RemoveListeners(Snapshot(), i + 1)
    {
      var k := sinks[i];
      ended := k.state != Writing && k.state != Ending;
      if ended {
        var heard := k.listening;
        k.listening := false;
        pool.assertions.Check(heard, FinishListener);
        SinkDid(i);
      }
    }

    method EndPipes()
      requires Valid()
      modifies Frame()
      ensures Snapshot() == StreamModel.EndPipes(old(Snapshot()))
      decreases if source.destroyed then 0 else 1, 6
    {
      if endingPipes {
        return;
      }
      var waiting := HasPendingWrites();
      hide StreamModel.HasPendingWrites, StreamModel.ResumeReading, EndSinks, StreamModel.Unpipe;
      if waiting || source.readQueue != [] {
        DeferEnd();
      } else {
        EndNow();
      }
    }

    /** The end waits until nothing is pending and nothing is queued. */
    method DeferEnd()
      requires Valid()
      modifies Frame()
      ensures var s1 := old(Snapshot()).(shouldEndWhenDrained := true);
              Snapshot() == if !StreamModel.HasPendingWrites(s1) then StreamModel.ResumeReading(s1) else s1
      decreases if source.destroyed then 0 else 1, 6, 0
    {
      hide StreamModel.HasPendingWrites, StreamModel.ResumeReading;
      shouldEndWhenDrained := true;
      var waiting := HasPendingWrites();
      if !waiting {
        source.ResumeReading(this);
      }
    }

    method EndNow()
      requires Valid()
      modifies Frame()
      ensures var (s1, allEnded) := EndSinks(old(Snapshot()).(endingPipes := true), 0);
              Snapshot() == if allEnded then StreamModel.Unpipe(s1) else s1
    {
      hide EndSinks, StreamModel.Unpipe;
      endingPipes := true;
      var allEnded := EndAllSinks();
      if allEnded {
        Unpipe();
      }
    }

    /** The loop of endPipes. */
    method EndAllSinks() returns (allEnded: bool)
      requires Valid()
      modifies Frame()
      ensures EndSinks(old(Snapshot()), 0) == (Snapshot(), allEnded)
    {
      hide EndSink, EndSinks;
      allEnded := true;
      var i := 0;
      while i < |sinks|
        invariant 0 <= i <= |sinks|
        invariant EndSinks(old(Snapshot()), 0) == And(EndSinks(Snapshot(), i), allEnded)
      {
        ghost var s := Snapshot();
        var ended := EndOneSink(i);
        EndTurn(s, Snapshot(), i);
        allEnded := allEnded && ended;
        i := i + 1;
      }
      EndedAll(Snapshot());
    }

    static function And(r: (Sys, bool), more: bool): (Sys, bool)
    {
      (r.0, r.1 && more)
    }

    static lemma EndTurn(s: Sys, s1: Sys, i: nat)
      requires i < |s.sinks|
      requires s1 == EndSink(if StillWriting(s.sinks[i]) then s.(sinks := s.sinks[i := s.sinks[i].(listening := true)])
               else s, i)
      ensures EndSinks(s, i) == And(EndSinks(s1, i + 1), !StillWriting(s.sinks[i]))
    {
      hide EndSink;
    }

    static lemma EndedAll(s: Sys)
      ensures EndSinks(s, |s.sinks|) == (s, true)
    {
    }

    /** A sink that is still writing will tell when it has finished. */
    method EndOneSink(i: nat) returns (ended: bool)
      requires Valid() && i < |sinks|
      modifies Frame()
      ensures ended == !StillWriting(old(Snapshot()).sinks[i])
      ensures var s := old(Snapshot());
              var k := s.sinks[i];
              Snapshot() == EndSink(if StillWriting(k) then s.(sinks := s.sinks[i := k.(listening := true)]) else s, i)
    {
      var k := sinks[i];
      ended := k.state != Writing && k.state != Ending;
      if !ended {
        k.listening := true;
        SinkDid(i);
      }
      hide EndSink;
      k.End(this, i);
    }

    /** The callback of every write that the pipeline makes. */
    method AfterWrite(b: ID)
      requires Valid()
      modifies Frame()
      ensures Snapshot() == StreamModel.AfterWrite(old(Snapshot()), b)
    {
      pool.assertions.Check(piped, NoSource);
      ghost var s := Snapshot();
      pool.UnrefBuffer(b);
      assert Snapshot() == Unref(s, b);
      hide Unref, Retry, StreamModel.ResumeReading, StreamModel.EndPipes, StreamModel.HasPendingWrites;
      var drained := RetryPendingWrites();
      if drained {
        Drained();
      }
    }

    /** No write is pending any more: the source goes on, or the end that was deferred takes place. */
    method Drained()
      requires Valid()
      modifies Frame()
      ensures var s := old(Snapshot());
              Snapshot() == if s.shouldEndWhenDrained && s.source.queue == []
                            then StreamModel.EndPipes(s.(shouldEndWhenDrained := false))
                            else StreamModel.ResumeReading(s)
    {
      hide StreamModel.ResumeReading, StreamModel.EndPipes;
      if shouldEndWhenDrained {
        if source.readQueue != [] {
          source.ResumeReading(this);
        } else {
          shouldEndWhenDrained := false;
          EndPipes();
        }
      } else {
        source.ResumeReading(this);
      }
    }

    // ---- The environment.

    /** One event of the environment. */
    method Take(e: Event)
      requires Valid() && Enabled(Snapshot(), e)
      modifies Frame()
      ensures Snapshot() == Step(old(Snapshot()), e)
    {
      hide StreamModel.ResumeReading, CompleteRead, StreamModel.PushEnd, StreamModel.ReleaseBufferID,
        StreamModel.FinalizeDestruction, StreamModel.Push, CompleteWrite, Unref, Fill;
      match e {
        case Start => source.ResumeReading(this);
        case ReadData(data) => source.AfterRead(this, data);
        case ReadEnd => source.AfterReadEnd(this);
        case ReadError => source.AfterReadError(this);
        case ReadCancelled => source.FinalizeDestruction(this);
        case Produce(data) => ProduceOne(data);
        case EndNow => source.PushEnd(this);
        case WriteDone(i) => sinks[i].AfterWrite(this, i);
      }
    }

    /** The owner of the source requests a buffer, fills it, pushes it and drops its own reference. */
    method ProduceOne(data: Bytes)
      requires Valid() && FirstFree(pool.buffers).Some?
      modifies Frame()
      ensures var s := old(Snapshot());
              var b := FirstFree(s.buffers).value;
              Snapshot() == Unref(StreamModel.Push(Fill(Request(s, b), b, data), b, |data|).0, b)
    {
      hide Request, Fill, StreamModel.Push, FirstFree;
      var b := RequestFilled(data);
      var more := source.Push(this, b, |data|);
      hide Unref;
      Release(b);
    }

    method RequestFilled(data: Bytes) returns (b: ID)
      requires FirstFree(pool.buffers).Some?
      modifies pool
      ensures var s := old(Snapshot()); b == FirstFree(s.buffers).value && Snapshot() == Fill(Request(s, b), b, data)
    {
      ghost var s := Snapshot();
      var found := pool.RequestNewBuffer();
      b := found.value;
      assert Snapshot() == Request(s, b);
      hide Request;
      ghost var s1 := Snapshot();
      pool.Store(b, data);
      assert Snapshot() == Fill(s1, b, data);
    }

    method Release(b: ID)
      modifies pool, pool.assertions
      ensures Snapshot() == Unref(old(Snapshot()), b)
    {
      pool.UnrefBuffer(b);
    }

    ghost predicate AllEnabled(s: Sys, events: seq<Event>)
      decreases |events|
    {
      events == [] || (Enabled(s, events[0]) && AllEnabled(Step(s, events[0]), events[1..]))
    }

    /** A whole run: from the state after init and pipe, a sink that has ended has written all that arrived. */
    method TakeAll(events: seq<Event>)
      requires Valid() && AllEnabled(Snapshot(), events)
      modifies Frame()
      ensures Snapshot() == Run(old(Snapshot()), events)
      ensures old(Initial(Snapshot())) ==>
                forall i :: 0 <= i < |sinks| && sinks[i].state == WriteState.Ended ==>
                  i < |written| && written[i] == StreamTheorems.Arrivals(old(Snapshot()), events)
    {
      hide Step, Enabled, Initial;
      var i := 0;
      while i < |events|
        invariant 0 <= i <= |events| && AllEnabled(Snapshot(), events[i..])
        invariant Run(old(Snapshot()), events) == Run(Snapshot(), events[i..])
      {
        assert events[i..][1..] == events[i + 1..];
        Take(events[i]);
        i := i + 1;
      }
      hide Run, StreamTheorems.Arrivals;
      if old(Initial(Snapshot())) {
        Written(old(Snapshot()), events);
      }
    }

    lemma Written(s: Sys, events: seq<Event>)
      requires Initial(s) && Snapshot() == Run(s, events)
      ensures forall i :: 0 <= i < |sinks| && sinks[i].state == WriteState.Ended ==>
                i < |written| && written[i] == StreamTheorems.Arrivals(s, events)
    {
      assert |s.written| == |s.sinks|;
      hide Run, StreamTheorems.Arrivals, Initial;
      forall i | 0 <= i < |sinks| && sinks[i].state == WriteState.Ended
        ensures i < |written| && written[i] == StreamTheorems.Arrivals(s, events)
      {
        assert Snapshot().sinks[i] == sinks[i].Value();
        StreamTheorems.EndOfStream(s, events, i);
      }
    }
  }
}
