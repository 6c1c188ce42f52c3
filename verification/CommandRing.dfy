/** The locked ring through which worker threads hand commands to the owner thread. Unlike the streams' ring
    it counts its elements, so that it uses all of its memory. Each method is one critical section. */
module CommandRing {

  import opened Wrappers
  import CircularQueue

  datatype Enqueued = Accepted | NoStorage | Full

  /** The commands from `head` on, `count` of them, around the end of the memory. */
  function Unrolled<T>(memory: seq<T>, head: nat, count: nat): seq<T>
    requires head <= |memory| && count <= |memory|
  {
    (memory + memory)[head..head + count]
  }

  lemma Appended<T>(memory: seq<T>, head: nat, count: nat, x: T)
    requires head < |memory| && count < |memory|
    ensures (head + count) % |memory| == if head + count < |memory| then head + count else head + count - |memory|
    ensures Unrolled(memory[(head + count) % |memory| := x], head, count + 1) == Unrolled(memory, head, count) + [x]
  {
    CircularQueue.Wraps(head + count, |memory|);
  }

  lemma Popped<T>(memory: seq<T>, head: nat, count: nat, cleared: T)
    requires head < |memory| && 0 < count <= |memory|
    ensures (head + 1) % |memory| == if head + 1 == |memory| then 0 else head + 1
    ensures Unrolled(memory, head, count) ==
            [memory[head]] + Unrolled(memory[head := cleared], (head + 1) % |memory|, count - 1)
  {
    CircularQueue.Wraps(head + 1, |memory|);
  }

  class CommandRing<T(0)> {
    const commands: array<Option<T>>
    var commandHead: nat
    var commandCount: nat

    ghost predicate Valid()
      reads this
    {
      commandCount <= commands.Length &&
          (if commands.Length == 0 then commandHead == 0 else commandHead < commands.Length)
    }

    /** What drainCommandQueue will execute, in order. */
    ghost function Contents(): seq<Option<T>>
      requires Valid()
      reads this, commands
    {
      Unrolled(commands[..], commandHead, commandCount)
    }

    constructor (commands: array<Option<T>>)
      ensures Valid() && this.commands == commands && Contents() == []
    {
      this.commands := commands;
      commandHead, commandCount := 0, 0;
    }

    method HasPendingCommands() returns (pending: bool)
      requires Valid()
      ensures pending == (Contents() != [])
    {
      pending := commandCount != 0;
    }

    method Enqueue(command: T) returns (r: Enqueued)
      requires Valid()
      modifies this, commands
      ensures Valid()
      ensures r == if commands.Length == 0 then NoStorage else if old(|Contents()|) == commands.Length then Full
              else Accepted
      ensures Contents() == if r == Accepted then old(Contents()) + [Some(command)] else old(Contents())
    {
      if commands.Length == 0 {
        return NoStorage;
      }
      if commandCount == commands.Length {
        return Full;
      }
      Appended(commands[..], commandHead, commandCount, Some(command));
      commands[(commandHead + commandCount) % commands.Length] := Some(command);
      commandCount := commandCount + 1;
      return Accepted;
    }

    /** One turn of drainCommandQueue up to the execution of the command: its slot is cleared. */
    method Dequeue() returns (drained: bool, command: Option<T>)
      requires Valid()
      modifies this, commands
      ensures Valid()
      ensures drained <==> old(Contents()) == []
      ensures drained ==> Contents() == old(Contents())
      ensures !drained ==> old(Contents()) == [command] + Contents()
    {
      if commandCount == 0 {
        return true, None;
      }
      Popped(commands[..], commandHead, commandCount, None);
      command := commands[commandHead];
      commands[commandHead] := None;
      commandHead := (commandHead + 1) % commands.Length;
      commandCount := commandCount - 1;
      drained := false;
    }
  }
}
