/** A stack that is committed downwards in steps, when its guard faults. */
module StackGrowth {

  const USABLE_BYTES := 256 * 1024
  const INITIAL_COMMIT_BYTES := 32 * 1024
  const GROWTH_BYTES := 16 * 1024

  /** How often a stack can grow at all. */
  const MAX_GROWTHS := (USABLE_BYTES - INITIAL_COMMIT_BYTES) / GROWTH_BYTES

  class GrowingStack {
    var guardEnd: int
    var committedBegin: int
    var stackEnd: int
    var growthEvents: nat

    /** After each growth exactly one more step of the stack is committed. */
    predicate Valid()
      reads this
    {
      && stackEnd == guardEnd + USABLE_BYTES
      && guardEnd <= committedBegin <= stackEnd
      && stackEnd - committedBegin == INITIAL_COMMIT_BYTES + GROWTH_BYTES * growthEvents
    }

    /** reserve, at an address that the operating system chooses. */
    constructor (reservation: nat, pageSize: nat)
      ensures Valid() && growthEvents == 0 && guardEnd == reservation + pageSize
    {
      guardEnd := reservation + pageSize;
      stackEnd := reservation + pageSize + USABLE_BYTES;
      committedBegin := reservation + pageSize + USABLE_BYTES - INITIAL_COMMIT_BYTES;
      growthEvents := 0;
    }

    /** The stack grows exactly when the fault is in the next step below the committed part, the stack pointer is
        inside the stack down to there, there is room, and the operating system commits the memory; the
        fault is then inside the committed part. */
    method TryGrow(fault: nat, stack: nat, commits: bool) returns (grown: bool)
      requires Valid()
      modifies this`committedBegin, this`growthEvents
      ensures Valid()
      ensures grown <==>
                && commits && old(growthEvents) < MAX_GROWTHS
                && old(committedBegin) - GROWTH_BYTES <= fault < old(committedBegin)
                && old(committedBegin) - GROWTH_BYTES <= stack < stackEnd
      ensures growthEvents == old(growthEvents) + (if grown then 1 else 0)
      ensures committedBegin == old(committedBegin) - (if grown then GROWTH_BYTES else 0)
      ensures grown ==> committedBegin <= fault < stackEnd
    {
      var next := committedBegin - GROWTH_BYTES;
      if next < guardEnd {
        next := guardEnd;
      }
      if next == committedBegin || stack < next || stack >= stackEnd || fault < next || fault >= committedBegin {
        return false;
      }
      if !commits {
        return false;
      }
      committedBegin := next;
      growthEvents := growthEvents + 1;
      return true;
    }
  }

  /** A stack grows at most fourteen times, and then all of its usable bytes are committed. */
  lemma BoundedGrowth(stack: GrowingStack)
    requires stack.Valid()
    ensures stack.growthEvents <= MAX_GROWTHS == 14
    ensures stack.growthEvents == MAX_GROWTHS <==> stack.committedBegin == stack.guardEnd
  {
  }
}
