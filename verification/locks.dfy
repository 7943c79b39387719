/** The locks the freeze watchdog knows about, as an abstract held/free state.
    No real synchronisation is modelled: a lock is either in the held set
    (some thread owns it) or not. */
module Locks {

  /** A queue, identified by its position in the queue application's container. */
  type QueueId = nat

  /** The global channels container lock, the global queues container lock,
      and the lock of one individual queue. */
  datatype LockId = ChannelsContainer | QueuesContainer | QueueLock(queue: QueueId)

  /** The set of locks some thread currently holds. */
  type Held = set<LockId>

  function Acquire(held: Held, id: LockId): Held
  {
    held + {id}
  }

  function Release(held: Held, id: LockId): Held
  {
    held - {id}
  }

  /** The lock of every queue in an iteration snapshot of the queue container,
      in iteration order. */
  function QueueLocks(queues: seq<QueueId>): (ls: seq<LockId>)
    ensures |ls| == |queues|
    ensures forall i :: 0 <= i < |queues| ==> ls[i] == QueueLock(queues[i])
  {
    seq(|queues|, i requires 0 <= i < |queues| => QueueLock(queues[i]))
  }

  /** The same locks as a set: exactly the individual-queue locks of the snapshot. */
  function QueueLockSet(queues: seq<QueueId>): (s: set<LockId>)
    ensures forall l :: l in s <==> l.QueueLock? && l.queue in queues
  {
    set q | q in queues :: QueueLock(q)
  }
}
