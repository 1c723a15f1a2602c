/** Health snapshots and the bounded channels they are broadcast on. */
module HealthStream {
  import opened Topo

  /** One health snapshot sent to subscribers (Go's
      `actionnode.HealthStreamReply`). */
  datatype HealthStreamReply = HealthStreamReply(
    tablet: Tablet,
    binlogPlayerMapSize: int,
    healthError: string,
    replicationDelay: int)

  /** A buffered Go channel seen from the sending side: the messages not yet
      received, and the buffer size. */
  class HealthChannel {
    var queue: seq<HealthStreamReply>
    const capacity: nat

    ghost predicate Valid()
      reads this
    {
      |queue| <= capacity
    }

    constructor (capacity: nat)
      ensures Valid() && queue == [] && this.capacity == capacity
    {
      queue := [];
      this.capacity := capacity;
    }

    /** `select { case c <- m: default: }`: enqueues `m` when the buffer has
        room and otherwise leaves the channel as it is, never blocking. */
    method TrySend(m: HealthStreamReply) returns (sent: bool)
      requires Valid()
      modifies this
      ensures Valid()
      ensures sent <==> |old(queue)| < capacity
      ensures queue == if sent then old(queue) + [m] else old(queue)
    {
      sent := |queue| < capacity;
      if sent {
        queue := queue + [m];
      }
    }
  }
}
