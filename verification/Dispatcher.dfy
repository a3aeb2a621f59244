/** One cycle of the background dispatcher: backpressure on the stream depth, then one batch. */
module Dispatcher {
  import opened Tasks
  import opened FairQueue
  import opened QueueRuns

  datatype Settings = Settings(dispatchBatchSize: int, streamTargetDepth: int, maxInStreamPerTenant: int)

  function TargetDepth(activeWorkers: nat, settings: Settings): int {
    if activeWorkers == 0 then settings.streamTargetDepth else 2 * activeWorkers
  }

  /** The batch a cycle asks for, given the stream length it read. */
  function BatchSize(streamLen: nat, activeWorkers: nat, settings: Settings): nat {
    var room := TargetDepth(activeWorkers, settings) - streamLen;
    var size := if settings.dispatchBatchSize < room then settings.dispatchBatchSize else room;
    if size < 0 then 0 else size
  }

  /** `streamLen` is the reply to XLEN and `activeWorkers` the number of live heartbeat keys. */
  method DispatchCycle(q: WaitingRooms, streamLen: nat, activeWorkers: nat, settings: Settings)
    returns (dispatched: seq<TaskId>)
    requires Weighted(q.State())
    modifies q
    ensures var (after, sent) := Batch(old(q.State()), BatchSize(streamLen, activeWorkers, settings), settings.maxInStreamPerTenant);
            q.State() == after && dispatched == TaskIds(sent)
  {
    var targetDepth := if 1 < activeWorkers * 2 then activeWorkers * 2 else 1;
    if activeWorkers == 0 {
      targetDepth := settings.streamTargetDepth;
    }
    if streamLen >= targetDepth {
      return [];
    }
    var batchSize := if settings.dispatchBatchSize < targetDepth - streamLen then settings.dispatchBatchSize else targetDepth - streamLen;
    if batchSize <= 0 {
      return [];
    }
    dispatched := q.Dispatch(batchSize, settings.maxInStreamPerTenant);
  }

  /** A cycle sends as much as the batch size, the free stream depth and the tenant caps allow. If
      the stream only shrank since its length was read, it never ends above the larger of that
      length and the target depth. */
  lemma CycleFillsToTarget(s: QueueState, streamLen: nat, activeWorkers: nat, settings: Settings)
    requires Weighted(s) && IndexAgrees(s) && Numbered(s)
    ensures var n, cap := BatchSize(streamLen, activeWorkers, settings), settings.maxInStreamPerTenant;
            var (after, sent) := Batch(s, n, cap);
            var target := TargetDepth(activeWorkers, settings);
            && |sent| == (if n < TotalCapacity(s, cap) then n else TotalCapacity(s, cap))
            && |after.stream| == |s.stream| + |sent|
            && (|s.stream| <= streamLen ==> |after.stream| <= if streamLen < target then target else streamLen)
  {
    var n, cap := BatchSize(streamLen, activeWorkers, settings), settings.maxInStreamPerTenant;
    WorkConserving(s, n, cap);
    BatchLength(s, n, cap);
  }

  /** Work conservation of a cycle, over what it read: it never sends more than the batch size or than
      the free depth below twice the number of workers (the setting, with no worker), and it sends
      less than both only if no tenant with a waiting task is below its cap any more. */
  lemma CycleEnds(s: QueueState, streamLen: nat, activeWorkers: nat, settings: Settings)
    requires Weighted(s) && IndexAgrees(s)
    ensures var cap := settings.maxInStreamPerTenant;
            var (after, sent) := Batch(s, BatchSize(streamLen, activeWorkers, settings), cap);
            var depth := if activeWorkers == 0 then settings.streamTargetDepth else 2 * activeWorkers;
            && (sent != [] ==> |sent| <= settings.dispatchBatchSize && streamLen + |sent| <= depth)
            && (|sent| < settings.dispatchBatchSize && streamLen + |sent| < depth ==>
                  forall t :: Room(after, t) == map[] || InStream(after, t) >= cap)
  {
    var n, cap := BatchSize(streamLen, activeWorkers, settings), settings.maxInStreamPerTenant;
    var (after, sent) := Batch(s, n, cap);
    ShortBatchStops(s, n, cap);
    BatchSendsAtMost(s, n, cap);
    if |sent| < n {
      forall t | Room(after, t) != map[] ensures InStream(after, t) >= cap {
        assert t !in Eligible(after, cap);
      }
    }
  }

  lemma {:induction false} BatchSendsAtMost(s: QueueState, n: nat, cap: int)
    requires Weighted(s)
    ensures |Batch(s, n, cap).1| <= n
    decreases n
  {
    if n > 0 {
      BatchSendsAtMost(Iterate(s, cap).0, n - 1, cap);
    }
  }
}
