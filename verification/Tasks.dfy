/** Task rows, as stored in the `tasks` table. Times are in milliseconds. */
module Tasks {
  import opened SortedSet

  datatype Option<+T> = None | Some(value: T)

  type TaskId = Name
  type TenantId = Name
  type WorkerId = Name

  datatype Status = Pending | Running | Succeeded | Failed | Dead

  datatype Task = Task(
    tenant: TenantId,
    demo: bool,
    priority: int,
    createdMs: int,
    originalEnqueueMs: Option<int>,
    status: Status,
    attempts: nat,
    maxAttempts: int,
    lockedBy: Option<WorkerId>,
    nextRetryMs: Option<int>)

  /** The enqueue time that decides a task's place: the original one if it was recorded. */
  function EnqueueMs(t: Task): int {
    if t.originalEnqueueMs.Some? then t.originalEnqueueMs.value else t.createdMs
  }

  /** Lower is served first: each priority level below 1 costs `aging` milliseconds. */
  function Score(t: Task, aging: int): real {
    (EnqueueMs(t) + (t.priority - 1) * aging) as real
  }
}
