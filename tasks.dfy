/**
 * The `Optional[asyncio.Task]` slots that the services keep for their
 * background loops.  Only what the start/stop code looks at is kept: whether
 * the slot is empty and, if not, whether the task has finished (`done()`).
 */
module Tasks {

  datatype Slot = Empty | Live(done: bool) {
    /** `task and not task.done()`: a loop is currently running in this slot. */
    predicate Running() { Live? && !done }
  }

  /** Start guard shared by every service: create a task unless one is running. */
  function Started(s: Slot): (r: Slot)
    ensures r.Running()
    ensures s.Running() ==> r == s
  {
    if s.Running() then s else Live(false)
  }

  lemma StartIsIdempotent(s: Slot)
    ensures Started(Started(s)) == Started(s)
  {
  }
}
