/** The three callbacks a controller gives its suspicion manager (main.go). */
module CallbackSpec {
  import opened Types
  import opened SuspicionSpec

  function RunOnSuspect(c: Core, target: NodeID, inc: int, now: int): Core {
    var table :=
      if target in c.table
      then c.table[target := c.table[target].(status := Suspected, inc := inc, since := At(now))]
      else c.table;
    c.(table := table,
       out := c.out + Broadcast(table, Message(Suspect, c.local, target, inc, 0, []), {c.local, target}))
  }

  function RunOnConfirm(c: Core, target: NodeID, inc: int): Core {
    var table :=
      if target in c.table then c.table[target := c.table[target].(status := Failed, inc := inc)] else c.table;
    c.(table := table,
       out := c.out + Broadcast(table, Message(Confirm, c.local, target, inc, 0, []), {c.local, target}))
  }

  function ClearedTable(c: Core, target: NodeID, inc: int, now: int): map<NodeID, Rec> {
    if target in c.table then
      c.table[target := Rec(Max(c.table[target].inc, inc), Alive, At(now), Zero)]
    else
      c.table
  }

  /** The broadcast is signed by the local node but carries the incarnation of `target`. */
  function RunOnClear(c: Core, target: NodeID, inc: int, now: int): Core {
    var table := ClearedTable(c, target, inc, now);
    c.(table := table,
       out := c.out + Broadcast(table, AliveMessage(c.local, inc), {c.local, target}))
  }

  /** Takes `task` off the bag and runs it. */
  function RunTask(c: Core, task: Task, now: int): Core {
    var c' := c.(tasks := c.tasks - multiset{task});
    match task
    case OnSuspect(target, inc, _) => RunOnSuspect(c', target, inc, now)
    case OnConfirm(target, inc) => RunOnConfirm(c', target, inc)
    case OnClear(target, inc) => RunOnClear(c', target, inc, now)
  }
}
