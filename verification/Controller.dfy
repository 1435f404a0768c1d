/** The callbacks the controller hands to its suspicion manager, which run late and on their own (main.go). */
module Controllers {
  import opened Types
  import opened SuspicionSpec
  import opened CallbackSpec
  import opened MembershipLists
  import opened SuspicionManagers

  class Controller {
    const mgr: SuspicionManager
    const membership: MembershipList

    ghost predicate Valid()
      reads mgr`entries, membership`members, membership.members.Values, mgr.entries.Values
    {
      mgr.membership == membership && mgr.Valid()
    }

    constructor (mgr: SuspicionManager)
      requires mgr.Valid()
      ensures Valid() && this.mgr == mgr
    {
      this.mgr, membership := mgr, mgr.membership;
    }

    method OnSuspect(target: NodeID, inc: int, now: int)
      requires Valid()
      modifies membership.members.Values, mgr.network
      ensures Valid() && mgr.View() == RunOnSuspect(old(mgr.View()), target, inc, now)
    {
      hide MembershipList.Table, SuspicionManager.EntryTable, Broadcast;
      membership.RecordOf(target);
      if target in membership.members {
        var r := membership.members[target].Record();
        membership.Write(target, r.(status := Suspected, inc := inc, since := At(now)));
      }
      mgr.Spread(Message(Suspect, membership.local, target, inc, 0, []), {membership.local, target});
    }

    method OnConfirm(target: NodeID, inc: int)
      requires Valid()
      modifies membership.members.Values, mgr.network
      ensures Valid() && mgr.View() == RunOnConfirm(old(mgr.View()), target, inc)
    {
      hide MembershipList.Table, SuspicionManager.EntryTable, Broadcast;
      membership.RecordOf(target);
      if target in membership.members {
        var r := membership.members[target].Record();
        membership.Write(target, r.(status := Failed, inc := inc));
      }
      mgr.Spread(Message(Confirm, membership.local, target, inc, 0, []), {membership.local, target});
    }

    method OnClear(target: NodeID, inc: int, now: int)
      requires Valid()
      modifies membership.members.Values, mgr.network
      ensures Valid() && mgr.View() == RunOnClear(old(mgr.View()), target, inc, now)
    {
      hide MembershipList.Table, SuspicionManager.EntryTable, Broadcast;
      membership.RecordOf(target);
      if target in membership.members {
        var r := membership.members[target].Record();
        if inc >= r.inc {
          r := r.(inc := inc);
        }
        membership.Write(target, r.(status := Alive, heartbeat := At(now), since := Zero));
      }
      mgr.Spread(AliveMessage(membership.local, inc), {membership.local, target});
    }

    /** One launched callback gets its turn. */
    method Run(task: Task, now: int)
      requires Valid() && task in mgr.tasks
      modifies mgr`tasks, membership.members.Values, mgr.network
      ensures Valid() && mgr.View() == RunTask(old(mgr.View()), task, now)
    {
      hide MembershipList.Table, SuspicionManager.EntryTable, RunOnSuspect, RunOnConfirm, RunOnClear;
      mgr.tasks := mgr.tasks - multiset{task};
      match task
      case OnSuspect(target, inc, _) => OnSuspect(target, inc, now);
      case OnConfirm(target, inc) => OnConfirm(target, inc);
      case OnClear(target, inc) => OnClear(target, inc, now);
    }
  }
}
