/** The suspicion manager as an object that changes its entries, the membership list and the network in
    place (utils/suspicion.go). Each method is proved to be the transition of the same name. */
module SuspicionManagers {
  import opened Types
  import opened SuspicionSpec
  import opened MembershipLists
  import Spec = SuspicionSpec

  /** What the process has sent. */
  class NetworkLayer {
    var out: set<Packet>

    constructor ()
      ensures out == {}
    {
      out := {};
    }

    method Send(msg: Message, dest: Addr)
      modifies this
      ensures out == old(out) + {Packet(msg, dest)}
    {
      out := out + {Packet(msg, dest)};
    }

    method SendAll(msg: Message, addrs: seq<Addr>)
      modifies this
      ensures out == old(out) + set a | a in addrs :: Packet(msg, a)
    {
      for i := 0 to |addrs|
        invariant out == old(out) + set a | a in addrs[..i] :: Packet(msg, a)
      {
        Send(msg, addrs[i]);
      }
      assert addrs[..|addrs|] == addrs;
    }
  }

  class SuspectEntry {
    const target: NodeID
    const inc: int
    var reporters: map<NodeID, int>
    var firstReport: Instant
    var confirmed: bool
    var confirmedAt: Instant
    var cleanupAfter: Instant

    constructor (target: NodeID, inc: int)
      ensures this.target == target && Value() == NewEntry(inc)
    {
      this.target, this.inc := target, inc;
      reporters, firstReport, confirmed, confirmedAt, cleanupAfter := map[], Zero, false, Zero, Zero;
    }

    function Value(): Entry
      reads this
    {
      Entry(inc, reporters, firstReport, confirmed, confirmedAt, cleanupAfter)
    }

    /** Adds a report; says whether that took the entry over the threshold. */
    method Add(opts: Options, reporter: NodeID, now: int) returns (fires: bool)
      modifies this
      ensures fires == Fires(old(Value()), opts, reporter, now)
      ensures Value() == AddReport(old(Value()), opts, reporter, now)
    {
      reporters := reporters[reporter := now];
      fires := |reporters| >= opts.requireReports && firstReport.Zero?;
      if fires {
        firstReport := At(now);
      }
    }

    method Confirm(opts: Options, now: int)
      modifies this
      ensures Value() == Confirmed(old(Value()), opts, now)
    {
      confirmed, confirmedAt := true, At(now);
      if opts.retention > 0 {
        cleanupAfter := At(now + opts.retention);
      }
    }
  }

  class SuspicionManager {
    const membership: MembershipList
    const network: NetworkLayer
    const opts: Options
    var entries: map<NodeID, SuspectEntry>
    var tasks: multiset<Task>
    ghost var refutations: nat

    ghost function Footprint(): set<object>
      reads this, membership
    {
      {this, membership, network} + membership.members.Values + entries.Values
    }

    ghost predicate Valid()
      reads this`entries, membership`members, membership.members.Values, entries.Values
    {
      membership.Valid() && forall k :: k in entries ==> entries[k].target == k
    }

    ghost function EntryTable(): map<NodeID, Entry>
      reads this`entries, entries.Values
    {
      map k | k in entries :: entries[k].Value()
    }

    /** The state of the process as a value. */
    ghost function View(): Core
      reads this, membership, membership.members.Values, entries.Values, network
    {
      Core(membership.local, membership.Table(), membership.own, membership.log, EntryTable(), network.out,
           tasks, refutations)
    }

    /** The manager runs with the defaults filled in, so that a single report is always enough to start
        from and no timeout is zero. */
    constructor (membership: MembershipList, network: NetworkLayer, opts: Options)
      requires membership.Valid()
      ensures Valid() && this.membership == membership && this.network == network && this.opts == WithDefaults(opts)
      ensures this.opts.requireReports >= 1 && this.opts.timeout != 0 && this.opts.retention != 0
      ensures entries == map[] && tasks == multiset{} && refutations == 0
    {
      this.membership, this.network, this.opts := membership, network, WithDefaults(opts);
      entries, tasks, refutations := map[], multiset{}, 0;
    }

    // ----- entries

    method Open(target: NodeID, inc: int)
      requires Valid()
      modifies this`entries
      ensures Valid() && EntryTable() == old(EntryTable())[target := NewEntry(inc)]
      ensures target in entries && fresh(entries[target]) && entries == old(entries)[target := entries[target]]
    {
      var e := new SuspectEntry(target, inc);
      entries := entries[target := e];
    }

    /** Adds a report to an entry; says whether that took it over the threshold. */
    method AddReporter(target: NodeID, reporter: NodeID, now: int) returns (fires: bool)
      requires Valid() && target in entries
      modifies entries[target]
      ensures Valid()
      ensures fires == Fires(old(entries[target].Value()), opts, reporter, now)
      ensures EntryTable() == old(EntryTable())[target := AddReport(old(entries[target].Value()), opts, reporter, now)]
    {
      hide SuspectEntry.Value, AddReport, Fires;
      fires := entries[target].Add(opts, reporter, now);
    }

    /** One entry, in the manager and as a value. */
    lemma EntryOf(id: NodeID)
      ensures id in entries <==> id in EntryTable()
      ensures id in entries ==> EntryTable()[id] == entries[id].Value()
    {
    }

    /** Files one more report into the entry at hand. */
    method Lodge(target: NodeID, reporter: NodeID, now: int)
      requires Valid() && target in entries
      modifies this`tasks, entries[target], membership.members.Values
      ensures Valid() && entries == old(entries)
      ensures View() == Spec.Lodge(old(View()), opts, old(EntryTable())[target], reporter, target, now)
    {
      hide MembershipList.Table, SuspicionManager.EntryTable, AddReport;
      EntryOf(target);
      var fires := AddReporter(target, reporter, now);
      EntryOf(target);
      if fires {
        Launch(target, now);
      }
    }

    /** The member is suspected and the callback set off. */
    method Launch(target: NodeID, now: int)
      requires Valid() && target in entries
      modifies this`tasks, membership.members.Values
      ensures Valid() && target in old(View()).entries
      ensures var c := old(View());
        View() == c.(table := MarkSuspected(c.table, target, now),
                     tasks := c.tasks + multiset{OnSuspect(target, c.entries[target].inc, c.entries[target].reporters.Keys)})
    {
      hide MembershipList.Table, SuspicionManager.EntryTable;
      EntryOf(target);
      membership.Suspect(target, now);
      tasks := tasks + multiset{OnSuspect(target, entries[target].inc, entries[target].reporters.Keys)};
    }

    /** Filing the first report of a fresh entry. */
    static lemma LodgeOpened(c: Core, o: Options, inc: int, reporter: NodeID, target: NodeID, now: int)
      ensures Spec.Lodge(c.(entries := c.entries[target := NewEntry(inc)]), o, NewEntry(inc), reporter, target, now)
           == Spec.Lodge(c, o, NewEntry(inc), reporter, target, now)
    {
      hide AddReport, Fires, MarkSuspected, NewEntry;
    }

    /** Opens an entry and files its first report. */
    method OpenWith(reporter: NodeID, target: NodeID, inc: int, now: int)
      requires Valid()
      modifies this`entries, this`tasks, membership.members.Values
      ensures Valid() && fresh(entries.Values - old(entries.Values))
      ensures View() == Spec.Lodge(old(View()), opts, NewEntry(inc), reporter, target, now)
    {
      hide MembershipList.Table, SuspicionManager.EntryTable, Spec.Lodge, NewEntry;
      LodgeOpened(View(), opts, inc, reporter, target, now);
      Open(target, inc);
      Lodge(target, reporter, now);
    }

    method ProcessSuspicion(reporter: NodeID, target: NodeID, inc: int, now: int)
      requires Valid()
      modifies Footprint()
      ensures Valid() && membership.members == old(membership.members)
      ensures fresh(entries.Values - old(entries.Values))
      ensures View() == Spec.ProcessSuspicion(old(View()), opts, reporter, target, inc, now)
    {
      hide MembershipList.Table, SuspicionManager.EntryTable, Spec.Lodge, SelfRefute, NewEntry;
      EntryOf(target);
      membership.RecordOf(target);
      if target == membership.local {
        HandleSelfRefutation(inc);
      } else if target in entries {
        if inc == entries[target].inc {
          Lodge(target, reporter, now);
        } else if inc > entries[target].inc {
          OpenWith(reporter, target, inc, now);
        }
      } else {
        var localInc := if target in membership.members then membership.members[target].inc else 0;
        if inc >= localInc {
          OpenWith(reporter, target, inc, now);
        }
      }
    }

    method HandleSelfRefutation(inc: int)
      requires Valid()
      modifies this`refutations, membership`own, network
      ensures Valid() && View() == SelfRefute(old(View()), inc)
    {
      hide MembershipList.Table, SuspicionManager.EntryTable, Broadcast;
      var local := membership.local;
      var newInc := if inc >= membership.own then Int32Succ(inc) else Int32Succ(membership.own);
      membership.own := newInc;
      Spread(AliveMessage(local, newInc), {local});
      refutations := refutations + 1;
    }

    /** Sends a message to every member outside `except`. */
    method Spread(msg: Message, except: set<NodeID>)
      requires Valid()
      modifies network
      ensures network.out == old(network.out) + Broadcast(membership.Table(), msg, except)
    {
      hide MembershipList.Table, Broadcast;
      var recipients := membership.Recipients(except);
      network.SendAll(msg, recipients);
      Delivered(recipients, msg, except);
    }

    /** Sending to the recipients' addresses is broadcasting to the members. */
    lemma Delivered(addrs: seq<Addr>, msg: Message, except: set<NodeID>)
      requires forall a :: a in addrs <==> exists k :: k in membership.members && k !in except && k.Address() == a
      ensures (set a | a in addrs :: Packet(msg, a)) == Broadcast(membership.Table(), msg, except)
    {
      var sent, wanted := set a | a in addrs :: Packet(msg, a), Broadcast(membership.Table(), msg, except);
      forall pk | pk in sent ensures pk in wanted {
        var k :| k in membership.members && k !in except && k.Address() == pk.dest;
        assert k in membership.Table();
      }
      forall pk | pk in wanted ensures pk in sent {
        var k :| k in membership.Table() && k !in except && pk == Packet(msg, k.Address());
        assert k.Address() in addrs;
      }
    }

    method Forget(target: NodeID)
      requires Valid()
      modifies this`entries
      ensures Valid() && EntryTable() == old(EntryTable()) - {target} && entries == old(entries) - {target}
    {
      entries := entries - {target};
    }

    method ClearSuspect(target: NodeID, inc: int)
      requires Valid()
      modifies this`entries, this`tasks, membership.members.Values
      ensures Valid() && membership.members == old(membership.members)
      ensures entries.Values <= old(entries.Values)
      ensures View() == Spec.ClearSuspect(old(View()), target, inc)
    {
      hide MembershipList.Table, SuspicionManager.EntryTable, MarkAlive;
      EntryOf(target);
      if target !in entries {
        membership.Revive(target, inc);
        return;
      }
      if inc < entries[target].inc {
        return;
      }
      Forget(target);
      membership.Revive(target, inc);
      tasks := tasks + multiset{OnClear(target, inc)};
    }

    /** Confirms one entry. */
    method Confirm(id: NodeID, now: int)
      requires Valid() && id in entries
      modifies entries[id]
      ensures Valid() && EntryTable() == old(EntryTable())[id := Confirmed(old(EntryTable())[id], opts, now)]
    {
      hide SuspectEntry.Value;
      var e := entries[id];
      e.Confirm(opts, now);
    }

    /** `was` once the due entries among `done` have been confirmed. */
    static function ConfirmedIn(was: map<NodeID, Entry>, o: Options, now: int, done: set<NodeID>): map<NodeID, Entry> {
      map k | k in was :: if k in done && Due(was[k], o, now) then Confirmed(was[k], o, now) else was[k]
    }

    static function DueAmong(was: map<NodeID, Entry>, o: Options, now: int, done: set<NodeID>): map<NodeID, int> {
      map k | k in was && k in done && Due(was[k], o, now) :: was[k].inc
    }

    static function SpentAmong(was: map<NodeID, Entry>, o: Options, now: int, done: set<NodeID>): set<NodeID> {
      set k | k in was && k in done && Spent(was[k], o, now)
    }

    static lemma OneMore(was: map<NodeID, Entry>, o: Options, now: int, done: set<NodeID>, k: NodeID)
      requires k in was && k !in done
      ensures ConfirmedIn(was, o, now, done)[k] == was[k]
      ensures ConfirmedIn(was, o, now, done + {k}) ==
        if Due(was[k], o, now) then ConfirmedIn(was, o, now, done)[k := Confirmed(was[k], o, now)] else ConfirmedIn(was, o, now, done)
      ensures DueAmong(was, o, now, done + {k}) ==
        if Due(was[k], o, now) then DueAmong(was, o, now, done)[k := was[k].inc] else DueAmong(was, o, now, done)
      ensures SpentAmong(was, o, now, done + {k}) ==
        if Spent(was[k], o, now) then SpentAmong(was, o, now, done) + {k} else SpentAmong(was, o, now, done)
    {
    }

    static lemma AllDone(was: map<NodeID, Entry>, o: Options, now: int)
      ensures ConfirmedIn(was, o, now, {}) == was && DueAmong(was, o, now, {}) == map[] && SpentAmong(was, o, now, {}) == {}
      ensures ConfirmedIn(was, o, now, was.Keys) - SpentAmong(was, o, now, was.Keys) == CheckedEntries(was, o, now)
    {
    }

    /** The entries part of the tick: due entries are confirmed, entries whose retention is over are
        forgotten. Returns what has been confirmed, and at which incarnations. */
    method ScanEntries(now: int) returns (confirmed: map<NodeID, int>)
      requires Valid()
      modifies this`entries, entries.Values
      ensures Valid() && entries.Values <= old(entries.Values)
      ensures EntryTable() == CheckedEntries(old(EntryTable()), opts, now)
      ensures confirmed == DueAmong(old(EntryTable()), opts, now, old(EntryTable()).Keys)
    {
      hide SuspicionManager.EntryTable, ConfirmedIn, DueAmong, SpentAmong, Confirmed, CheckedEntries;
      ghost var was := EntryTable();
      AllDone(was, opts, now);
      EntryKeys();
      confirmed := map[];
      var spent: set<NodeID> := {};
      var todo := entries.Keys;
      ghost var done: set<NodeID> := {};
      while todo != {}
        invariant Valid() && entries == old(entries) && done == entries.Keys - todo && todo <= entries.Keys
        invariant EntryTable() == ConfirmedIn(was, opts, now, done)
        invariant confirmed == DueAmong(was, opts, now, done)
        invariant spent == SpentAmong(was, opts, now, done)
        decreases todo
      {
        var key :| key in todo;
        todo := todo - {key};
        OneMore(was, opts, now, done, key);
        EntryOf(key);
        done := done + {key};
        var e := entries[key];
        if e.firstReport.At? {
          if e.confirmed {
            if opts.retention > 0 && e.cleanupAfter.At? && now > e.cleanupAfter.t {
              spent := spent + {key};
            }
          } else if now - e.firstReport.t >= opts.timeout {
            Confirm(key, now);
            confirmed := confirmed[key := e.inc];
          }
        }
      }
      assert done == was.Keys;
      ForgetAll(spent);
    }

    lemma EntryKeys()
      ensures EntryTable().Keys == entries.Keys
    {
    }

    method ForgetAll(ids: set<NodeID>)
      requires Valid()
      modifies this`entries
      ensures Valid() && EntryTable() == old(EntryTable()) - ids && entries == old(entries) - ids
    {
      entries := entries - ids;
    }

    /** `table` once the members among `done` have been marked failed. */
    static function FailedIn(table: map<NodeID, Rec>, done: set<NodeID>): map<NodeID, Rec> {
      map k | k in table :: if k in done then table[k].(status := Failed) else table[k]
    }

    static function TasksFor(table: map<NodeID, Rec>, confirmed: map<NodeID, int>, done: set<NodeID>): set<Task> {
      set k | k in done && k in table && k in confirmed :: OnConfirm(k, confirmed[k])
    }

    static lemma OneMoreFailed(table: map<NodeID, Rec>, confirmed: map<NodeID, int>, done: set<NodeID>, k: NodeID)
      requires k in confirmed && k !in done
      ensures k in table ==>
        && FailedIn(table, done)[k] == table[k]
        && FailedIn(table, done + {k}) == FailedIn(table, done)[k := table[k].(status := Failed)]
        && OnConfirm(k, confirmed[k]) !in TasksFor(table, confirmed, done)
        && TasksFor(table, confirmed, done + {k}) == TasksFor(table, confirmed, done) + {OnConfirm(k, confirmed[k])}
      ensures k !in table ==>
        FailedIn(table, done + {k}) == FailedIn(table, done)
        && TasksFor(table, confirmed, done + {k}) == TasksFor(table, confirmed, done)
    {
    }

    static lemma Marked(c: Core, o: Options, now: int)
      ensures FailedIn(c.table, {}) == c.table && TasksFor(c.table, DueAmong(c.entries, o, now, c.entries.Keys), {}) == {}
      ensures var due := DueAmong(c.entries, o, now, c.entries.Keys);
        && FailedIn(c.table, due.Keys) == Spec.Check(c, o, now).table
        && TasksFor(c.table, due, due.Keys) == ConfirmTasks(c, o, now)
    {
    }

    /** Marks one confirmed member failed. */
    method MarkOne(target: NodeID, confirmed: map<NodeID, int>, ghost table: map<NodeID, Rec>, ghost done: set<NodeID>)
      requires Valid() && target in confirmed && target !in done
      requires membership.Table() == FailedIn(table, done)
      modifies this`tasks, membership.members.Values
      ensures Valid() && EntryTable() == old(EntryTable())
      ensures membership.Table() == FailedIn(table, done + {target})
      ensures tasks == old(tasks) + multiset(TasksFor(table, confirmed, done + {target}) - TasksFor(table, confirmed, done))
    {
      hide MembershipList.Table, SuspicionManager.EntryTable, FailedIn, TasksFor;
      OneMoreFailed(table, confirmed, done, target);
      KeysFailed(table, done);
      membership.RecordOf(target);
      if target in membership.members {
        membership.Fail(target);
        tasks := tasks + multiset{OnConfirm(target, confirmed[target])};
      }
    }

    /** The table part of the tick. */
    method MarkFailed(confirmed: map<NodeID, int>)
      requires Valid()
      modifies this`tasks, membership.members.Values
      ensures Valid() && EntryTable() == old(EntryTable())
      ensures membership.Table() == FailedIn(old(membership.Table()), confirmed.Keys)
      ensures tasks == old(tasks) + multiset(TasksFor(old(membership.Table()), confirmed, confirmed.Keys))
    {
      hide MembershipList.Table, SuspicionManager.EntryTable, FailedIn, TasksFor, SuspicionManager.Valid;
      ghost var table := membership.Table();
      NoneFailed(table, confirmed);
      var todo := confirmed.Keys;
      ghost var done: set<NodeID> := {};
      while todo != {}
        invariant Valid() && todo <= confirmed.Keys && done == confirmed.Keys - todo
        invariant EntryTable() == old(EntryTable()) && membership.Table() == FailedIn(table, done)
        invariant tasks == old(tasks) + multiset(TasksFor(table, confirmed, done))
        decreases todo
      {
        var target :| target in todo;
        todo := todo - {target};
        MarkOne(target, confirmed, table, done);
        MoreTasks(table, confirmed, done, target);
        done := done + {target};
      }
      assert done == confirmed.Keys;
    }

    static lemma MoreTasks(table: map<NodeID, Rec>, confirmed: map<NodeID, int>, done: set<NodeID>, k: NodeID)
      ensures var before, after := TasksFor(table, confirmed, done), TasksFor(table, confirmed, done + {k});
        multiset(before) + multiset(after - before) == multiset(after)
    {
      assert TasksFor(table, confirmed, done) <= TasksFor(table, confirmed, done + {k});
    }

    static lemma KeysFailed(table: map<NodeID, Rec>, done: set<NodeID>)
      ensures FailedIn(table, done).Keys == table.Keys
    {
    }

    static lemma NoneFailed(table: map<NodeID, Rec>, confirmed: map<NodeID, int>)
      ensures FailedIn(table, {}) == table && TasksFor(table, confirmed, {}) == {}
    {
    }

    /** The tick: confirms the entries that are due, forgets those whose retention is over, and marks the
        confirmed members failed. */
    method Check(now: int)
      requires Valid()
      modifies this`entries, this`tasks, membership.members.Values, entries.Values
      ensures Valid() && membership.members == old(membership.members)
      ensures entries.Values <= old(entries.Values)
      ensures View() == Spec.Check(old(View()), opts, now)
    {
      hide MembershipList.Table, SuspicionManager.EntryTable, FailedIn, TasksFor, DueAmong, CheckedEntries, ConfirmTasks;
      ghost var c := View();
      var confirmed := ScanEntries(now);
      Marked(c, opts, now);
      MarkFailed(confirmed);
    }
  }
}
