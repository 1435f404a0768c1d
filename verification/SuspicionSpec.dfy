/** What one process knows, and the transitions of its suspicion manager (utils/suspicion.go). */
module SuspicionSpec {
  import opened Types

  datatype Options = Options(timeout: int, requireReports: int, retention: int)

  /** The options a manager runs with, once NewSuspicionManager has filled in its defaults. */
  function WithDefaults(o: Options): Options {
    Options(if o.timeout == 0 then 2 * SECOND else o.timeout,
            if o.requireReports <= 0 then 1 else o.requireReports,
            if o.retention == 0 then 3 * SECOND else o.retention)
  }

  /** A suspicion under way: who reported it and how far it has come. */
  datatype Entry = Entry(inc: int, reporters: map<NodeID, int>, firstReport: Instant,
                         confirmed: bool, confirmedAt: Instant, cleanupAfter: Instant)

  /** A callback that has been launched on its own goroutine and has not run yet. */
  datatype Task =
    | OnSuspect(target: NodeID, inc: int, reporters: set<NodeID>)
    | OnConfirm(target: NodeID, inc: int)
    | OnClear(target: NodeID, inc: int)

  /** The state of one process that both detectors share. `out` holds every packet it has ever sent
      (a packet may be lost, delivered late or delivered twice, so none is removed), `tasks` the
      callbacks still to run, and `refutations` counts the suspicions of itself it has refuted. */
  datatype Core = Core(
    local: NodeID,
    table: map<NodeID, Rec>,
    own: int,
    log: seq<Update>,
    entries: map<NodeID, Entry>,
    out: set<Packet>,
    tasks: multiset<Task>,
    refutations: nat)

  /** One copy of `msg` for every table member outside `except`. */
  function Broadcast(table: map<NodeID, Rec>, msg: Message, except: set<NodeID>): set<Packet> {
    set k | k in table && k !in except :: Packet(msg, k.Address())
  }

  function NewEntry(inc: int): Entry {
    Entry(inc, map[], Zero, false, Zero, Zero)
  }

  /** What the lookup of a report's target finds. */
  datatype Admission = Absent | Stale | Outdated | Current

  function Admit(entries: map<NodeID, Entry>, target: NodeID, inc: int): Admission {
    if target !in entries then Absent
    else if inc < entries[target].inc then Stale
    else if inc > entries[target].inc then Outdated
    else Current
  }

  /** Does one more report take `e` over the reporting threshold for the first time? */
  predicate Fires(e: Entry, o: Options, reporter: NodeID, now: int) {
    e.firstReport.Zero? && |e.reporters[reporter := now]| >= o.requireReports
  }

  function AddReport(e: Entry, o: Options, reporter: NodeID, now: int): Entry {
    e.(reporters := e.reporters[reporter := now],
       firstReport := if Fires(e, o, reporter, now) then At(now) else e.firstReport)
  }

  function RecordedInc(table: map<NodeID, Rec>, id: NodeID): int {
    if id in table then table[id].inc else 0
  }

  function MarkSuspected(table: map<NodeID, Rec>, target: NodeID, now: int): map<NodeID, Rec> {
    if target in table then table[target := table[target].(status := Suspected, since := At(now))] else table
  }

  /** Files one more report into `e`, the entry for `target`. */
  function Lodge(c: Core, o: Options, e: Entry, reporter: NodeID, target: NodeID, now: int): Core {
    var e' := AddReport(e, o, reporter, now);
    var c' := c.(entries := c.entries[target := e']);
    if Fires(e, o, reporter, now) then
      c'.(table := MarkSuspected(c.table, target, now),
          tasks := c.tasks + multiset{OnSuspect(target, e'.inc, e'.reporters.Keys)})
    else
      c'
  }

  function ProcessSuspicion(c: Core, o: Options, reporter: NodeID, target: NodeID, inc: int, now: int): Core {
    if target == c.local then
      SelfRefute(c, inc)
    else
      match Admit(c.entries, target, inc)
      case Stale => c
      case Absent =>
        if inc < RecordedInc(c.table, target) then c
        else Lodge(c, o, NewEntry(inc), reporter, target, now)
      case Outdated => Lodge(c, o, NewEntry(inc), reporter, target, now)
      case Current => Lodge(c, o, c.entries[target], reporter, target, now)
  }

  /** The counter value that refutes a suspicion of oneself at `inc`. */
  function RefutingInc(own: int, inc: int): int {
    if inc >= own then Int32Succ(inc) else Int32Succ(own)
  }

  function AliveMessage(sender: NodeID, inc: int): Message {
    Message(AliveMsg, sender, NO_NODE, inc, 0, [])
  }

  function SelfRefute(c: Core, inc: int): Core {
    var n := RefutingInc(c.own, inc);
    c.(own := n,
       out := c.out + Broadcast(c.table, AliveMessage(c.local, n), {c.local}),
       refutations := c.refutations + 1)
  }

  function MarkAlive(table: map<NodeID, Rec>, target: NodeID, inc: int): map<NodeID, Rec> {
    if target in table && inc >= table[target].inc then
      table[target := table[target].(status := Alive, inc := inc)]
    else
      table
  }

  function ClearSuspect(c: Core, target: NodeID, inc: int): Core {
    if target !in c.entries then
      c.(table := MarkAlive(c.table, target, inc))
    else if inc < c.entries[target].inc then
      c
    else
      c.(entries := c.entries - {target},
         table := MarkAlive(c.table, target, inc),
         tasks := c.tasks + multiset{OnClear(target, inc)})
  }

  /** An unconfirmed entry whose threshold report has aged past the timeout. */
  predicate Due(e: Entry, o: Options, now: int) {
    e.firstReport.At? && !e.confirmed && now - e.firstReport.t >= o.timeout
  }

  /** A confirmed entry whose retention is over. */
  predicate Spent(e: Entry, o: Options, now: int) {
    && e.firstReport.At? && e.confirmed
    && o.retention > 0 && e.cleanupAfter.At? && now > e.cleanupAfter.t
  }

  function Confirmed(e: Entry, o: Options, now: int): Entry {
    e.(confirmed := true, confirmedAt := At(now),
       cleanupAfter := if o.retention > 0 then At(now + o.retention) else e.cleanupAfter)
  }

  function CheckedEntries(entries: map<NodeID, Entry>, o: Options, now: int): map<NodeID, Entry> {
    map k | k in entries && !Spent(entries[k], o, now) ::
      if Due(entries[k], o, now) then Confirmed(entries[k], o, now) else entries[k]
  }

  predicate DueIn(entries: map<NodeID, Entry>, k: NodeID, o: Options, now: int) {
    k in entries && Due(entries[k], o, now)
  }

  function ConfirmTasks(c: Core, o: Options, now: int): set<Task> {
    set k | k in c.entries && k in c.table && Due(c.entries[k], o, now) :: OnConfirm(k, c.entries[k].inc)
  }

  function Check(c: Core, o: Options, now: int): Core {
    c.(entries := CheckedEntries(c.entries, o, now),
       table := map k | k in c.table ::
         if DueIn(c.entries, k, o, now) then c.table[k].(status := Failed) else c.table[k],
       tasks := c.tasks + multiset(ConfirmTasks(c, o, now)))
  }
}
