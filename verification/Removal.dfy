/** How long the gossip detector takes to remove a member that has gone silent. */
module Removal {
  import opened Types
  import opened SuspicionSpec
  import opened DetectorSpec
  import opened GossipSpec
  import opened CallbackSpec

  /** Runs the callbacks in `order`, all at time `now`. */
  function RunAll(c: Core, order: seq<Task>, now: int): Core {
    if order == [] then c else RunTask(RunAll(c, order[..|order| - 1], now), order[|order| - 1], now)
  }

  /** What happens at one moment of a process: a tick of the gossip checker, a tick of the suspicion
      manager, or something that does not concern the member under observation. */
  datatype Beat =
    | Checker(t: int, silent: seq<NodeID>, removed: seq<NodeID>, order: seq<Task>)
    | Manager(t: int, order: seq<Task>)
    | Elsewhere(t: int)

  predicate SameMember(c: Core, c': Core, x: NodeID) {
    && (x in c'.table <==> x in c.table) && (x in c.table ==> c'.table[x] == c.table[x])
    && (x in c'.entries <==> x in c.entries) && (x in c.entries ==> c'.entries[x] == c.entries[x])
  }

  /** The beat takes `c` to `c'`, its callbacks run at once. */
  ghost predicate Beats(o: Options, ts: Timeouts, susp: bool, x: NodeID, c: Core, b: Beat, c': Core) {
    match b
    case Checker(t, silent, removed, order) =>
      && Enumerates(silent, SilentSet(c, ts, susp, t))
      && Enumerates(removed, RemovableSet(c, ts, susp, t))
      && var c1 := GossipCheck(c, o, ts, susp, t, silent, removed);
         multiset(order) == c1.tasks && c' == RunAll(c1, order, t)
    case Manager(t, order) =>
      var c1 := Check(c, o, t);
      multiset(order) == c1.tasks && c' == RunAll(c1, order, t)
    case Elsewhere(_) => c'.local != x && SameMember(c, c', x) && c'.tasks == multiset{}
  }

  /** Moments on a monotone clock in which nobody says anything about `x`. */
  ghost predicate Silence(o: Options, ts: Timeouts, susp: bool, x: NodeID, states: seq<Core>, beats: seq<Beat>) {
    && |states| == |beats| + 1
    && states[0].tasks == multiset{} && states[0].local != x
    && (forall j :: 0 <= j < |beats| ==> Beats(o, ts, susp, x, states[j], beats[j], states[j + 1]))
    && (forall j, k :: 0 <= j <= k < |beats| ==> beats[j].t <= beats[k].t)
  }

  /** From `from` on, checker ticks are at most `d` apart. */
  ghost predicate Dense(beats: seq<Beat>, from: int, d: int) {
    forall w :: from <= w && beats != [] && w + d <= beats[|beats| - 1].t ==> TickWithin(beats, w, d)
  }

  ghost predicate TickWithin(beats: seq<Beat>, w: int, d: int) {
    exists j :: 0 <= j < |beats| && beats[j].Checker? && w <= beats[j].t <= w + d
  }

  // ----- callbacks

  /** The callback leaves status, heartbeat and suspicion time of the record as they are. */
  predicate Settled(r: Rec, task: Task, now: int) {
    (task.OnSuspect? && r.status.Suspected? && r.since == At(now)) || (task.OnConfirm? && r.status.Failed?)
  }

  predicate SameTimes(r: Rec, r': Rec) {
    r'.status == r.status && r'.heartbeat == r.heartbeat && r'.since == r.since
  }

  lemma RunTaskOn(c: Core, task: Task, now: int, x: NodeID)
    requires x in c.table && (task.target == x ==> Settled(c.table[x], task, now))
    ensures var c' := RunTask(c, task, now);
      && c'.local == c.local && c'.entries == c.entries && c'.tasks == c.tasks - multiset{task}
      && x in c'.table && SameTimes(c.table[x], c'.table[x])
      && (task.target != x ==> c'.table[x] == c.table[x])
  {
    hide Broadcast;
  }

  lemma RunTaskOff(c: Core, task: Task, now: int, x: NodeID)
    requires x !in c.table
    ensures var c' := RunTask(c, task, now);
      c'.local == c.local && c'.entries == c.entries && c'.tasks == c.tasks - multiset{task} && x !in c'.table
  {
    hide Broadcast;
  }

  lemma {:induction false} RunAllOn(c: Core, order: seq<Task>, now: int, x: NodeID)
    requires x in c.table
    requires forall t :: t in order && t.target == x ==> Settled(c.table[x], t, now)
    ensures var c' := RunAll(c, order, now);
      && c'.local == c.local && c'.entries == c.entries && c'.tasks == c.tasks - multiset(order)
      && x in c'.table && SameTimes(c.table[x], c'.table[x])
      && ((forall t :: t in order ==> t.target != x) ==> c'.table[x] == c.table[x])
  {
    hide RunTask;
    if order != [] {
      var n := |order| - 1;
      assert order == order[..n] + [order[n]];
      RunAllOn(c, order[..n], now, x);
      RunTaskOn(RunAll(c, order[..n], now), order[n], now, x);
    }
  }

  lemma {:induction false} RunAllOff(c: Core, order: seq<Task>, now: int, x: NodeID)
    requires x !in c.table
    ensures var c' := RunAll(c, order, now);
      c'.local == c.local && c'.entries == c.entries && c'.tasks == c.tasks - multiset(order) && x !in c'.table
  {
    hide RunTask;
    if order != [] {
      var n := |order| - 1;
      assert order == order[..n] + [order[n]];
      RunAllOff(c, order[..n], now, x);
      RunTaskOff(RunAll(c, order[..n], now), order[n], now, x);
    }
  }

  // ----- the checker

  /** What a report about `id` can change of `x`. */
  predicate ReportEffect(c: Core, c': Core, id: NodeID, now: int, x: NodeID) {
    && c'.local == c.local
    && (x in c'.table <==> x in c.table)
    && (x in c.table && (id != x || (c.table[x].status.Suspected? && c.table[x].since == At(now))) ==> c'.table[x] == c.table[x])
    && (id != x ==> (x in c'.entries <==> x in c.entries) && (x in c.entries ==> c'.entries[x] == c.entries[x]))
  }

  lemma LodgeOn(c: Core, o: Options, e: Entry, reporter: NodeID, id: NodeID, now: int, x: NodeID)
    ensures var c' := Lodge(c, o, e, reporter, id, now);
      ReportEffect(c, c', id, now, x)
      && forall t :: t in c'.tasks && t.target == x ==> t in c.tasks || (t.OnSuspect? && id == x)
  {
    hide AddReport, Fires;
  }

  lemma ProcessSuspicionOn(c: Core, o: Options, reporter: NodeID, id: NodeID, inc: int, now: int, x: NodeID)
    ensures var c' := ProcessSuspicion(c, o, reporter, id, inc, now);
      ReportEffect(c, c', id, now, x)
      && forall t :: t in c'.tasks && t.target == x ==> t in c.tasks || (t.OnSuspect? && id == x)
  {
    hide Lodge, Broadcast, ReportEffect;
    LodgeOn(c, o, NewEntry(inc), reporter, id, now, x);
    if id in c.entries {
      LodgeOn(c, o, c.entries[id], reporter, id, now, x);
    }
    assert ReportEffect(c, c, id, now, x) && ReportEffect(c, SelfRefute(c, inc), id, now, x) by {
      NoEffect(c, inc, id, now, x);
    }
  }

  lemma NoEffect(c: Core, inc: int, id: NodeID, now: int, x: NodeID)
    ensures ReportEffect(c, c, id, now, x) && ReportEffect(c, SelfRefute(c, inc), id, now, x)
  {
    hide Broadcast;
  }

  lemma {:induction false} ReportSilentOn(c: Core, o: Options, ids: seq<NodeID>, table: map<NodeID, Rec>,
          now: int, x: NodeID)
    requires x in ids && x in c.table ==> c.table[x].status.Suspected? && c.table[x].since == At(now)
    ensures var c' := ReportSilent(c, o, ids, table, now);
      && c'.local == c.local
      && (x in c'.table <==> x in c.table)
      && (x in c.table ==> c'.table[x] == c.table[x])
      && (forall t :: t in c'.tasks && t.target == x ==> t in c.tasks || (t.OnSuspect? && x in ids))
      && (x !in ids ==> (x in c'.entries <==> x in c.entries) && (x in c.entries ==> c'.entries[x] == c.entries[x]))
  {
    hide ProcessSuspicion;
    if ids != [] {
      var n := |ids| - 1;
      assert ids == ids[..n] + [ids[n]];
      ReportSilentOn(c, o, ids[..n], table, now, x);
      var inc := RecordedInc(table, ids[n]);
      var c1 := Append(ReportSilent(c, o, ids[..n], table, now), Update(ids[n], inc, Suspected, now));
      ProcessSuspicionOn(c1, o, c.local, ids[n], inc, now, x);
    }
  }

  /** What a checker tick, callbacks included, makes of the record of `x`. */
  lemma CheckerOn(o: Options, ts: Timeouts, susp: bool, x: NodeID, c: Core, b: Beat, c': Core)
    requires Beats(o, ts, susp, x, c, b, c') && b.Checker? && c.tasks == multiset{} && c.local != x
    ensures c'.local == c.local && c'.tasks == multiset{}
    ensures x in c'.table <==> x in c.table && !Removable(c.table[x], ts, susp, b.t)
    ensures x in c'.table ==>
      if susp && Silent(c.table[x], ts, b.t)
      then SameTimes(c.table[x].(status := Suspected, since := At(b.t)), c'.table[x])
      else c'.table[x] == c.table[x]
    ensures !susp ==> (x in c'.entries <==> x in c.entries)
  {
    hide ReportSilent, Silent, Removable, RunAll;
    var c0 := Swept(c, ts, susp, b.t);
    var c1 := GossipCheck(c, o, ts, susp, b.t, b.silent, b.removed);
    SilentIsAlive(c, ts, b.t, x);
    ReportSilentOn(c0, o, b.silent, c.table, b.t, x);
    forall t | t in b.order && t.target == x
      ensures t.OnSuspect? && x in b.silent
    {
      assert t in multiset(b.order);
    }
    if x in c1.table {
      RunAllOn(c1, b.order, b.t, x);
    } else {
      RunAllOff(c1, b.order, b.t, x);
    }
  }

  lemma SilentIsAlive(c: Core, ts: Timeouts, now: int, x: NodeID)
    ensures x in c.table && Silent(c.table[x], ts, now) ==> c.table[x].status.Alive? && !Removable(c.table[x], ts, true, now)
  {
  }

  /** What a manager tick, callbacks included, makes of it: nothing, or Failed. */
  lemma ManagerOn(o: Options, ts: Timeouts, susp: bool, x: NodeID, c: Core, b: Beat, c': Core)
    requires Beats(o, ts, susp, x, c, b, c') && b.Manager? && c.tasks == multiset{}
    ensures c'.local == c.local && c'.tasks == multiset{}
    ensures x in c'.table <==> x in c.table
    ensures x in c.table ==>
      c'.table[x] == c.table[x] || SameTimes(c.table[x].(status := Failed), c'.table[x])
    ensures x !in c.entries ==> x !in c'.entries && (x in c.table ==> c'.table[x] == c.table[x])
  {
    hide RunAll, Spent, Due, Confirmed;
    var c1 := Check(c, o, b.t);
    forall t | t in b.order && t.target == x
      ensures t.OnConfirm? && DueIn(c.entries, x, o, b.t)
    {
      assert t in multiset(b.order);
      assert t in ConfirmTasks(c, o, b.t);
    }
    if x in c1.table {
      RunAllOn(c1, b.order, b.t, x);
    } else {
      RunAllOff(c1, b.order, b.t, x);
    }
  }

  // ----- suspicion off

  /** `x` is as it was: Alive, last heard of at `h`, and under no suspicion. */
  predicate Untouched(c: Core, x: NodeID, h: int) {
    x in c.table && c.table[x].status.Alive? && c.table[x].heartbeat == At(h) && x !in c.entries
  }

  lemma UntouchedStep(o: Options, ts: Timeouts, x: NodeID, c: Core, b: Beat, c': Core, h: int)
    requires Beats(o, ts, false, x, c, b, c') && c.tasks == multiset{} && c.local != x && Untouched(c, x, h)
    ensures c'.tasks == multiset{} && c'.local != x
    ensures if b.Checker? && b.t >= h + SuspectThreshold(ts) then x !in c'.table else Untouched(c', x, h)
  {
    hide RunAll, GossipCheck, Check, SuspectThreshold, ConfirmThreshold;
    match b
    case Checker(_, _, _, _) => CheckerOn(o, ts, false, x, c, b, c');
    case Manager(_, _) => ManagerOn(o, ts, false, x, c, b, c');
    case Elsewhere(_) =>
  }

  lemma {:induction false} UntouchedUntil(o: Options, ts: Timeouts, x: NodeID, states: seq<Core>,
          beats: seq<Beat>, h: int, n: nat)
    requires Silence(o, ts, false, x, states, beats) && Untouched(states[0], x, h) && n < |states|
    requires forall j :: 0 <= j < n && beats[j].Checker? ==> beats[j].t < h + SuspectThreshold(ts)
    ensures Untouched(states[n], x, h) && states[n].tasks == multiset{} && states[n].local != x
    decreases n
  {
    hide Beats, Untouched, SuspectThreshold;
    if n > 0 {
      UntouchedUntil(o, ts, x, states, beats, h, n - 1);
      UntouchedStep(o, ts, x, states[n - 1], beats[n - 1], states[n], h);
    }
  }

  /** The first checker tick at or after `lo`, given that there is one. */
  lemma {:induction false} FirstTick(beats: seq<Beat>, lo: int, k: nat) returns (j: nat)
    requires k < |beats| && beats[k].Checker? && beats[k].t >= lo
    ensures j <= k && beats[j].Checker? && beats[j].t >= lo
    ensures forall i :: 0 <= i < j && beats[i].Checker? ==> beats[i].t < lo
    decreases k
  {
    if i :| 0 <= i < k && beats[i].Checker? && beats[i].t >= lo {
      j := FirstTick(beats, lo, i);
    } else {
      j := k;
    }
  }

  /** With suspicion off, a member last heard of at `h` is removed by a checker tick between h+F and
      h+F+D, and is left exactly as it was until then. */
  lemma RemovedOnTime(o: Options, ts: Timeouts, x: NodeID, states: seq<Core>, beats: seq<Beat>, h: int, d: nat)
    returns (j: nat)
    requires Silence(o, ts, false, x, states, beats) && Untouched(states[0], x, h)
    requires Dense(beats, h, d) && beats != [] && h + SuspectThreshold(ts) + d <= beats[|beats| - 1].t
    ensures j < |beats| && beats[j].Checker? && h + SuspectThreshold(ts) <= beats[j].t <= h + SuspectThreshold(ts) + d
    ensures (forall i :: 0 <= i <= j ==> Untouched(states[i], x, h)) && x !in states[j + 1].table
  {
    hide Untouched, Beats;
    var f := SuspectThreshold(ts);
    assert TickWithin(beats, h + f, d);
    var k :| 0 <= k < |beats| && beats[k].Checker? && h + f <= beats[k].t <= h + f + d;
    j := FirstTick(beats, h + f, k);
    forall i | 0 <= i <= j ensures Untouched(states[i], x, h) {
      UntouchedUntil(o, ts, x, states, beats, h, i);
    }
    UntouchedUntil(o, ts, x, states, beats, h, j);
    UntouchedStep(o, ts, x, states[j], beats[j], states[j + 1], h);
  }

  // ----- suspicion on

  /** The latest moment at which the record can still be there, given `late`, the latest moment at which
      the checker notices the silence. It never moves back, and a tick at or past it removes the record. */
  function Deadline(r: Rec, ts: Timeouts, h: int, late: int): int {
    match r.status
    case Alive => late + ConfirmThreshold(ts)
    case Suspected => (if r.since.At? then r.since.t else late) + ConfirmThreshold(ts)
    case Failed => h + ts.cleanup
  }

  /** How far the record has come. */
  predicate OnItsWay(r: Rec, ts: Timeouts, h: int, late: int) {
    r.heartbeat == At(h) && (r.status.Suspected? ==> r.since.At? && r.since.t <= late)
  }

  lemma DeadlineStep(o: Options, ts: Timeouts, x: NodeID, c: Core, b: Beat, c': Core, h: int, late: int)
    requires Beats(o, ts, true, x, c, b, c') && c.tasks == multiset{} && c.local != x && ts.cleanup > 0 && h <= late
    requires x in c.table && OnItsWay(c.table[x], ts, h, late)
    requires c.table[x].status.Suspected? ==> h <= c.table[x].since.t
    requires b.Checker? && c.table[x].status.Alive? && b.t >= h + SuspectThreshold(ts) ==> b.t <= late
    ensures c'.tasks == multiset{} && c'.local != x
    ensures x !in c'.table ==> b.Checker?
    ensures x in c'.table ==>
      && OnItsWay(c'.table[x], ts, h, late)
      && (c'.table[x].status.Suspected? ==> h <= c'.table[x].since.t)
      && Deadline(c'.table[x], ts, h, late) <= Deadline(c.table[x], ts, h, late)
      && (c'.table[x].status.Alive? ==> c.table[x].status.Alive? && (b.Checker? ==> b.t < h + SuspectThreshold(ts)))
      && (b.Checker? && !c.table[x].status.Alive? ==> b.t < Deadline(c.table[x], ts, h, late))
  {
    hide RunAll, GossipCheck, Check;
    match b
    case Checker(_, _, _, _) => CheckerOn(o, ts, true, x, c, b, c');
    case Manager(_, _) => ManagerOn(o, ts, true, x, c, b, c');
    case Elsewhere(_) =>
  }

  /** The record of `x` as long as it is there. */
  ghost predicate Ageing(ts: Timeouts, x: NodeID, states: seq<Core>, beats: seq<Beat>, h: int, late: int, n: nat)
    requires n < |states| == |beats| + 1
  {
    && states[n].tasks == multiset{} && states[n].local != x
    && (x in states[n].table ==>
          && OnItsWay(states[n].table[x], ts, h, late)
          && (states[n].table[x].status.Suspected? ==> h <= states[n].table[x].since.t)
          && Deadline(states[n].table[x], ts, h, late) <= late + ConfirmThreshold(ts)
          && (states[n].table[x].status.Alive? ==>
                forall j :: 0 <= j < n && beats[j].Checker? ==> beats[j].t < h + SuspectThreshold(ts)))
  }

  /** Up to the first beat after which `x` is gone, its record ages as described. */
  lemma {:induction false} AgesUntil(o: Options, ts: Timeouts, x: NodeID, states: seq<Core>, beats: seq<Beat>,
          h: int, d: nat, n: nat)
    requires Silence(o, ts, true, x, states, beats) && ts.cleanup > 0 && n < |states|
    requires x in states[0].table && states[0].table[x].status.Alive? && states[0].table[x].heartbeat == At(h)
    requires Dense(beats, h, d) && beats != [] && h + SuspectThreshold(ts) + d <= beats[|beats| - 1].t
    requires forall j :: 0 <= j < n ==> x in states[j].table
    ensures Ageing(ts, x, states, beats, h, h + SuspectThreshold(ts) + d, n)
    decreases n
  {
    hide Beats, Deadline, OnItsWay, SuspectThreshold, ConfirmThreshold;
    var late := h + SuspectThreshold(ts) + d;
    ThresholdPositive(ts);
    if n == 0 {
      StartsAlive(states[0].table[x], ts, h, late);
    } else {
      AgesUntil(o, ts, x, states, beats, h, d, n - 1);
      var b := beats[n - 1];
      if b.Checker? && states[n - 1].table[x].status.Alive? && b.t >= h + SuspectThreshold(ts) {
        assert TickWithin(beats, h + SuspectThreshold(ts), d);
        var j :| 0 <= j < |beats| && beats[j].Checker? && h + SuspectThreshold(ts) <= beats[j].t <= late;
      }
      DeadlineStep(o, ts, x, states[n - 1], b, states[n], h, late);
    }
  }

  lemma ThresholdPositive(ts: Timeouts)
    ensures SuspectThreshold(ts) > 0
    ensures ts.cleanup > 0 ==> ConfirmThreshold(ts) == SuspectThreshold(ts) + ts.cleanup
  {
  }

  lemma StartsAlive(r: Rec, ts: Timeouts, h: int, late: int)
    requires r.status.Alive? && r.heartbeat == At(h)
    ensures OnItsWay(r, ts, h, late) && Deadline(r, ts, h, late) == late + ConfirmThreshold(ts)
  {
  }

  /** The first beat that removes `x`, given that it is gone by state `n`. */
  lemma {:induction false} FirstGone(states: seq<Core>, x: NodeID, n: nat) returns (j: nat)
    requires n < |states| && x in states[0].table && x !in states[n].table
    ensures j < n && x !in states[j + 1].table && forall i :: 0 <= i <= j ==> x in states[i].table
    decreases n
  {
    if i :| 0 < i < n && x !in states[i].table {
      j := FirstGone(states, x, i);
    } else {
      j := n - 1;
    }
  }

  /** With suspicion on, and whichever of the checker's threshold and the manager's timeout acts first,
      a member last heard of at `h` is removed by a checker tick no later than h+2F+C+2D. */
  lemma RemovedEventually(o: Options, ts: Timeouts, x: NodeID, states: seq<Core>, beats: seq<Beat>, h: int, d: nat)
    returns (j: nat)
    requires Silence(o, ts, true, x, states, beats) && ts.cleanup > 0
    requires x in states[0].table && states[0].table[x].status.Alive? && states[0].table[x].heartbeat == At(h)
    requires Dense(beats, h, d) && beats != []
    requires h + 2 * SuspectThreshold(ts) + ts.cleanup + 2 * d <= beats[|beats| - 1].t
    ensures j < |beats| && beats[j].Checker? && beats[j].t <= h + 2 * SuspectThreshold(ts) + ts.cleanup + 2 * d
    ensures (forall i :: 0 <= i <= j ==> x in states[i].table) && x !in states[j + 1].table
  {
    hide Beats, Deadline, OnItsWay, SuspectThreshold, ConfirmThreshold;
    var f := SuspectThreshold(ts);
    var late := h + f + d;
    ThresholdPositive(ts);
    assert TickWithin(beats, late + ConfirmThreshold(ts), d);
    var k :| 0 <= k < |beats| && beats[k].Checker? && late + ConfirmThreshold(ts) <= beats[k].t <= late + ConfirmThreshold(ts) + d;
    var n := k + 1;
    if forall i :: 0 <= i <= k ==> x in states[i].table {
      AgesUntil(o, ts, x, states, beats, h, d, k);
      assert TickWithin(beats, h + f, d);
      var i :| 0 <= i < |beats| && beats[i].Checker? && h + f <= beats[i].t <= late;
      assert i < k;
      DeadlineStep(o, ts, x, states[k], beats[k], states[k + 1], h, late);
      assert x !in states[n].table;
    } else {
      var i :| 0 <= i <= k && x !in states[i].table;
      n := i;
    }
    j := FirstGone(states, x, n);
    AgesUntil(o, ts, x, states, beats, h, d, j);
    OnlyCheckersRemove(o, ts, x, states, beats, h, d, j);
  }

  /** Only a checker tick removes. */
  lemma OnlyCheckersRemove(o: Options, ts: Timeouts, x: NodeID, states: seq<Core>, beats: seq<Beat>, h: int,
          d: nat, j: nat)
    requires Silence(o, ts, true, x, states, beats) && j < |beats|
    requires x in states[j].table && x !in states[j + 1].table && states[j].tasks == multiset{}
    ensures beats[j].Checker?
  {
    hide RunAll, GossipCheck, Check;
    assert Beats(o, ts, true, x, states[j], beats[j], states[j + 1]);
    if beats[j].Manager? {
      ManagerOn(o, ts, true, x, states[j], beats[j], states[j + 1]);
    }
  }

  /** The bound needs a positive cleanup timeout: without one a Failed record is never removed. */
  lemma {:induction false} FailedForever(o: Options, ts: Timeouts, susp: bool, x: NodeID, states: seq<Core>,
          beats: seq<Beat>, n: nat)
    requires Silence(o, ts, susp, x, states, beats) && ts.cleanup <= 0 && n < |states|
    requires x in states[0].table && states[0].table[x].status.Failed?
    ensures x in states[n].table && states[n].table[x].status.Failed? && states[n].tasks == multiset{} && states[n].local != x
    decreases n
  {
    hide RunAll, GossipCheck, Check;
    if n > 0 {
      FailedForever(o, ts, susp, x, states, beats, n - 1);
      var c, b, c' := states[n - 1], beats[n - 1], states[n];
      assert Beats(o, ts, susp, x, c, b, c');
      match b
      case Checker(_, _, _, _) => CheckerOn(o, ts, susp, x, c, b, c');
      case Manager(_, _) => ManagerOn(o, ts, susp, x, c, b, c');
      case Elsewhere(_) =>
    }
  }

  /** Without settings of its own a detector takes a member for silent after three seconds, and removes a suspected one
      after another one. */
  lemma UnsetTimeouts(ts: Timeouts, r: Rec, now: int)
    requires ts.failure <= 0 && ts.cleanup <= 0
    ensures r.status.Alive? && r.heartbeat.At? ==> (Silent(r, ts, now) <==> now - r.heartbeat.t >= 3_000_000_000)
    ensures r.status.Suspected? && r.since.At? ==> (Removable(r, ts, true, now) <==> now - r.since.t >= 4_000_000_000)
    ensures r.status.Failed? ==> !Removable(r, ts, true, now)
  {
  }
}
