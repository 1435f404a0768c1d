/** What a sign of life does to a suspicion: a Ping or a Heartbeat makes the record Alive and leaves the suspicion
    manager's entry behind. */
module Leftover {
  import opened Types
  import opened SuspicionSpec
  import opened UpdateLogSpec
  import opened DetectorSpec
  import opened PingAckSpec
  import opened GossipSpec
  import opened CallbackSpec
  import opened Cluster
  import opened SuspicionHistory
  import opened SuspicionInRuns
  import opened Removal
  import opened SilentHistory

  /** The steps of a process one after the other. */
  ghost predicate Course(cfg: Config, ps: seq<Proc>, acts: seq<Action>) {
    && |ps| == |acts| + 1
    && forall j :: 0 <= j < |acts| ==> Enabled(cfg, ps[j], acts[j]) && ps[j + 1] == Act(cfg, ps[j], acts[j])
  }

  // ----- which operations call the suspicion off

  /** The operation takes away the entry of `x` or puts a new one in its place. */
  predicate Resets(es: map<NodeID, Entry>, op: Op, x: NodeID) {
    x in es && ((op.ClearOp? && op.target == x && op.inc >= es[x].inc) || (op.Report? && op.target == x && op.inc > es[x].inc))
  }

  ghost predicate ResetsThere(o: Options, es: map<NodeID, Entry>, ops: seq<Op>, k: nat, x: NodeID)
    requires k < |ops|
  {
    Resets(ApplyAll(o, es, ops[..k]), ops[k], x)
  }

  ghost predicate ResetIn(o: Options, es: map<NodeID, Entry>, ops: seq<Op>, x: NodeID) {
    exists k: nat :: k < |ops| && ResetsThere(o, es, ops, k, x)
  }

  /** One of the first `n` steps makes such an operation. */
  ghost predicate CalledOff(cfg: Config, ps: seq<Proc>, acts: seq<Action>, x: NodeID, n: nat)
    requires n <= |acts| && n <= |ps|
  {
    exists j :: 0 <= j < n && ResetIn(cfg.opts, ps[j].core.entries, OpsOf(cfg, ps[j], acts[j]), x)
  }

  /** The entry of `x` is still `e`, up to further reports. */
  predicate Left(es: map<NodeID, Entry>, x: NodeID, e: Entry) {
    x in es && es[x].inc == e.inc && es[x].firstReport == e.firstReport && es[x].confirmed == e.confirmed
  }

  /** Whatever there is about `x` has been confirmed or counts from no earlier than `p`. */
  predicate Anew(es: map<NodeID, Entry>, x: NodeID, p: int) {
    x in es ==> es[x].confirmed || es[x].firstReport.Zero? || es[x].firstReport.t >= p
  }

  /** The suspicion has reached the threshold and has not been confirmed. */
  predicate Counting(e: Entry) {
    e.firstReport.At? && !e.confirmed
  }

  lemma OpLeaves(o: Options, es: map<NodeID, Entry>, op: Op, x: NodeID, e: Entry)
    requires Counting(e) && Left(es, x, e) && !Resets(es, op, x) && (op.CheckOp? ==> !Due(e, o, op.now))
    ensures Left(Apply(o, es, op), x, e)
  {
  }

  lemma OpAnew(o: Options, es: map<NodeID, Entry>, op: Op, x: NodeID, p: int)
    requires op.now >= p && (Anew(es, x, p) || Resets(es, op, x))
    ensures Anew(Apply(o, es, op), x, p)
  {
  }

  lemma {:induction false} OpsAnew(o: Options, es: map<NodeID, Entry>, ops: seq<Op>, x: NodeID, p: int)
    requires Anew(es, x, p) && forall op :: op in ops ==> op.now >= p
    ensures Anew(ApplyAll(o, es, ops), x, p)
  {
    hide Apply, Anew;
    if ops != [] {
      var n := |ops| - 1;
      OpsAnew(o, es, ops[..n], x, p);
      OpAnew(o, ApplyAll(o, es, ops[..n]), ops[n], x, p);
    }
  }

  /** Some operations on, the entry is there as it was if and only if none of them has called it off. */
  predicate Stands(es: map<NodeID, Entry>, x: NodeID, e: Entry, p: int, off: bool) {
    if off then Anew(es, x, p) else Left(es, x, e)
  }

  lemma ResetLast(o: Options, es: map<NodeID, Entry>, ops: seq<Op>, x: NodeID)
    requires ops != []
    ensures var n := |ops| - 1;
      ResetIn(o, es, ops, x) <==> ResetIn(o, es, ops[..n], x) || Resets(ApplyAll(o, es, ops[..n]), ops[n], x)
  {
    hide ApplyAll, Resets;
    var n := |ops| - 1;
    assert forall k: nat | k < n :: ops[..n][..k] == ops[..k];
    if ResetIn(o, es, ops[..n], x) {
      var k: nat :| k < n && ResetsThere(o, es, ops[..n], k, x);
      assert ResetsThere(o, es, ops, k, x);
    }
    if ResetIn(o, es, ops, x) {
      var k: nat :| k <= n && ResetsThere(o, es, ops, k, x);
      assert k < n ==> ResetsThere(o, es, ops[..n], k, x);
    }
    assert Resets(ApplyAll(o, es, ops[..n]), ops[n], x) ==> ResetsThere(o, es, ops, n, x);
  }

  lemma {:induction false} OpsStand(o: Options, es: map<NodeID, Entry>, ops: seq<Op>, x: NodeID, e: Entry, p: int)
    requires Counting(e) && Left(es, x, e)
    requires forall op :: op in ops ==> op.now >= p && (op.CheckOp? ==> !Due(e, o, op.now))
    ensures Stands(ApplyAll(o, es, ops), x, e, p, ResetIn(o, es, ops, x))
  {
    hide Apply, Anew, Left, Resets, Due, Counting;
    if ops != [] {
      var n := |ops| - 1;
      OpsStand(o, es, ops[..n], x, e, p);
      ResetLast(o, es, ops, x);
      var es1 := ApplyAll(o, es, ops[..n]);
      if ResetIn(o, es, ops, x) {
        OpAnew(o, es1, ops[n], x, p);
      } else {
        OpLeaves(o, es1, ops[n], x, e);
      }
    }
  }

  // ----- over any history

  /** From the clock reading `p` on; the entry does not fall due at a tick of the manager among the first `n` steps. */
  ghost predicate NotYetDue(o: Options, acts: seq<Action>, e: Entry, p: int, n: nat)
    requires n <= |acts|
  {
    && (forall j :: 0 <= j < n && Operates(acts[j]) ==> acts[j].now >= p)
    && (forall j :: 0 <= j < n && acts[j].ManagerTick? ==> !Due(e, o, acts[j].now))
  }

  lemma StepStands(cfg: Config, p0: Proc, a: Action, x: NodeID, e: Entry, p: int, off: bool)
    requires Enabled(cfg, p0, a) && Counting(e) && Stands(p0.core.entries, x, e, p, off)
    requires (Operates(a) ==> a.now >= p) && (a.ManagerTick? ==> !Due(e, cfg.opts, a.now))
    ensures Stands(Act(cfg, p0, a).core.entries, x, e, p, off || ResetIn(cfg.opts, p0.core.entries, OpsOf(cfg, p0, a), x))
  {
    hide Act, Enabled, Apply, Anew, Left, Counting, Due, MessageOps, DeclareOps, SilentOps;
    var es, ops := p0.core.entries, OpsOf(cfg, p0, a);
    ActMoves(cfg, p0, a);
    OpsAt(cfg, p0, a);
    assert forall op :: op in ops ==> op.now >= p && (op.CheckOp? ==> !Due(e, cfg.opts, op.now));
    if off {
      OpsAnew(cfg.opts, es, ops, x, p);
    } else {
      OpsStand(cfg.opts, es, ops, x, e, p);
    }
  }

  lemma {:induction false} CourseStands(cfg: Config, ps: seq<Proc>, acts: seq<Action>, x: NodeID, e: Entry, p: int, n: nat)
    requires Course(cfg, ps, acts) && n <= |acts| && NotYetDue(cfg.opts, acts, e, p, n)
    requires Counting(e) && Left(ps[0].core.entries, x, e)
    ensures Stands(ps[n].core.entries, x, e, p, CalledOff(cfg, ps, acts, x, n))
    decreases n
  {
    hide Act, Enabled, OpsOf, ResetIn, Anew, Left, Counting, Due;
    if n > 0 {
      CourseStands(cfg, ps, acts, x, e, p, n - 1);
      StepStands(cfg, ps[n - 1], acts[n - 1], x, e, p, CalledOff(cfg, ps, acts, x, n - 1));
    }
  }

  /** A suspicion of `x` that has reached the threshold, and a history on clocks from `p` on. At the first tick of the
      manager at which its entry is due, `x` is failed unless a clear at its incarnation or above or a report above
      it has come before; within a timeout of `p` that is the only way to escape. */
  lemma FailedUnlessCalledOff(cfg: Config, ps: seq<Proc>, acts: seq<Action>, x: NodeID, p: int, n: nat)
    requires Course(cfg, ps, acts) && n < |acts|
    requires x in ps[0].core.entries && Counting(ps[0].core.entries[x])
    requires NotYetDue(cfg.opts, acts, ps[0].core.entries[x], p, n)
    requires acts[n].ManagerTick? && Due(ps[0].core.entries[x], cfg.opts, acts[n].now)
    ensures var t, table, table' := acts[n].now, ps[n].core.table, ps[n + 1].core.table;
      && (x in table <==> x in table')
      && (!CalledOff(cfg, ps, acts, x, n) ==> x in table ==> table'[x] == table[x].(status := Failed))
      && (CalledOff(cfg, ps, acts, x, n) && t < p + cfg.opts.timeout ==> x in table ==> table'[x] == table[x])
  {
    hide Handle, OpsOf, ResetIn, CalledOff, ConfirmTasks, CheckedEntries;
    CourseStands(cfg, ps, acts, x, ps[0].core.entries[x], p, n);
  }

  // ----- a sign of life

  /** `x` itself is heard from, at an incarnation not older than its record and, if it has failed, newer; the
      updates that come with the message are about others. */
  predicate SignOfLife(table: map<NodeID, Rec>, a: Action, x: NodeID) {
    && a.Receive? && (a.msg.kind.Ping? || a.msg.kind.Heartbeat?) && a.msg.sender == x
    && (forall u :: u in a.msg.members ==> u.id != x)
    && (x in table ==> a.msg.inc > table[x].inc || (a.msg.inc == table[x].inc && !table[x].status.Failed?))
  }

  /** Just heard from at `t`. */
  predicate Vital(c: Core, x: NodeID, inc: int, t: int) {
    x in c.table && c.table[x].inc == inc && c.table[x].status.Alive? && c.table[x].heartbeat == At(t)
  }

  predicate SameEntry(c: Core, c': Core, x: NodeID) {
    (x in c'.entries <==> x in c.entries) && (x in c.entries ==> c'.entries[x] == c.entries[x])
  }

  lemma TouchRevives(c: Core, x: NodeID, inc: int, now: int)
    requires x in c.table ==> inc > c.table[x].inc || (inc == c.table[x].inc && !c.table[x].status.Failed?)
    ensures var c' := Touch(c, x, inc, now); Vital(c', x, inc, now) && c'.entries == c.entries && c'.local == c.local
  {
  }

  lemma UpdatesKeepVital(c: Core, o: Options, susp: bool, us: seq<Update>, reporter: NodeID, now: int, x: NodeID,
          inc: int, t: int)
    requires Vital(c, x, inc, t) && forall u :: u in us ==> u.id != x
    ensures var c' := ProcessUpdates(c, o, susp, us, reporter, now);
      Vital(c', x, inc, t) && SameEntry(c, c', x) && c'.local == c.local
  {
    hide ProcessUpdates;
    UpdatesSpare(c, o, susp, us, reporter, now, x);
  }

  /** The record is Alive from then on, and the entry is what it was. */
  lemma SignRevives(cfg: Config, p: Proc, a: Action, x: NodeID)
    requires Enabled(cfg, p, a) && SignOfLife(p.core.table, a, x) && p.core.local != x
    ensures var c' := Act(cfg, p, a).core;
      Vital(c', x, a.msg.inc, a.now) && c'.local != x && SameEntry(p.core, c', x)
  {
    hide ProcessUpdates, Touch, HandleJoin, HandleJoinResponse, HandleAck, HandleIndirectPing, HandleIndirectAck,
      ProcessSuspicion, HandleAlive, HandleConfirm, HandleLeave, DeclareSuspicion, GossipCheck, Check, Vital;
    var c, msg := p.core, a.msg;
    var ack := Message(Ack, c.local, msg.sender, c.own, msg.seqNum, []);
    var c1 := if msg.kind.Ping? then Send(c, ack, msg.sender.Address()) else c;
    TouchRevives(c1, x, msg.inc, a.now);
    UpdatesKeepVital(Touch(c1, x, msg.inc, a.now), cfg.opts, a.susp, msg.members, x, a.now, x, msg.inc, a.now);
  }

  /** Nothing in the step is about `x`, callbacks included, and it is not due for anything. */
  predicate Unmentioned(cfg: Config, p: Proc, a: Action, x: NodeID) {
    && Ignores(p, a, x) && (a.Callback? ==> a.task.target != x)
    && (a.ManagerTick? ==> !DueIn(p.core.entries, x, cfg.opts, a.now))
    && (a.GossipTick? && x in p.core.table ==> !Silent(p.core.table[x], cfg.ts, a.now))
  }

  /** Record and entry alike outlast such a step. */
  lemma StaysVital(cfg: Config, p: Proc, a: Action, x: NodeID, inc: int, t: int)
    requires Enabled(cfg, p, a) && p.core.local != x && Vital(p.core, x, inc, t) && Unmentioned(cfg, p, a, x)
    requires x in p.core.entries && Counting(p.core.entries[x])
    ensures var c' := Act(cfg, p, a).core;
      Vital(c', x, inc, t) && c'.local != x && x in c'.entries && c'.entries[x] == p.core.entries[x]
  {
    hide Handle, DeclareSuspicion, ReceiveEnabled, Live, Selection, Listing, Broadcast, Prefix, PingRequests, Ignores,
      ReportSilent, RunTask, ConfirmTasks, Silent;
    var c := p.core;
    if a.Callback? {
      CallbackActs(cfg, p, a);
      RunTaskOn(c, a.task, a.now, x);
    } else if a.GossipTick? {
      ReportSilentOn(Swept(c, cfg.ts, a.susp, a.now), cfg.opts, a.silent, c.table, a.now, x);
    } else if !Ticks(a) {
      ActSpares(cfg, p, a, x);
    }
  }

  lemma {:induction false} VitalUntil(cfg: Config, ps: seq<Proc>, acts: seq<Action>, x: NodeID, e: Entry, n: nat)
    requires Course(cfg, ps, acts) && 0 < n <= |acts| && ps[0].core.local != x
    requires SignOfLife(ps[0].core.table, acts[0], x) && Counting(e)
    requires x in ps[0].core.entries && ps[0].core.entries[x] == e
    requires forall j :: 0 < j < n ==> Unmentioned(cfg, ps[j], acts[j], x)
    ensures Vital(ps[n].core, x, acts[0].msg.inc, acts[0].now) && ps[n].core.local != x
    ensures x in ps[n].core.entries && ps[n].core.entries[x] == e
    decreases n
  {
    hide Act, Enabled, Vital, Unmentioned, Counting;
    if n == 1 {
      SignRevives(cfg, ps[0], acts[0], x);
    } else {
      VitalUntil(cfg, ps, acts, x, e, n - 1);
      StaysVital(cfg, ps[n - 1], acts[n - 1], x, acts[0].msg.inc, acts[0].now);
    }
  }

  /** So a Ping or a Heartbeat does not call a suspicion off. Of a member that is heard from, and about which
      nothing is said after that, the process has an Alive record with that very heartbeat, until the tick at which
      the entry that was left behind falls due: then the record is Failed, and OnConfirm is launched. */
  lemma AliveYetFailed(cfg: Config, ps: seq<Proc>, acts: seq<Action>, x: NodeID, n: nat)
    requires Course(cfg, ps, acts) && 0 < n < |acts| && ps[0].core.local != x
    requires x in ps[0].core.entries && Counting(ps[0].core.entries[x]) && SignOfLife(ps[0].core.table, acts[0], x)
    requires forall j :: 0 < j < n ==> Unmentioned(cfg, ps[j], acts[j], x)
    requires acts[n].ManagerTick? && Due(ps[0].core.entries[x], cfg.opts, acts[n].now)
    ensures forall j :: 0 < j <= n ==> Vital(ps[j].core, x, acts[0].msg.inc, acts[0].now)
    ensures x in ps[n + 1].core.table && ps[n + 1].core.table[x] == ps[n].core.table[x].(status := Failed)
    ensures OnConfirm(x, ps[0].core.entries[x].inc) in ps[n + 1].core.tasks
  {
    hide Handle, Unmentioned, Counting, Due;
    forall j | 0 < j <= n ensures Vital(ps[j].core, x, acts[0].msg.inc, acts[0].now) {
      VitalUntil(cfg, ps, acts, x, ps[0].core.entries[x], j);
    }
    VitalUntil(cfg, ps, acts, x, ps[0].core.entries[x], n);
  }
}
