/** What SuspicionHistory says of the manager's operations, said of the processes of a cluster: every step of
    a process moves its suspicion entries by a sequence of those operations. */
module SuspicionInRuns {
  import opened Types
  import opened SuspicionSpec
  import opened UpdateLogSpec
  import opened DetectorSpec
  import opened PingAckSpec
  import opened GossipSpec
  import opened Cluster
  import opened SuspicionHistory
  import opened ConfirmationSpacing

  /** The operations of `ops` one after the other. */
  function ApplyAll(o: Options, es: map<NodeID, Entry>, ops: seq<Op>): map<NodeID, Entry> {
    if ops == [] then es else Apply(o, ApplyAll(o, es, ops[..|ops| - 1]), ops[|ops| - 1])
  }

  lemma {:induction false} ApplyTwo(o: Options, es: map<NodeID, Entry>, a: seq<Op>, b: seq<Op>)
    ensures ApplyAll(o, es, a + b) == ApplyAll(o, ApplyAll(o, es, a), b)
    decreases |b|
  {
    hide Apply;
    if b == [] {
      assert a + b == a;
    } else {
      var n := |b| - 1;
      assert (a + b)[..|a + b| - 1] == a + b[..n];
      ApplyTwo(o, es, a, b[..n]);
    }
  }

  lemma ApplyOne(o: Options, es: map<NodeID, Entry>, op: Op)
    ensures ApplyAll(o, es, [op]) == Apply(o, es, op)
  {
    hide Apply;
    assert [op][..0] == [];
  }

  // ----- the operations of a step

  /** A suspicion of the node itself is refuted and does not touch the entries. */
  function ReportOps(c: Core, reporter: NodeID, target: NodeID, inc: int, now: int): seq<Op> {
    if target == c.local then [] else [Report(reporter, target, inc, RecordedInc(c.table, target), now)]
  }

  function EscalateOps(c: Core, susp: bool, u: Update, reporter: NodeID, now: int): seq<Op> {
    if u.status.Suspected? && susp then ReportOps(c, reporter, u.id, u.inc, now)
    else if u.status.Alive? then [ClearOp(u.id, u.inc, now)]
    else []
  }

  function UpdateOps(c: Core, susp: bool, u: Update, reporter: NodeID, now: int): seq<Op> {
    if u.id == c.local then EscalateOps(c, susp, u, reporter, now)
    else if u.id !in c.table then []
    else EscalateOps(MergeRecord(c, susp, u, now), susp, u, reporter, now)
  }

  function UpdatesOps(c: Core, o: Options, susp: bool, us: seq<Update>, reporter: NodeID, now: int): seq<Op> {
    if us == [] then []
    else
      var n := |us| - 1;
      UpdatesOps(c, o, susp, us[..n], reporter, now)
        + UpdateOps(ProcessUpdates(c, o, susp, us[..n], reporter, now), susp, us[n], reporter, now)
  }

  function ClearsOps(us: seq<Update>, now: int): seq<Op> {
    if us == [] then [] else ClearsOps(us[..|us| - 1], now) + [ClearOp(us[|us| - 1].id, us[|us| - 1].inc, now)]
  }

  function SilentOps(c: Core, o: Options, ids: seq<NodeID>, table: map<NodeID, Rec>, now: int): seq<Op> {
    if ids == [] then []
    else
      var n := |ids| - 1;
      SilentOps(c, o, ids[..n], table, now)
        + ReportOps(ReportSilent(c, o, ids[..n], table, now), c.local, ids[n], RecordedInc(table, ids[n]), now)
  }

  /** declareSuspicion reports at the recorded incarnation, which for a new member is 0. */
  function DeclareOps(c: Core, susp: bool, id: NodeID, now: int): seq<Op> {
    if susp && id != c.local then [Report(c.local, id, RecordedInc(c.table, id), RecordedInc(c.table, id), now)] else []
  }

  function MessageOps(cfg: Config, p: Proc, a: Action): seq<Op>
    requires a.Receive?
  {
    var c, msg, susp, now, o := p.core, a.msg, a.susp, a.now, cfg.opts;
    match msg.kind
    case Heartbeat => UpdatesOps(Touch(c, msg.sender, msg.inc, now), o, susp, msg.members, msg.sender, now)
    case Ping =>
      var acked := Send(c, Message(Ack, c.local, msg.sender, c.own, msg.seqNum, []), msg.sender.Address());
      UpdatesOps(Touch(acked, msg.sender, msg.inc, now), o, susp, msg.members, msg.sender, now)
    case IndirectPing => UpdatesOps(Refresh(c, msg.sender, msg.inc, now), o, susp, msg.members, msg.sender, now)
    case Ack => [ClearOp(msg.sender, msg.inc, now)]
    case IndirectAck => [ClearOp(msg.target, msg.inc, now)]
    case JoinResponse => ClearsOps(Clears(c, msg.members, now), now)
    case AliveMsg => [ClearOp(msg.sender, msg.inc, now)]
    case Suspect => if susp then ReportOps(c, msg.sender, msg.target, msg.inc, now) else []
    case _ => []
  }

  /** The reports, clears and checks a step of a process makes, in order. */
  function OpsOf(cfg: Config, p: Proc, a: Action): seq<Op> {
    match a
    case Receive(_, _, _, _, _, _) => MessageOps(cfg, p, a)
    case ManagerTick(now) => [CheckOp(now)]
    case GossipTick(susp, now, silent, _) => SilentOps(Swept(p.core, cfg.ts, susp, now), cfg.opts, silent, p.core.table, now)
    case NoDirectAck(susp, helpers, now) =>
      if p.phase.Direct? && helpers == [] then DeclareOps(p.core, susp, p.phase.target, now) else []
    case NoIndirectAck(susp, now) => if p.phase.Indirect? then DeclareOps(p.core, susp, p.phase.target, now) else []
    case _ => []
  }

  /** The entries of `c'` are those of `c` after `ops`. */
  predicate Moves(o: Options, c: Core, c': Core, ops: seq<Op>) {
    c'.entries == ApplyAll(o, c.entries, ops)
  }

  lemma ReportMoves(c: Core, o: Options, reporter: NodeID, target: NodeID, inc: int, now: int)
    ensures Moves(o, c, ProcessSuspicion(c, o, reporter, target, inc, now), ReportOps(c, reporter, target, inc, now))
    ensures ProcessSuspicion(c, o, reporter, target, inc, now).local == c.local
  {
    hide Lodge, Apply, Broadcast;
    if target != c.local {
      ReportApplies(c, o, reporter, target, inc, now);
      ApplyOne(o, c.entries, Report(reporter, target, inc, RecordedInc(c.table, target), now));
    }
    SuspicionLocal(c, o, reporter, target, inc, now);
  }

  lemma SuspicionLocal(c: Core, o: Options, reporter: NodeID, target: NodeID, inc: int, now: int)
    ensures ProcessSuspicion(c, o, reporter, target, inc, now).local == c.local
  {
    hide AddReport, Fires, Broadcast, MarkSuspected;
  }

  lemma ClearMoves(c: Core, o: Options, target: NodeID, inc: int, now: int)
    ensures Moves(o, c, ClearSuspect(c, target, inc), [ClearOp(target, inc, now)])
  {
    hide CheckedEntries, AddReport;
    ApplyOne(o, c.entries, ClearOp(target, inc, now));
  }

  lemma EscalateMoves(c: Core, o: Options, susp: bool, u: Update, reporter: NodeID, now: int)
    ensures Moves(o, c, Escalate(c, o, susp, u, reporter, now), EscalateOps(c, susp, u, reporter, now))
  {
    hide ProcessSuspicion, ClearSuspect, ReportOps;
    ReportMoves(c, o, reporter, u.id, u.inc, now);
    ClearMoves(c, o, u.id, u.inc, now);
  }

  lemma UpdateMoves(c: Core, o: Options, susp: bool, u: Update, reporter: NodeID, now: int)
    ensures Moves(o, c, ProcessUpdate(c, o, susp, u, reporter, now), UpdateOps(c, susp, u, reporter, now))
  {
    hide Escalate, EscalateOps;
    EscalateMoves(c, o, susp, u, reporter, now);
    if u.id in c.table {
      EscalateMoves(MergeRecord(c, susp, u, now), o, susp, u, reporter, now);
    }
  }

  lemma {:induction false} UpdatesMove(c: Core, o: Options, susp: bool, us: seq<Update>, reporter: NodeID, now: int)
    ensures Moves(o, c, ProcessUpdates(c, o, susp, us, reporter, now), UpdatesOps(c, o, susp, us, reporter, now))
  {
    hide ProcessUpdate, UpdateOps, ApplyAll;
    if us == [] {
      assert ApplyAll(o, c.entries, []) == c.entries by {
        ApplyNone(o, c.entries);
      }
    } else {
      var n := |us| - 1;
      var c1 := ProcessUpdates(c, o, susp, us[..n], reporter, now);
      UpdatesMove(c, o, susp, us[..n], reporter, now);
      UpdateMoves(c1, o, susp, us[n], reporter, now);
      ApplyTwo(o, c.entries, UpdatesOps(c, o, susp, us[..n], reporter, now), UpdateOps(c1, susp, us[n], reporter, now));
    }
  }

  lemma ApplyNone(o: Options, es: map<NodeID, Entry>)
    ensures ApplyAll(o, es, []) == es
  {
  }

  lemma {:induction false} ClearsMove(c: Core, o: Options, us: seq<Update>, now: int)
    ensures Moves(o, c, ClearAll(c, us), ClearsOps(us, now))
  {
    hide ClearSuspect, ApplyAll;
    if us == [] {
      ApplyNone(o, c.entries);
    } else {
      var n := |us| - 1;
      ClearsMove(c, o, us[..n], now);
      ClearMoves(ClearAll(c, us[..n]), o, us[n].id, us[n].inc, now);
      ApplyTwo(o, c.entries, ClearsOps(us[..n], now), [ClearOp(us[n].id, us[n].inc, now)]);
    }
  }

  lemma {:induction false} SilentMoves(c: Core, o: Options, ids: seq<NodeID>, table: map<NodeID, Rec>, now: int)
    ensures Moves(o, c, ReportSilent(c, o, ids, table, now), SilentOps(c, o, ids, table, now))
    ensures ReportSilent(c, o, ids, table, now).local == c.local
  {
    hide ProcessSuspicion, ApplyAll;
    if ids == [] {
      ApplyNone(o, c.entries);
    } else {
      var n := |ids| - 1;
      var inc := RecordedInc(table, ids[n]);
      var c1 := ReportSilent(c, o, ids[..n], table, now);
      SilentMoves(c, o, ids[..n], table, now);
      ReportMoves(Append(c1, Update(ids[n], inc, Suspected, now)), o, c.local, ids[n], inc, now);
      ApplyTwo(o, c.entries, SilentOps(c, o, ids[..n], table, now), ReportOps(c1, c.local, ids[n], inc, now));
    }
  }

  lemma DeclareMoves(c: Core, o: Options, susp: bool, id: NodeID, now: int)
    ensures Moves(o, c, DeclareSuspicion(c, o, susp, id, now), DeclareOps(c, susp, id, now))
  {
    hide ProcessSuspicion, ApplyAll;
    ApplyNone(o, c.entries);
    if susp {
      var c1 :=
        if id !in c.table then PutLogged(c, id, Rec(0, Suspected, At(now), At(now)), now)
        else if !c.table[id].status.Suspected? then
          PutLogged(c, id, c.table[id].(status := Suspected, since := At(now)), now)
        else c;
      ReportMoves(c1, o, c.local, id, c1.table[id].inc, now);
    }
  }

  /** Nothing but the manager changes the entries. */
  lemma {:induction false} AbsorbAllEntries(c: Core, us: seq<Update>, now: int)
    ensures AbsorbAll(c, us, now).entries == c.entries
  {
    if us != [] {
      AbsorbAllEntries(c, us[..|us| - 1], now);
    }
  }

  lemma UntouchedEntries(c: Core, sender: NodeID, target: NodeID, inc: int, now: int)
    ensures Touch(c, sender, inc, now).entries == c.entries && Touch(c, sender, inc, now).local == c.local
    ensures Refresh(c, sender, inc, now).entries == c.entries && Refresh(c, sender, inc, now).local == c.local
    ensures PingAckSpec.Reported(c, target, inc, now).entries == c.entries
    ensures HandleConfirm(c, target, inc, now).entries == c.entries && HandleLeave(c, sender, now).entries == c.entries
  {
  }

  lemma AliveMoves(c: Core, o: Options, sender: NodeID, inc: int, now: int)
    ensures Moves(o, c, HandleAlive(c, sender, inc, now), [ClearOp(sender, inc, now)])
  {
    hide ClearSuspect, ApplyAll;
    ClearMoves(c, o, sender, inc, now);
    ClearMoves(PutLogged(c, sender, Rec(inc, Alive, At(now), Zero), now), o, sender, inc, now);
  }

  lemma MessageMoves(cfg: Config, p: Proc, a: Action)
    requires a.Receive? && ReceiveEnabled(p, a)
    ensures Moves(cfg.opts, p.core, Handle(cfg, p, a).core, MessageOps(cfg, p, a))
  {
    hide ProcessUpdates, ProcessSuspicion, AbsorbAll, ClearAll, Clears, Touch, ClearSuspect, HandleAlive, Refresh, ReportOps,
      PingAckSpec.Reported, HandleConfirm, HandleLeave, ReceiveEnabled, ApplyAll, UpdatesOps, ClearsOps, JoinedTable,
      Displaced, FailedRecords, Listing, Live, Notify, SignalDirect, SignalIndirect;
    var c, msg, now, o := p.core, a.msg, a.now, cfg.opts;
    ApplyNone(o, c.entries);
    UntouchedEntries(c, msg.sender, msg.target, msg.inc, now);
    match msg.kind
    case Heartbeat => UpdatesMove(Touch(c, msg.sender, msg.inc, now), o, a.susp, msg.members, msg.sender, now);
    case Ping =>
      var acked := Send(c, Message(Ack, c.local, msg.sender, c.own, msg.seqNum, []), msg.sender.Address());
      UntouchedEntries(acked, msg.sender, msg.target, msg.inc, now);
      UpdatesMove(Touch(acked, msg.sender, msg.inc, now), o, a.susp, msg.members, msg.sender, now);
    case IndirectPing => UpdatesMove(Refresh(c, msg.sender, msg.inc, now), o, a.susp, msg.members, msg.sender, now);
    case Ack => ClearMoves(Touch(c, msg.sender, msg.inc, now), o, msg.sender, msg.inc, now);
    case IndirectAck => ClearMoves(PingAckSpec.Reported(c, msg.target, msg.inc, now), o, msg.target, msg.inc, now);
    case JoinResponse =>
      AbsorbAllEntries(c, msg.members, now);
      ClearsMove(AbsorbAll(c, msg.members, now), o, Clears(c, msg.members, now), now);
    case AliveMsg => AliveMoves(c, o, msg.sender, msg.inc, now);
    case Suspect => ReportMoves(c, o, msg.sender, msg.target, msg.inc, now);
    case _ =>
  }

  /** Every step of a process moves its entries by the operations it makes, and by nothing else. */
  lemma ActMoves(cfg: Config, p: Proc, a: Action)
    requires Enabled(cfg, p, a)
    ensures Moves(cfg.opts, p.core, Act(cfg, p, a).core, OpsOf(cfg, p, a))
  {
    hide Handle, DeclareSuspicion, ReportSilent, ReceiveEnabled, ApplyAll, Live, Selection, Listing, Broadcast, MessageOps,
      SilentOps, DeclareOps, CheckedEntries, Swept, ConfirmTasks;
    var c, o := p.core, cfg.opts;
    ApplyNone(o, c.entries);
    match a
    case Receive(_, _, _, _, _, _) => MessageMoves(cfg, p, a);
    case ManagerTick(now) => ApplyOne(o, c.entries, CheckOp(now));
    case GossipTick(susp, now, silent, removed) =>
      SweptEntries(c, cfg.ts, susp, now);
      SilentMoves(Swept(c, cfg.ts, susp, now), o, silent, c.table, now);
    case NoDirectAck(susp, helpers, now) => DeclareMoves(c, o, susp, p.phase.target, now);
    case NoIndirectAck(susp, now) => DeclareMoves(c, o, susp, p.phase.target, now);
    case _ =>
  }

  lemma SweptEntries(c: Core, ts: Timeouts, susp: bool, now: int)
    ensures Swept(c, ts, susp, now).entries == c.entries
  {
  }

  // ----- over whole runs

  /** What process `i` does in step `st`. */
  function StepOps(cfg: Config, s: State, st: Step, i: nat): seq<Op> {
    if st.Do? && st.i == i && i in s.procs then OpsOf(cfg, s.procs[i], st.a) else []
  }

  /** All the operations process `i` has made, in order. */
  function Made(cfg: Config, states: seq<State>, steps: seq<Step>, i: nat): seq<Op>
    requires |steps| <= |states|
  {
    if steps == [] then []
    else
      var n := |steps| - 1;
      Made(cfg, states[..n], steps[..n], i) + StepOps(cfg, states[n], steps[n], i)
  }

  lemma StepMoves(cfg: Config, s: State, st: Step, i: nat)
    requires Guard(cfg, s, st)
    ensures var s' := After(cfg, s, st);
      && (i in s.procs ==>
            i in s'.procs && s'.procs[i].core.entries == ApplyAll(cfg.opts, s.procs[i].core.entries, StepOps(cfg, s, st, i)))
      && (i !in s.procs && i in s'.procs ==> s'.procs[i].core.entries == map[])
      && (i !in s.procs ==> StepOps(cfg, s, st, i) == [])
  {
    hide Act, Enabled, OpsOf, ApplyAll, InFlight;
    if i in s.procs {
      ApplyNone(cfg.opts, s.procs[i].core.entries);
      if st.Do? && st.i == i {
        ActMoves(cfg, s.procs[i], st.a);
      }
    }
  }

  /** In every reachable state the entries of a process are what its operations so far make of nothing. */
  lemma {:induction false} EntriesInRuns(cfg: Config, states: seq<State>, steps: seq<Step>, i: nat)
    requires Run(cfg, states, steps)
    ensures i in states[|steps|].procs ==>
      states[|steps|].procs[i].core.entries == ApplyAll(cfg.opts, map[], Made(cfg, states, steps, i))
    ensures i !in states[|steps|].procs ==> Made(cfg, states, steps, i) == []
    decreases |steps|
  {
    hide Guard, After, StepOps, ApplyAll;
    if steps == [] {
    } else {
      var n := |steps| - 1;
      RunPrefix(cfg, states, steps);
      EntriesInRuns(cfg, states[..n + 1], steps[..n], i);
      MadeBefore(cfg, states, steps, i);
      StepMoves(cfg, states[n], steps[n], i);
      ApplyNone(cfg.opts, map[]);
      ApplyTwo(cfg.opts, map[], Made(cfg, states[..n], steps[..n], i), StepOps(cfg, states[n], steps[n], i));
    }
  }

  /** Only the states in which the steps are taken matter. */
  lemma {:induction false} MadeFrom(cfg: Config, states: seq<State>, states': seq<State>, steps: seq<Step>, i: nat)
    requires |steps| <= |states| && |steps| <= |states'| && forall j :: 0 <= j < |steps| ==> states[j] == states'[j]
    ensures Made(cfg, states, steps, i) == Made(cfg, states', steps, i)
    decreases |steps|
  {
    hide StepOps;
    if steps != [] {
      var n := |steps| - 1;
      MadeFrom(cfg, states[..n], states'[..n], steps[..n], i);
    }
  }

  lemma MadeBefore(cfg: Config, states: seq<State>, steps: seq<Step>, i: nat)
    requires steps != [] && |steps| <= |states| - 1
    ensures var n := |steps| - 1;
      Made(cfg, states[..n + 1], steps[..n], i) == Made(cfg, states[..n], steps[..n], i)
  {
    hide StepOps;
    var n := |steps| - 1;
    MadeFrom(cfg, states[..n + 1], states[..n], steps[..n], i);
  }

  // ----- quorum and delay

  /** The operation is a report about `x` at `inc`, made at time `t`. */
  predicate Files(op: Op, x: NodeID, inc: int, t: int) {
    op.Report? && op.target == x && op.inc == inc && op.now == t
  }

  predicate ClearsEffectively(es: map<NodeID, Entry>, op: Op, x: NodeID) {
    op.ClearOp? && op.target == x && x in es && op.inc >= es[x].inc
  }

  /** An operation from `b` on is such a report by `r`. */
  ghost predicate Spoken(ops: seq<Op>, b: nat, x: NodeID, inc: int, r: NodeID, t: int) {
    exists k :: b <= k < |ops| && Files(ops[k], x, inc, t) && ops[k].reporter == r
  }

  /** Operation `k` clears the suspicion of `x`. */
  ghost predicate ClearedAt(o: Options, ops: seq<Op>, k: nat, x: NodeID)
    requires k < |ops|
  {
    ClearsEffectively(ApplyAll(o, map[], ops[..k]), ops[k], x)
  }

  ghost predicate UnclearedSince(o: Options, ops: seq<Op>, b: nat, x: NodeID) {
    forall k :: b <= k < |ops| ==> !ClearedAt(o, ops, k, x)
  }

  function Reporters(es: map<NodeID, Entry>, x: NodeID): nat {
    if x in es then |es[x].reporters| else 0
  }

  /** Operation `k` is a report about `x` at `inc`, made at `t`, which takes the number of reporters to the
      threshold (an opening starts the count again). */
  ghost predicate TipsAt(o: Options, ops: seq<Op>, b: nat, k: nat, x: NodeID, inc: int, t: int) {
    && b <= k < |ops|
    && Files(ops[k], x, inc, t)
    && Reporters(ApplyAll(o, map[], ops[..k + 1]), x) >= o.requireReports
    && (k > b ==> Reporters(ApplyAll(o, map[], ops[..k]), x) < o.requireReports)
  }

  /** Whoever is on the list of `e` has reported `x` at its incarnation since `b`. */
  ghost predicate AllSpoken(ops: seq<Op>, b: nat, x: NodeID, e: Entry) {
    forall r :: r in e.reporters ==> Spoken(ops, b, x, e.inc, r, e.reporters[r])
  }

  /** The suspicion of `x` was opened by operation `b`; what is in it was reported since, at its incarnation,
      its clock counts from the report that reached the threshold, and no clear has taken effect on it. */
  ghost predicate Supported(o: Options, ops: seq<Op>, x: NodeID, b: nat)
    requires x in ApplyAll(o, map[], ops)
  {
    var e := ApplyAll(o, map[], ops)[x];
    && AllSpoken(ops, b, x, e)
    && (e.firstReport.At? <==> |e.reporters| >= o.requireReports)
    && (e.firstReport.At? ==> exists k: nat :: TipsAt(o, ops, b, k, x, e.inc, e.firstReport.t))
    && UnclearedSince(o, ops, b, x)
  }

  lemma SpokenGrows(before: seq<Op>, ops: seq<Op>, b: nat, x: NodeID)
    requires before <= ops
    ensures forall inc, r, t :: Spoken(before, b, x, inc, r, t) ==> Spoken(ops, b, x, inc, r, t)
  {
    forall inc, r, t | Spoken(before, b, x, inc, r, t) ensures Spoken(ops, b, x, inc, r, t) {
      var k :| b <= k < |before| && Files(before[k], x, inc, t) && before[k].reporter == r;
      assert ops[k] == before[k];
    }
  }

  lemma TipsGrow(o: Options, before: seq<Op>, ops: seq<Op>, b: nat, x: NodeID)
    requires before <= ops
    ensures forall k: nat, inc, t :: TipsAt(o, before, b, k, x, inc, t) ==> TipsAt(o, ops, b, k, x, inc, t)
  {
    hide ApplyAll, Files, Reporters;
    forall k: nat, inc, t | TipsAt(o, before, b, k, x, inc, t) ensures TipsAt(o, ops, b, k, x, inc, t) {
      assert before[k] == ops[k] && before[..k] == ops[..k] && before[..k + 1] == ops[..k + 1];
    }
  }

  lemma UnclearedGrows(o: Options, ops: seq<Op>, b: nat, x: NodeID)
    requires ops != [] && UnclearedSince(o, ops[..|ops| - 1], b, x)
    requires !ClearsEffectively(ApplyAll(o, map[], ops[..|ops| - 1]), ops[|ops| - 1], x)
    ensures UnclearedSince(o, ops, b, x)
  {
    hide ApplyAll, ClearsEffectively;
    var n := |ops| - 1;
    forall k | b <= k < |ops| ensures !ClearedAt(o, ops, k, x) {
      if k < n {
        assert !ClearedAt(o, ops[..n], k, x);
        assert ops[..n][..k] == ops[..k] && ops[..n][k] == ops[k];
      }
    }
  }

  /** What one operation makes of the entry of `x`: it opens it, adds to it, or leaves its reports alone. */
  lemma EntryAfter(o: Options, es: map<NodeID, Entry>, op: Op, x: NodeID)
    requires x in Apply(o, es, op)
    ensures var e' := Apply(o, es, op)[x];
      || (op.Report? && op.target == x && e' == AddReport(NewEntry(op.inc), o, op.reporter, op.now))
      || (op.Report? && x in es && Files(op, x, es[x].inc, op.now) && e' == AddReport(es[x], o, op.reporter, op.now))
      || (x in es && e'.inc == es[x].inc && e'.reporters == es[x].reporters && e'.firstReport == es[x].firstReport
          && !ClearsEffectively(es, op, x))
  {
    hide AddReport;
  }

  lemma OpenedSupported(o: Options, ops: seq<Op>, x: NodeID)
    requires o.requireReports >= 1 && ops != []
    requires var op := ops[|ops| - 1];
      && op.Report? && op.target == x && x in ApplyAll(o, map[], ops)
      && ApplyAll(o, map[], ops)[x] == AddReport(NewEntry(op.inc), o, op.reporter, op.now)
    ensures Supported(o, ops, x, |ops| - 1)
  {
    hide ApplyAll;
    var n := |ops| - 1;
    var e := ApplyAll(o, map[], ops)[x];
    assert e.reporters == map[ops[n].reporter := ops[n].now] && |e.reporters| == 1;
    assert Spoken(ops, n, x, e.inc, ops[n].reporter, ops[n].now);
    assert ops[..n + 1] == ops;
    assert e.firstReport.At? ==> TipsAt(o, ops, n, n, x, e.inc, ops[n].now);
    assert !ClearedAt(o, ops, n, x);
  }

  /** The last operation tips the balance when it takes the count over the threshold. */
  lemma LastTips(o: Options, ops: seq<Op>, x: NodeID, b: nat)
    requires ops != [] && b < |ops|
    requires var n := |ops| - 1;
      var es, es' := ApplyAll(o, map[], ops[..n]), ApplyAll(o, map[], ops);
      && x in es && x in es' && Files(ops[n], x, es[x].inc, ops[n].now)
      && |es[x].reporters| < o.requireReports <= |es'[x].reporters|
    ensures var n := |ops| - 1;
      TipsAt(o, ops, b, n, x, ApplyAll(o, map[], ops[..n])[x].inc, ops[n].now)
  {
    hide ApplyAll, Files;
    assert ops[..|ops|] == ops;
  }

  lemma OneMoreSpoken(o: Options, ops: seq<Op>, b: nat, x: NodeID, e: Entry)
    requires ops != [] && b < |ops|
    requires var n := |ops| - 1; AllSpoken(ops[..n], b, x, e) && Files(ops[n], x, e.inc, ops[n].now)
    ensures var n := |ops| - 1; AllSpoken(ops, b, x, AddReport(e, o, ops[n].reporter, ops[n].now))
  {
    hide Fires;
    var n := |ops| - 1;
    SpokenGrows(ops[..n], ops, b, x);
    assert Spoken(ops, b, x, e.inc, ops[n].reporter, ops[n].now);
  }

  lemma ReportSupported(o: Options, ops: seq<Op>, x: NodeID, b: nat)
    requires ops != [] && b < |ops|
    requires var n := |ops| - 1;
      var es, es' := ApplyAll(o, map[], ops[..n]), ApplyAll(o, map[], ops);
      && x in es && x in es' && Supported(o, ops[..n], x, b)
      && Files(ops[n], x, es[x].inc, ops[n].now) && es'[x] == AddReport(es[x], o, ops[n].reporter, ops[n].now)
    ensures Supported(o, ops, x, b)
  {
    var n := |ops| - 1;
    var e := ApplyAll(o, map[], ops[..n])[x];
    assert !ClearsEffectively(ApplyAll(o, map[], ops[..n]), ops[n], x);
    hide Apply, ApplyAll, AddReport, Files, Fires, AllSpoken, TipsAt, UnclearedSince, ClearsEffectively;
    AddedReport(e, o, ops[n].reporter, ops[n].now);
    if Fires(e, o, ops[n].reporter, ops[n].now) {
      LastTips(o, ops, x, b);
    }
    OneMoreSpoken(o, ops, b, x, e);
    TipsGrow(o, ops[..n], ops, b, x);
    UnclearedGrows(o, ops, b, x);
  }

  lemma KeptSupported(o: Options, ops: seq<Op>, x: NodeID, b: nat)
    requires ops != [] && b < |ops|
    requires var n := |ops| - 1;
      var es, es' := ApplyAll(o, map[], ops[..n]), ApplyAll(o, map[], ops);
      && x in es && x in es' && Supported(o, ops[..n], x, b)
      && es'[x].inc == es[x].inc && es'[x].reporters == es[x].reporters && es'[x].firstReport == es[x].firstReport
      && !ClearsEffectively(es, ops[n], x)
    ensures Supported(o, ops, x, b)
  {
    hide ApplyAll, Files, Spoken, TipsAt, UnclearedSince, ClearsEffectively;
    SpokenGrows(ops[..|ops| - 1], ops, b, x);
    TipsGrow(o, ops[..|ops| - 1], ops, b, x);
    UnclearedGrows(o, ops, b, x);
  }

  lemma {:induction false} EntriesSupported(o: Options, ops: seq<Op>, x: NodeID) returns (b: nat)
    requires o.requireReports >= 1 && x in ApplyAll(o, map[], ops)
    ensures b < |ops| && Supported(o, ops, x, b)
    decreases |ops|
  {
    hide Apply, AddReport, Supported, Files, ClearsEffectively;
    var n := |ops| - 1;
    var es := ApplyAll(o, map[], ops[..n]);
    var op := ops[n];
    var e' := ApplyAll(o, map[], ops)[x];
    EntryAfter(o, es, op, x);
    if op.Report? && op.target == x && e' == AddReport(NewEntry(op.inc), o, op.reporter, op.now) {
      b := n;
      OpenedSupported(o, ops, x);
    } else {
      b := EntriesSupported(o, ops[..n], x);
      if op.Report? && Files(op, x, es[x].inc, op.now) && e' == AddReport(es[x], o, op.reporter, op.now) {
        ReportSupported(o, ops, x, b);
      } else {
        KeptSupported(o, ops, x, b);
      }
    }
  }

  /** A process of a reachable state confirms `x` at `inc` only if, since some operation `b` of its own, at least
      RequireReports different nodes have each reported `x` to it at exactly `inc`, no clear has taken effect
      on the suspicion, and the report that reached the threshold is a timeout old. */
  lemma ConfirmedByQuorum(cfg: Config, states: seq<State>, steps: seq<Step>, i: nat, now: int, x: NodeID) returns (b: nat)
    requires Run(cfg, states, steps) && cfg.opts.requireReports >= 1 && i in states[|steps|].procs
    requires DueIn(states[|steps|].procs[i].core.entries, x, cfg.opts, now)
    ensures var ops, e := Made(cfg, states, steps, i), states[|steps|].procs[i].core.entries[x];
      && |e.reporters| >= cfg.opts.requireReports
      && (forall r :: r in e.reporters ==> Spoken(ops, b, x, e.inc, r, e.reporters[r]))
      && (exists k: nat, t :: TipsAt(cfg.opts, ops, b, k, x, e.inc, t) && now - t >= cfg.opts.timeout)
      && UnclearedSince(cfg.opts, ops, b, x)
  {
    hide Guard, After, Made, ApplyAll, Spoken, TipsAt, UnclearedSince;
    EntriesInRuns(cfg, states, steps, i);
    b := EntriesSupported(cfg.opts, Made(cfg, states, steps, i), x);
  }

  /** Who has reported `x`. */
  function Accusers(ops: seq<Op>, x: NodeID): set<NodeID> {
    if ops == [] then {}
    else
      var n := |ops| - 1;
      var before := Accusers(ops[..n], x);
      if ops[n].Report? && ops[n].target == x then before + {ops[n].reporter} else before
  }

  /** All the operations about `x` are reports at `inc` that are not older than the record, and no check finds the
      suspicion due. */
  ghost predicate Undisturbed(o: Options, es: map<NodeID, Entry>, ops: seq<Op>, x: NodeID, inc: int) {
    forall k :: 0 <= k < |ops| ==> Harmless(o, ApplyAll(o, es, ops[..k]), ops[k], x, inc)
  }

  predicate Harmless(o: Options, es: map<NodeID, Entry>, op: Op, x: NodeID, inc: int) {
    match op
    case Report(_, target, i, localInc, _) => target == x ==> i == inc && localInc <= inc
    case ClearOp(target, _, _) => target != x
    case CheckOp(now) => !DueIn(es, x, o, now)
  }

  /** The suspicion has been reported by exactly `who`. */
  predicate Reported(o: Options, es: map<NodeID, Entry>, x: NodeID, inc: int, who: set<NodeID>) {
    if who == {} then x !in es
    else
      && x in es && es[x].inc == inc && !es[x].confirmed && es[x].reporters.Keys == who
      && (es[x].firstReport.At? <==> |who| >= o.requireReports)
  }

  lemma OneMoreAccuser(o: Options, es: map<NodeID, Entry>, op: Op, x: NodeID, inc: int, who: set<NodeID>)
    requires o.requireReports >= 1 && Reported(o, es, x, inc, who) && Harmless(o, es, op, x, inc)
    requires op.Report? && op.target == x
    ensures Reported(o, Apply(o, es, op), x, inc, who + {op.reporter})
  {
    var e := if x in es then es[x] else NewEntry(inc);
    assert Apply(o, es, op) == es[x := AddReport(e, o, op.reporter, op.now)] by {
      hide AddReport;
    }
    hide Apply, AddReport, Fires;
    assert (who == {} ==> e.reporters.Keys == {}) && |e.reporters| == |e.reporters.Keys|;
    AddedReport(e, o, op.reporter, op.now);
    var all := e.reporters[op.reporter := op.now];
    assert all.Keys == who + {op.reporter} && |all| == |all.Keys|;
  }

  lemma NoMoreAccuser(o: Options, es: map<NodeID, Entry>, op: Op, x: NodeID, inc: int, who: set<NodeID>)
    requires Reported(o, es, x, inc, who) && Harmless(o, es, op, x, inc) && !(op.Report? && op.target == x)
    ensures Reported(o, Apply(o, es, op), x, inc, who)
  {
    hide AddReport;
  }

  /** Without such disturbance the quorum is complete exactly when RequireReports different nodes have reported `x`,
      however often each of them has. */
  lemma {:induction false} QuorumExactly(o: Options, es: map<NodeID, Entry>, ops: seq<Op>, x: NodeID, inc: int)
    requires o.requireReports >= 1 && x !in es && Undisturbed(o, es, ops, x, inc)
    ensures Reported(o, ApplyAll(o, es, ops), x, inc, Accusers(ops, x))
    decreases |ops|
  {
    hide Apply, Harmless, Reported;
    if ops == [] {
      assert Reported(o, es, x, inc, {}) by {
        NobodyReported(o, es, x, inc);
      }
    } else {
      var n := |ops| - 1;
      forall k | 0 <= k < n ensures Harmless(o, ApplyAll(o, es, ops[..n][..k]), ops[..n][k], x, inc) {
        assert ops[..n][..k] == ops[..k];
      }
      QuorumExactly(o, es, ops[..n], x, inc);
      if ops[n].Report? && ops[n].target == x {
        OneMoreAccuser(o, ApplyAll(o, es, ops[..n]), ops[n], x, inc, Accusers(ops[..n], x));
      } else {
        NoMoreAccuser(o, ApplyAll(o, es, ops[..n]), ops[n], x, inc, Accusers(ops[..n], x));
      }
    }
  }

  lemma NobodyReported(o: Options, es: map<NodeID, Entry>, x: NodeID, inc: int)
    requires x !in es
    ensures Reported(o, es, x, inc, {})
  {
  }

  /** A manager without settings of its own acts on a single report: a tick confirms the suspicion two seconds after
      it, and one more than three seconds after that forgets it. */
  lemma UnsetOptions(es: map<NodeID, Entry>, reporter: NodeID, x: NodeID, inc: int, localInc: int, t: int, now: int, later: int)
    requires x !in es && localInc <= inc
    ensures var o := WithDefaults(Options(0, 0, 0));
      var es1 := Apply(o, es, Report(reporter, x, inc, localInc, t));
      && (DueIn(es1, x, o, now) <==> now >= t + 2_000_000_000)
      && (now >= t + 2_000_000_000 ==>
            var es2 := Apply(o, es1, CheckOp(now));
            && x in es2 && es2[x].confirmed && es2[x].confirmedAt == At(now)
            && (x in Apply(o, es2, CheckOp(later)) <==> later <= now + 3_000_000_000))
  {
    assert map[reporter := t].Keys == {reporter} && |map[reporter := t].Keys| == |map[reporter := t]|;
    assert map[][reporter := t] == map[reporter := t];
  }

  // ----- spacing

  predicate AllAt(ops: seq<Op>, now: int) {
    forall op :: op in ops ==> op.now == now
  }

  predicate NoChecks(ops: seq<Op>) {
    forall op :: op in ops ==> !op.CheckOp?
  }

  lemma {:induction false} UpdatesAt(c: Core, o: Options, susp: bool, us: seq<Update>, reporter: NodeID, now: int)
    ensures AllAt(UpdatesOps(c, o, susp, us, reporter, now), now) && NoChecks(UpdatesOps(c, o, susp, us, reporter, now))
  {
    hide ProcessUpdates, MergeRecord;
    if us != [] {
      UpdatesAt(c, o, susp, us[..|us| - 1], reporter, now);
    }
  }

  lemma {:induction false} ClearsAt(us: seq<Update>, now: int)
    ensures AllAt(ClearsOps(us, now), now) && NoChecks(ClearsOps(us, now))
  {
    if us != [] {
      ClearsAt(us[..|us| - 1], now);
    }
  }

  lemma {:induction false} SilentAt(c: Core, o: Options, ids: seq<NodeID>, table: map<NodeID, Rec>, now: int)
    ensures AllAt(SilentOps(c, o, ids, table, now), now) && NoChecks(SilentOps(c, o, ids, table, now))
  {
    hide ReportSilent;
    if ids != [] {
      SilentAt(c, o, ids[..|ids| - 1], table, now);
    }
  }

  /** The steps in which a process may operate on its entries. */
  predicate Operates(a: Action) {
    a.Receive? || a.ManagerTick? || a.GossipTick? || a.NoDirectAck? || a.NoIndirectAck?
  }

  lemma OpsAt(cfg: Config, p: Proc, a: Action)
    ensures if Operates(a) then AllAt(OpsOf(cfg, p, a), a.now) else OpsOf(cfg, p, a) == []
    ensures !a.ManagerTick? ==> NoChecks(OpsOf(cfg, p, a))
  {
    hide UpdatesOps, ClearsOps, SilentOps, Touch, Clears, Refresh, Swept;
    var c, o := p.core, cfg.opts;
    if a.Receive? {
      var msg, susp, now := a.msg, a.susp, a.now;
      var acked := Send(c, Message(Ack, c.local, msg.sender, c.own, msg.seqNum, []), msg.sender.Address());
      UpdatesAt(Touch(c, msg.sender, msg.inc, now), o, susp, msg.members, msg.sender, now);
      UpdatesAt(Touch(acked, msg.sender, msg.inc, now), o, susp, msg.members, msg.sender, now);
      UpdatesAt(Refresh(c, msg.sender, msg.inc, now), o, susp, msg.members, msg.sender, now);
      ClearsAt(Clears(c, msg.members, now), now);
    } else if a.GossipTick? {
      SilentAt(Swept(c, cfg.ts, a.susp, a.now), o, a.silent, c.table, a.now);
    }
  }

  lemma CoolingApply(o: Options, es: map<NodeID, Entry>, op: Op, x: NodeID, inc: int, t: int, clock: int)
    requires o.retention > 0 && t <= clock <= op.now
    requires Cooling(o, es, x, inc, t, clock) && !ClearsEffectively(es, op, x)
    ensures Cooling(o, Apply(o, es, op), x, inc, t, op.now)
  {
    hide AddReport, Cooling, CheckedEntries;
    match op
    case CheckOp(now) => CoolingScanned(o, es, x, inc, t, clock, now);
    case ClearOp(_, _, now) => CoolingLater(o, es, Apply(o, es, op), x, inc, t, clock, now);
    case Report(reporter, target, i, _, now) =>
      if target != x {
        CoolingLater(o, es, Apply(o, es, op), x, inc, t, clock, now);
      } else {
        CoolingReport(o, es, op, inc, t, clock);
      }
  }

  lemma CoolingReport(o: Options, es: map<NodeID, Entry>, op: Op, inc: int, t: int, clock: int)
    requires op.Report? && t <= clock <= op.now && Cooling(o, es, op.target, inc, t, clock)
    ensures Cooling(o, Apply(o, es, op), op.target, inc, t, op.now)
  {
    hide AddReport, Cooling, CheckedEntries;
    var Report(reporter, x, i, _, now) := op;
    CoolingLater(o, es, es, x, inc, t, clock, now);
    match Admit(es, x, i)
    case Stale =>
    case Current => CoolingReported(o, es, x, inc, t, now, reporter, now);
    case _ =>
      CoolingReopens(o, es, x, inc, t, now, i);
      CoolingOpened(o, es, x, inc, t, now, i, reporter, now);
  }

  /** None of the operations clears the suspicion of `x`. */
  ghost predicate NoneClears(o: Options, es: map<NodeID, Entry>, ops: seq<Op>, x: NodeID) {
    forall k :: 0 <= k < |ops| ==> !ClearsThere(o, es, ops, k, x)
  }

  ghost predicate ClearsThere(o: Options, es: map<NodeID, Entry>, ops: seq<Op>, k: nat, x: NodeID)
    requires k < |ops|
  {
    ClearsEffectively(ApplyAll(o, es, ops[..k]), ops[k], x)
  }

  lemma {:induction false} CoolingApplyAll(o: Options, es: map<NodeID, Entry>, ops: seq<Op>, x: NodeID, inc: int,
          t: int, clock: int, now: int)
    requires o.retention > 0 && t <= clock <= now && AllAt(ops, now)
    requires Cooling(o, es, x, inc, t, clock) && NoneClears(o, es, ops, x)
    ensures Cooling(o, ApplyAll(o, es, ops), x, inc, t, now)
    decreases |ops|
  {
    hide Apply, Cooling, ClearsEffectively;
    if ops == [] {
      CoolingLater(o, es, es, x, inc, t, clock, now);
    } else {
      var n := |ops| - 1;
      forall k | 0 <= k < n ensures !ClearsThere(o, es, ops[..n], k, x) {
        assert !ClearsThere(o, es, ops, k, x);
        assert ops[..n][..k] == ops[..k];
      }
      assert ops[n] in ops && !ClearsThere(o, es, ops, n, x);
      CoolingApplyAll(o, es, ops[..n], x, inc, t, clock, now);
      CoolingApply(o, ApplyAll(o, es, ops[..n]), ops[n], x, inc, t, now);
    }
  }

  /** The clock of process `i` does not go back. */
  ghost predicate ClockRises(steps: seq<Step>, i: nat) {
    forall j, k :: 0 <= j <= k < |steps| && OperatesAt(steps[j], i) && OperatesAt(steps[k], i) ==> steps[j].a.now <= steps[k].a.now
  }

  predicate OperatesAt(st: Step, i: nat) {
    st.Do? && st.i == i && Operates(st.a)
  }

  /** Step `st` confirms the suspicion of `x` at `inc`. */
  ghost predicate ConfirmsAt(cfg: Config, s: State, st: Step, i: nat, x: NodeID, inc: int) {
    && st.Do? && st.i == i && st.a.ManagerTick? && i in s.procs
    && var es := s.procs[i].core.entries;
       DueIn(es, x, cfg.opts, st.a.now) && es[x].inc == inc
  }

  /** No step between `a` and `b` clears process `i`'s suspicion of `x`. */
  ghost predicate NoneClearsBetween(cfg: Config, states: seq<State>, steps: seq<Step>, i: nat, x: NodeID, a: nat, b: nat)
    requires b <= |steps| <= |states|
  {
    forall j :: a < j < b && i in states[j].procs ==>
      NoneClears(cfg.opts, states[j].procs[i].core.entries, StepOps(cfg, states[j], steps[j], i), x)
  }

  lemma ConfirmationCools(cfg: Config, s: State, st: Step, i: nat, x: NodeID, inc: int)
    requires Guard(cfg, s, st) && ConfirmsAt(cfg, s, st, i, x, inc) && cfg.opts.retention > 0
    ensures i in After(cfg, s, st).procs
    ensures Cooling(cfg.opts, After(cfg, s, st).procs[i].core.entries, x, inc, st.a.now, st.a.now)
  {
    hide Act, Enabled, InFlight;
    StepMoves(cfg, s, st, i);
    ApplyOne(cfg.opts, s.procs[i].core.entries, CheckOp(st.a.now));
  }

  lemma {:induction false} CoolingInRuns(cfg: Config, states: seq<State>, steps: seq<Step>, i: nat, x: NodeID, inc: int,
          a: nat, n: nat) returns (clock: int, j: nat)
    requires Run(cfg, states, steps) && cfg.opts.retention > 0 && ClockRises(steps, i) && a < n <= |steps|
    requires ConfirmsAt(cfg, states[a], steps[a], i, x, inc) && NoneClearsBetween(cfg, states, steps, i, x, a, n)
    ensures i in states[n].procs
    ensures Cooling(cfg.opts, states[n].procs[i].core.entries, x, inc, steps[a].a.now, clock) && steps[a].a.now <= clock
    ensures a <= j < n && OperatesAt(steps[j], i) && steps[j].a.now == clock
    decreases n
  {
    hide Guard, After, Cooling, StepOps, NoneClears, ConfirmsAt, OpsOf;
    assert OperatesAt(steps[a], i) by {
      TickOperates(cfg, states[a], steps[a], i, x, inc);
    }
    if n == a + 1 {
      clock, j := steps[a].a.now, a;
      ConfirmationCools(cfg, states[a], steps[a], i, x, inc);
    } else {
      clock, j := CoolingInRuns(cfg, states, steps, i, x, inc, a, n - 1);
      var s, st := states[n - 1], steps[n - 1];
      var es := s.procs[i].core.entries;
      StepMoves(cfg, s, st, i);
      StepAt(cfg, s, st, i);
      if OperatesAt(st, i) {
        CoolingApplyAll(cfg.opts, es, StepOps(cfg, s, st, i), x, inc, steps[a].a.now, clock, st.a.now);
        clock, j := st.a.now, n - 1;
      } else {
        ApplyNone(cfg.opts, es);
      }
    }
  }

  lemma TickOperates(cfg: Config, s: State, st: Step, i: nat, x: NodeID, inc: int)
    requires ConfirmsAt(cfg, s, st, i, x, inc)
    ensures OperatesAt(st, i)
  {
  }

  lemma StepAt(cfg: Config, s: State, st: Step, i: nat)
    ensures if OperatesAt(st, i) then AllAt(StepOps(cfg, s, st, i), st.a.now) else StepOps(cfg, s, st, i) == []
  {
    hide OpsOf;
    if st.Do? && i in s.procs {
      OpsAt(cfg, s.procs[i], st.a);
    }
  }

  /** In every run, on a clock that does not go back, two confirmations of the same suspicion by the same process
      are more than a retention and a timeout apart unless a clear took effect in between. */
  lemma SpacedInRuns(cfg: Config, states: seq<State>, steps: seq<Step>, i: nat, x: NodeID, inc: int, a: nat, b: nat)
    requires Run(cfg, states, steps) && cfg.opts.retention > 0 && ClockRises(steps, i) && a < b < |steps|
    requires ConfirmsAt(cfg, states[a], steps[a], i, x, inc) && ConfirmsAt(cfg, states[b], steps[b], i, x, inc)
    requires NoneClearsBetween(cfg, states, steps, i, x, a, b)
    ensures steps[b].a.now - steps[a].a.now > cfg.opts.retention + cfg.opts.timeout
  {
    hide Guard, After, StepOps, NoneClears;
    var clock, j := CoolingInRuns(cfg, states, steps, i, x, inc, a, b);
  }
}
