/** The record a process keeps of itself. */
module OwnEntry {
  import opened Types
  import opened SuspicionSpec
  import opened UpdateLogSpec
  import opened DetectorSpec
  import opened PingAckSpec
  import opened GossipSpec
  import opened CallbackSpec
  import opened Cluster

  /** The local node is in the table, and nothing in the process works towards suspecting it. */
  ghost predicate SelfKnown(c: Core) {
    && c.local in c.table
    && c.local !in c.entries
    && forall t :: t in c.tasks ==> t.target != c.local
  }

  ghost predicate ProcSelfKnown(p: Proc) {
    SelfKnown(p.core) && (!p.phase.Idle? ==> p.phase.target != p.core.local)
  }

  predicate SelfAlive(c: Core) {
    c.local in c.table && c.table[c.local].status.Alive?
  }

  /** `c'` knows itself, and takes itself for alive if `c` did. */
  ghost predicate Steady(c: Core, c': Core) {
    c'.local == c.local && SelfKnown(c') && (SelfAlive(c) ==> SelfAlive(c'))
  }

  lemma LodgeSteady(c: Core, o: Options, e: Entry, reporter: NodeID, target: NodeID, now: int)
    requires SelfKnown(c) && target != c.local
    ensures Steady(c, Lodge(c, o, e, reporter, target, now))
  {
  }

  lemma ProcessSuspicionSteady(c: Core, o: Options, reporter: NodeID, target: NodeID, inc: int, now: int)
    requires SelfKnown(c)
    ensures Steady(c, ProcessSuspicion(c, o, reporter, target, inc, now))
  {
    hide Lodge, Broadcast;
    if target != c.local {
      LodgeSteady(c, o, NewEntry(inc), reporter, target, now);
      if target in c.entries {
        LodgeSteady(c, o, c.entries[target], reporter, target, now);
      }
    }
  }

  lemma ClearSuspectSteady(c: Core, target: NodeID, inc: int)
    requires SelfKnown(c)
    ensures Steady(c, ClearSuspect(c, target, inc))
  {
  }

  lemma EscalateSteady(c: Core, o: Options, susp: bool, u: Update, reporter: NodeID, now: int)
    requires SelfKnown(c)
    ensures Steady(c, Escalate(c, o, susp, u, reporter, now))
  {
    hide ProcessSuspicion, ClearSuspect;
    ProcessSuspicionSteady(c, o, reporter, u.id, u.inc, now);
    ClearSuspectSteady(c, u.id, u.inc);
  }

  lemma ProcessUpdateSteady(c: Core, o: Options, susp: bool, u: Update, reporter: NodeID, now: int)
    requires SelfKnown(c)
    ensures Steady(c, ProcessUpdate(c, o, susp, u, reporter, now))
  {
    hide Escalate;
    EscalateSteady(c, o, susp, u, reporter, now);
    if u.id in c.table && u.id != c.local {
      EscalateSteady(MergeRecord(c, susp, u, now), o, susp, u, reporter, now);
    }
  }

  lemma {:induction false} ProcessUpdatesSteady(c: Core, o: Options, susp: bool, us: seq<Update>,
          reporter: NodeID, now: int)
    requires SelfKnown(c)
    ensures Steady(c, ProcessUpdates(c, o, susp, us, reporter, now))
  {
    hide ProcessUpdate;
    if us != [] {
      var n := |us| - 1;
      ProcessUpdatesSteady(c, o, susp, us[..n], reporter, now);
      ProcessUpdateSteady(ProcessUpdates(c, o, susp, us[..n], reporter, now), o, susp, us[n], reporter, now);
    }
  }

  lemma TouchSteady(c: Core, sender: NodeID, inc: int, now: int)
    requires SelfKnown(c)
    ensures Steady(c, Touch(c, sender, inc, now))
  {
  }

  lemma HandleAliveSteady(c: Core, sender: NodeID, inc: int, now: int)
    requires SelfKnown(c)
    ensures Steady(c, HandleAlive(c, sender, inc, now))
  {
  }

  /** A join response never touches the local record. */
  lemma {:induction false} AbsorbAllLocal(c: Core, us: seq<Update>, now: int)
    requires SelfKnown(c)
    ensures Steady(c, AbsorbAll(c, us, now)) && AbsorbAll(c, us, now).table[c.local] == c.table[c.local]
  {
    if us != [] {
      AbsorbAllLocal(c, us[..|us| - 1], now);
    }
  }

  lemma {:induction false} ClearsForeign(c: Core, us: seq<Update>, now: int)
    ensures forall u :: u in Clears(c, us, now) ==> u.id != AbsorbAll(c, us, now).local && u in us && u.status.Alive?
    ensures AbsorbAll(c, us, now).local == c.local
  {
    if us != [] {
      ClearsForeign(c, us[..|us| - 1], now);
    }
  }

  lemma {:induction false} ClearAllLocal(c: Core, us: seq<Update>)
    requires SelfKnown(c) && forall u :: u in us ==> u.id != c.local
    ensures Steady(c, ClearAll(c, us)) && ClearAll(c, us).table[c.local] == c.table[c.local]
  {
    if us != [] {
      ClearAllLocal(c, us[..|us| - 1]);
    }
  }

  lemma HandleJoinResponseLocal(c: Core, us: seq<Update>, now: int)
    requires SelfKnown(c)
    ensures var c' := HandleJoinResponse(c, us, now);
      Steady(c, c') && c'.table[c.local] == c.table[c.local]
  {
    hide AbsorbAll, ClearAll, Clears;
    AbsorbAllLocal(c, us, now);
    ClearsForeign(c, us, now);
    ClearAllLocal(AbsorbAll(c, us, now), Clears(c, us, now));
  }

  lemma {:induction false} ReportSilentSteady(c: Core, o: Options, ids: seq<NodeID>, table: map<NodeID, Rec>, now: int)
    requires SelfKnown(c)
    ensures Steady(c, ReportSilent(c, o, ids, table, now))
  {
    hide ProcessSuspicion;
    if ids != [] {
      var n := |ids| - 1;
      ReportSilentSteady(c, o, ids[..n], table, now);
      var inc := RecordedInc(table, ids[n]);
      var c1 := Append(ReportSilent(c, o, ids[..n], table, now), Update(ids[n], inc, Suspected, now));
      ProcessSuspicionSteady(c1, o, c.local, ids[n], inc, now);
    }
  }

  lemma DeclareSteady(c: Core, o: Options, susp: bool, id: NodeID, now: int)
    requires SelfKnown(c) && id != c.local
    ensures Steady(c, DeclareSuspicion(c, o, susp, id, now))
  {
    hide ProcessSuspicion;
    if susp {
      var c1 :=
        if id !in c.table then PutLogged(c, id, Rec(0, Suspected, At(now), At(now)), now)
        else if !c.table[id].status.Suspected? then
          PutLogged(c, id, c.table[id].(status := Suspected, since := At(now)), now)
        else c;
      ProcessSuspicionSteady(c1, o, c.local, id, c1.table[id].inc, now);
    }
  }

  lemma CheckSteady(c: Core, o: Options, now: int)
    requires SelfKnown(c)
    ensures Steady(c, Check(c, o, now))
  {
    var c' := Check(c, o, now);
    forall t | t in c'.tasks ensures t.target != c'.local {
      if t !in c.tasks {
        assert t in ConfirmTasks(c, o, now);
      }
    }
  }

  lemma RunTaskSteady(c: Core, task: Task, now: int)
    requires SelfKnown(c) && task in c.tasks
    ensures Steady(c, RunTask(c, task, now))
  {
    hide Broadcast;
    forall t | t in c.tasks - multiset{task} ensures t in c.tasks {
    }
  }

  // ----- one step

  /** The message makes its receiver drop its own record: a Join from its own address under another
      timestamp, or its own Leave. */
  predicate RemovesSelf(c: Core, a: Action) {
    a.Receive? && ((a.msg.kind.Join? && Displaces(a.msg.sender, c.local)) || (a.msg.kind.Leave? && a.msg.sender == c.local))
  }

  /** The message makes its receiver record itself as failed; only the gossip detector handles it. */
  predicate FailsSelf(c: Core, a: Action) {
    a.Receive? && a.msg.kind.Confirm? && a.msg.target == c.local && c.local in c.table && a.msg.inc >= c.table[c.local].inc
  }

  /** The new identity is the old one, or one the process has never heard of. */
  ghost predicate FreshIdentity(p: Proc, a: Action) {
    a.Reidentify? && a.id != p.core.local ==>
      && a.id !in p.core.table && a.id !in p.core.entries
      && (forall t :: t in p.core.tasks ==> t.target != a.id)
      && (!p.phase.Idle? ==> p.phase.target != a.id)
  }

  lemma JoinSelf(cfg: Config, p: Proc, a: Action)
    requires a.Receive? && ReceiveEnabled(p, a) && a.msg.kind.Join? && SelfKnown(p.core)
    ensures var c' := Handle(cfg, p, a).core;
      && c'.local == p.core.local
      && (c'.local in c'.table <==> !RemovesSelf(p.core, a))
      && (c'.local in c'.table ==> Steady(p.core, c'))
  {
  }

  lemma LeaveSelf(cfg: Config, p: Proc, a: Action)
    requires a.Receive? && ReceiveEnabled(p, a) && a.msg.kind.Leave? && SelfKnown(p.core)
    ensures var c' := Handle(cfg, p, a).core;
      && c'.local == p.core.local
      && (c'.local in c'.table <==> !RemovesSelf(p.core, a))
      && (c'.local in c'.table ==> Steady(p.core, c'))
  {
  }

  lemma ConfirmSelf(cfg: Config, p: Proc, a: Action)
    requires a.Receive? && ReceiveEnabled(p, a) && a.msg.kind.Confirm? && SelfKnown(p.core)
    ensures var c' := Handle(cfg, p, a).core;
      && c'.local == p.core.local && SelfKnown(c')
      && (SelfAlive(p.core) ==> (SelfAlive(c') <==> !FailsSelf(p.core, a)))
  {
  }

  lemma PingHandlersSteady(cfg: Config, p: Proc, a: Action)
    requires a.Receive? && ReceiveEnabled(p, a) && SelfKnown(p.core)
    requires a.msg.kind.Ping? || a.msg.kind.Ack? || a.msg.kind.IndirectPing? || a.msg.kind.IndirectAck?
    ensures Steady(p.core, Handle(cfg, p, a).core)
  {
    hide ProcessUpdates, ClearSuspect, ReceiveEnabled, Live, Notify, SignalDirect, SignalIndirect, Touch;
    var c, msg, now := p.core, a.msg, a.now;
    match msg.kind
    case Ping =>
      var c1 := Send(c, Message(Ack, c.local, msg.sender, c.own, msg.seqNum, []), msg.sender.Address());
      TouchSteady(c1, msg.sender, msg.inc, now);
      ProcessUpdatesSteady(Touch(c1, msg.sender, msg.inc, now), cfg.opts, a.susp, msg.members, msg.sender, now);
    case Ack =>
      TouchSteady(c, msg.sender, msg.inc, now);
      ClearSuspectSteady(Touch(c, msg.sender, msg.inc, now), msg.sender, msg.inc);
    case IndirectPing =>
      ProcessUpdatesSteady(Refresh(c, msg.sender, msg.inc, now), cfg.opts, a.susp, msg.members, msg.sender, now);
    case IndirectAck => ClearSuspectSteady(Reported(c, msg.target, msg.inc, now), msg.target, msg.inc);
  }

  lemma HandleSteady(cfg: Config, p: Proc, a: Action)
    requires a.Receive? && ReceiveEnabled(p, a) && SelfKnown(p.core)
    requires !a.msg.kind.Join? && !a.msg.kind.Leave? && !a.msg.kind.Confirm?
    ensures Steady(p.core, Handle(cfg, p, a).core)
  {
    hide ProcessUpdates, ProcessSuspicion, HandleAlive, ReceiveEnabled, HandlePing, HandleAck, HandleIndirectPing,
      HandleIndirectAck, HandleJoinResponse, Touch;
    var c, msg, now := p.core, a.msg, a.now;
    match msg.kind
    case Heartbeat =>
      TouchSteady(c, msg.sender, msg.inc, now);
      ProcessUpdatesSteady(Touch(c, msg.sender, msg.inc, now), cfg.opts, a.susp, msg.members, msg.sender, now);
    case JoinResponse => HandleJoinResponseLocal(c, msg.members, now);
    case Suspect => ProcessSuspicionSteady(c, cfg.opts, msg.sender, msg.target, msg.inc, now);
    case AliveMsg => HandleAliveSteady(c, msg.sender, msg.inc, now);
    case _ => PingHandlersSteady(cfg, p, a);
  }

  lemma TimersSteady(cfg: Config, p: Proc, a: Action)
    requires Enabled(cfg, p, a) && ProcSelfKnown(p) && !a.Receive? && !a.Callback? && !a.Reidentify?
    ensures Steady(p.core, Act(cfg, p, a).core)
    ensures ProcSelfKnown(Act(cfg, p, a))
  {
    hide Handle, DeclareSuspicion, ReportSilent, Check, Live, RunTask, Rejoin, Listing, Broadcast;
    var c := p.core;
    match a
    case ManagerTick(now) => CheckSteady(c, cfg.opts, now);
    case GossipTick(susp, now, silent, removed) =>
      ReportSilentSteady(Swept(c, cfg.ts, susp, now), cfg.opts, silent, c.table, now);
    case NoDirectAck(susp, helpers, now) => DeclareSteady(c, cfg.opts, susp, p.phase.target, now);
    case NoIndirectAck(susp, now) => DeclareSteady(c, cfg.opts, susp, p.phase.target, now);
    case Begin(target, now) =>
      assert target in [target];
    case _ =>
  }

  lemma ReidentifySelf(cfg: Config, p: Proc, a: Action)
    requires Enabled(cfg, p, a) && ProcSelfKnown(p) && a.Reidentify? && FreshIdentity(p, a)
    ensures ProcSelfKnown(Act(cfg, p, a)) && SelfAlive(Act(cfg, p, a).core)
  {
    hide Act, Enabled;
    ReidentifyActs(cfg, p, a);
  }

  /** Phases are left alone by messages and callbacks. */
  lemma HandlePhase(cfg: Config, p: Proc, a: Action)
    requires a.Receive? && ReceiveEnabled(p, a)
    ensures Handle(cfg, p, a).phase == p.phase
  {
    hide ProcessUpdates, ProcessSuspicion, HandleAlive, ReceiveEnabled, HandleJoinResponse, Touch, HandleJoin, HandleLeave,
      ClearSuspect, Reported, Live;
  }

  /** A process loses its own record exactly by a Join that displaces it or by its own Leave coming back;
      no other step of either detector, no timer and no late callback removes it. */
  lemma OwnEntryKept(cfg: Config, p: Proc, a: Action)
    requires Enabled(cfg, p, a) && ProcSelfKnown(p) && FreshIdentity(p, a)
    ensures var c' := Act(cfg, p, a).core;
      (c'.local in c'.table <==> !RemovesSelf(p.core, a))
    ensures !RemovesSelf(p.core, a) ==> ProcSelfKnown(Act(cfg, p, a))
  {
    hide Act, Enabled, Handle, RunTask;
    if a.Receive? {
      ReceiveActs(cfg, p, a);
      HandlePhase(cfg, p, a);
      match a.msg.kind
      case Join => JoinSelf(cfg, p, a);
      case Leave => LeaveSelf(cfg, p, a);
      case Confirm => ConfirmSelf(cfg, p, a);
      case _ => HandleSteady(cfg, p, a);
    } else if a.Callback? {
      CallbackActs(cfg, p, a);
      RunTaskSteady(p.core, a.task, a.now);
    } else if a.Reidentify? {
      ReidentifySelf(cfg, p, a);
    } else {
      TimersSteady(cfg, p, a);
    }
  }

  /** Its own record stays Alive, except exactly when a Confirm naming it arrives. */
  lemma OwnEntryAlive(cfg: Config, p: Proc, a: Action)
    requires Enabled(cfg, p, a) && ProcSelfKnown(p) && FreshIdentity(p, a) && !RemovesSelf(p.core, a)
    requires SelfAlive(p.core)
    ensures SelfAlive(Act(cfg, p, a).core) <==> !FailsSelf(p.core, a)
  {
    hide Act, Enabled, Handle, RunTask;
    if a.Receive? {
      ReceiveActs(cfg, p, a);
      match a.msg.kind
      case Join => JoinSelf(cfg, p, a);
      case Leave => LeaveSelf(cfg, p, a);
      case Confirm => ConfirmSelf(cfg, p, a);
      case _ => HandleSteady(cfg, p, a);
    } else if a.Callback? {
      CallbackActs(cfg, p, a);
      RunTaskSteady(p.core, a.task, a.now);
    } else if a.Reidentify? {
      ReidentifySelf(cfg, p, a);
    } else {
      TimersSteady(cfg, p, a);
    }
  }

  // ----- whole runs

  /** Identities are fresh and nobody receives a Join or Leave that makes it drop itself. */
  ghost predicate Considerate(s: State, st: Step) {
    st.Do? && st.i in s.procs ==> FreshIdentity(s.procs[st.i], st.a) && !RemovesSelf(s.procs[st.i].core, st.a)
  }

  /** No process handles a Confirm that names it, as in a cluster that only runs the ping/ack detector. */
  ghost predicate Unconfirmed(s: State, st: Step) {
    st.Do? && st.i in s.procs ==> !FailsSelf(s.procs[st.i].core, st.a)
  }

  /** In every reachable state of such a run every process has its own record, and with the ping/ack
      detector alone that record is Alive. */
  lemma {:induction false} OwnEntryInRuns(cfg: Config, states: seq<State>, steps: seq<Step>)
    requires Run(cfg, states, steps)
    requires forall j :: 0 <= j < |steps| ==> Considerate(states[j], steps[j])
    ensures forall i :: i in states[|steps|].procs ==> ProcSelfKnown(states[|steps|].procs[i])
    ensures (forall j :: 0 <= j < |steps| ==> Unconfirmed(states[j], steps[j])) ==>
      forall i :: i in states[|steps|].procs ==> SelfAlive(states[|steps|].procs[i].core)
    decreases |steps|
  {
    hide Act, Enabled, RemovesSelf, FreshIdentity, FailsSelf;
    if steps != [] {
      var n := |steps| - 1;
      RunPrefix(cfg, states, steps);
      OwnEntryInRuns(cfg, states[..n + 1], steps[..n]);
      var s, st := states[n], steps[n];
      assert Considerate(s, st);
      if st.Do? {
        OwnEntryKept(cfg, s.procs[st.i], st.a);
        if Unconfirmed(s, st) && SelfAlive(s.procs[st.i].core) {
          OwnEntryAlive(cfg, s.procs[st.i], st.a);
        }
      }
    }
  }
}
