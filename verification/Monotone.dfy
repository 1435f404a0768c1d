/** No stale overwrite: which steps can lower the incarnation of a member they do not delete. */
module Monotone {
  import opened Types
  import opened SuspicionSpec
  import opened UpdateLogSpec
  import opened DetectorSpec
  import opened PingAckSpec
  import opened GossipSpec
  import opened CallbackSpec
  import opened Cluster

  /** Nothing leaves the table and no incarnation drops. */
  predicate Rises(c: Core, c': Core) {
    && c'.local == c.local
    && forall k :: k in c.table ==> k in c'.table && c.table[k].inc <= c'.table[k].inc
  }

  /** The same members at the same incarnations. */
  predicate SameIncs(c: Core, c': Core) {
    && c'.local == c.local
    && c'.table.Keys == c.table.Keys
    && forall k :: k in c.table ==> c'.table[k].inc == c.table[k].inc
  }

  lemma ProcessSuspicionSame(c: Core, o: Options, reporter: NodeID, target: NodeID, inc: int, now: int)
    ensures SameIncs(c, ProcessSuspicion(c, o, reporter, target, inc, now))
  {
    hide AddReport, Broadcast, Fires;
  }

  lemma ClearSuspectRises(c: Core, target: NodeID, inc: int)
    ensures Rises(c, ClearSuspect(c, target, inc))
  {
  }

  lemma EscalateRises(c: Core, o: Options, susp: bool, u: Update, reporter: NodeID, now: int)
    ensures Rises(c, Escalate(c, o, susp, u, reporter, now))
  {
    hide ProcessSuspicion, ClearSuspect;
    ProcessSuspicionSame(c, o, reporter, u.id, u.inc, now);
    ClearSuspectRises(c, u.id, u.inc);
  }

  lemma ProcessUpdateRises(c: Core, o: Options, susp: bool, u: Update, reporter: NodeID, now: int)
    ensures Rises(c, ProcessUpdate(c, o, susp, u, reporter, now))
  {
    hide Escalate;
    EscalateRises(c, o, susp, u, reporter, now);
    if u.id in c.table {
      EscalateRises(MergeRecord(c, susp, u, now), o, susp, u, reporter, now);
    }
  }

  lemma {:induction false} ProcessUpdatesRise(c: Core, o: Options, susp: bool, us: seq<Update>,
          reporter: NodeID, now: int)
    ensures Rises(c, ProcessUpdates(c, o, susp, us, reporter, now))
  {
    hide ProcessUpdate;
    if us != [] {
      var n := |us| - 1;
      ProcessUpdatesRise(c, o, susp, us[..n], reporter, now);
      ProcessUpdateRises(ProcessUpdates(c, o, susp, us[..n], reporter, now), o, susp, us[n], reporter, now);
    }
  }

  lemma TouchRises(c: Core, sender: NodeID, inc: int, now: int)
    ensures Rises(c, Touch(c, sender, inc, now))
  {
  }

  lemma HandleAliveRises(c: Core, sender: NodeID, inc: int, now: int)
    ensures Rises(c, HandleAlive(c, sender, inc, now))
  {
  }

  lemma {:induction false} AbsorbAllRises(c: Core, us: seq<Update>, now: int)
    ensures Rises(c, AbsorbAll(c, us, now))
  {
    if us != [] {
      AbsorbAllRises(c, us[..|us| - 1], now);
    }
  }

  lemma {:induction false} ClearAllRises(c: Core, us: seq<Update>)
    ensures Rises(c, ClearAll(c, us))
  {
    hide ClearSuspect;
    if us != [] {
      var n := |us| - 1;
      ClearAllRises(c, us[..n]);
      ClearSuspectRises(ClearAll(c, us[..n]), us[n].id, us[n].inc);
    }
  }

  lemma {:induction false} ReportSilentSame(c: Core, o: Options, ids: seq<NodeID>, table: map<NodeID, Rec>, now: int)
    ensures SameIncs(c, ReportSilent(c, o, ids, table, now))
  {
    hide ProcessSuspicion;
    if ids != [] {
      var n := |ids| - 1;
      ReportSilentSame(c, o, ids[..n], table, now);
      var inc := RecordedInc(table, ids[n]);
      var c1 := Append(ReportSilent(c, o, ids[..n], table, now), Update(ids[n], inc, Suspected, now));
      ProcessSuspicionSame(c1, o, c.local, ids[n], inc, now);
    }
  }

  lemma CheckSame(c: Core, o: Options, now: int)
    ensures SameIncs(c, Check(c, o, now))
  {
  }

  lemma PingHandlersRise(cfg: Config, p: Proc, a: Action)
    requires a.Receive? && ReceiveEnabled(p, a)
    requires a.msg.kind.Ping? || a.msg.kind.Ack? || a.msg.kind.IndirectPing? || a.msg.kind.IndirectAck?
    ensures Rises(p.core, Handle(cfg, p, a).core)
  {
    hide ProcessUpdates, Touch, ClearSuspect, ReceiveEnabled, Live, Notify, SignalDirect, SignalIndirect;
    var c, msg, now := p.core, a.msg, a.now;
    match msg.kind
    case Ping =>
      var c1 := Send(c, Message(Ack, c.local, msg.sender, c.own, msg.seqNum, []), msg.sender.Address());
      TouchRises(c1, msg.sender, msg.inc, now);
      ProcessUpdatesRise(Touch(c1, msg.sender, msg.inc, now), cfg.opts, a.susp, msg.members, msg.sender, now);
    case Ack =>
      TouchRises(c, msg.sender, msg.inc, now);
      ClearSuspectRises(Touch(c, msg.sender, msg.inc, now), msg.sender, msg.inc);
    case IndirectPing => ProcessUpdatesRise(Refresh(c, msg.sender, msg.inc, now), cfg.opts, a.susp, msg.members, msg.sender, now);
    case IndirectAck => ClearSuspectRises(Reported(c, msg.target, msg.inc, now), msg.target, msg.inc);
  }

  /** The message handlers other than handleJoin and handleLeave: nothing is lowered. */
  lemma HandleRises(cfg: Config, p: Proc, a: Action)
    requires a.Receive? && ReceiveEnabled(p, a) && !a.msg.kind.Join? && !a.msg.kind.Leave?
    ensures Rises(p.core, Handle(cfg, p, a).core)
  {
    hide ProcessUpdates, ProcessSuspicion, AbsorbAll, ClearAll, Clears, Touch, ClearSuspect, HandleAlive,
      ReceiveEnabled, HandlePing, HandleAck, HandleIndirectPing, HandleIndirectAck;
    var c, msg, now := p.core, a.msg, a.now;
    match msg.kind
    case Heartbeat =>
      TouchRises(c, msg.sender, msg.inc, now);
      ProcessUpdatesRise(Touch(c, msg.sender, msg.inc, now), cfg.opts, a.susp, msg.members, msg.sender, now);
    case JoinResponse =>
      AbsorbAllRises(c, msg.members, now);
      ClearAllRises(AbsorbAll(c, msg.members, now), Clears(c, msg.members, now));
    case Suspect => ProcessSuspicionSame(c, cfg.opts, msg.sender, msg.target, msg.inc, now);
    case AliveMsg => HandleAliveRises(c, msg.sender, msg.inc, now);
    case Confirm =>
    case _ => PingHandlersRise(cfg, p, a);
  }

  /** Members of `c'` that were members of `c` are at no lower incarnation. */
  predicate Survivors(c: Core, c': Core) {
    forall k :: k in c.table && k in c'.table ==> c.table[k].inc <= c'.table[k].inc
  }

  lemma DeclareSurvivors(c: Core, o: Options, susp: bool, id: NodeID, now: int)
    ensures Survivors(c, DeclareSuspicion(c, o, susp, id, now))
  {
    hide ProcessSuspicion;
    if susp {
      var c1 :=
        if id !in c.table then PutLogged(c, id, Rec(0, Suspected, At(now), At(now)), now)
        else if !c.table[id].status.Suspected? then
          PutLogged(c, id, c.table[id].(status := Suspected, since := At(now)), now)
        else c;
      ProcessSuspicionSame(c1, o, c.local, id, c1.table[id].inc, now);
    }
  }

  lemma GossipCheckSurvivors(c: Core, o: Options, ts: Timeouts, susp: bool, now: int, silent: seq<NodeID>,
          removed: seq<NodeID>)
    ensures Survivors(c, GossipCheck(c, o, ts, susp, now, silent, removed))
  {
    hide ReportSilent;
    ReportSilentSame(Swept(c, ts, susp, now), o, silent, c.table, now);
  }

  /** The step writes an incarnation over the record of `k` without comparing: a late OnSuspect or
      OnConfirm callback, a Join from an identity already recorded, or taking over a recorded identity. */
  ghost predicate OverwritesMember(p: Proc, a: Action, k: NodeID)
    requires k in p.core.table
  {
    var was := p.core.table[k].inc;
    || (a.Callback? && !a.task.OnClear? && a.task.target == k && a.task.inc < was)
    || (a.Receive? && a.msg.kind.Join? && a.msg.sender == k && a.msg.inc < was)
    || (a.Reidentify? && a.id == k && k != p.core.local && p.core.own < was)
  }

  /** Does the step delete the record of `k`? (A change of identity drops the old own entry first.) */
  ghost predicate DeletesMember(cfg: Config, p: Proc, a: Action, k: NodeID)
    requires Enabled(cfg, p, a)
  {
    k !in Act(cfg, p, a).core.table || (a.Reidentify? && k == p.core.local)
  }

  lemma JoinLowers(p: Proc, sender: NodeID, inc: int, now: int, k: NodeID)
    requires k in p.core.table && k in JoinedTable(p.core, sender, inc, now)
    ensures JoinedTable(p.core, sender, inc, now)[k].inc < p.core.table[k].inc <==> k == sender && inc < p.core.table[k].inc
  {
  }

  /** Timers, ticks and the ping loop lower nothing. */
  lemma TimersSurvivors(cfg: Config, p: Proc, a: Action)
    requires Enabled(cfg, p, a) && !a.Receive? && !a.Callback? && !a.Reidentify?
    ensures Survivors(p.core, Act(cfg, p, a).core)
  {
    hide Handle, DeclareSuspicion, GossipCheck, Check, Live, RunTask, Rejoin, Selection, Listing;
    var c := p.core;
    match a
    case ManagerTick(now) => CheckSame(c, cfg.opts, now);
    case GossipTick(susp, now, silent, removed) =>
      GossipCheckSurvivors(c, cfg.opts, cfg.ts, susp, now, silent, removed);
    case NoDirectAck(susp, helpers, now) => DeclareSurvivors(c, cfg.opts, susp, p.phase.target, now);
    case NoIndirectAck(susp, now) => DeclareSurvivors(c, cfg.opts, susp, p.phase.target, now);
    case _ =>
  }

  lemma CallbackOverwrites(cfg: Config, p: Proc, a: Action, k: NodeID)
    requires Enabled(cfg, p, a) && (a.Callback? || a.Reidentify?) && k in p.core.table && !DeletesMember(cfg, p, a, k)
    ensures Act(cfg, p, a).core.table[k].inc < p.core.table[k].inc <==> OverwritesMember(p, a, k)
  {
    hide Act, Broadcast, Enabled;
    if a.Callback? {
      CallbackActs(cfg, p, a);
    } else {
      ReidentifyActs(cfg, p, a);
    }
  }

  /** Exactly those steps lower the incarnation of a member they do not delete. */
  lemma StaleOverwrite(cfg: Config, p: Proc, a: Action, k: NodeID)
    requires Enabled(cfg, p, a) && k in p.core.table && !DeletesMember(cfg, p, a, k)
    ensures Act(cfg, p, a).core.table[k].inc < p.core.table[k].inc <==> OverwritesMember(p, a, k)
  {
    hide Handle, Act, JoinedTable;
    if a.Callback? || a.Reidentify? {
      CallbackOverwrites(cfg, p, a, k);
    } else if !a.Receive? {
      TimersSurvivors(cfg, p, a);
    } else {
      ReceiveActs(cfg, p, a);
      if a.msg.kind.Join? {
        JoinHandled(cfg, p, a);
        JoinLowers(p, a.msg.sender, a.msg.inc, a.now, k);
      } else if a.msg.kind.Leave? {
        LeaveSurvivors(cfg, p, a);
      } else {
        HandleRises(cfg, p, a);
      }
    }
  }

  lemma JoinHandled(cfg: Config, p: Proc, a: Action)
    requires a.Receive? && ReceiveEnabled(p, a) && a.msg.kind.Join?
    ensures Handle(cfg, p, a).core.table == JoinedTable(p.core, a.msg.sender, a.msg.inc, a.now)
  {
  }

  lemma LeaveSurvivors(cfg: Config, p: Proc, a: Action)
    requires a.Receive? && ReceiveEnabled(p, a) && a.msg.kind.Leave?
    ensures Survivors(p.core, Handle(cfg, p, a).core)
  {
  }

  /** `states` is the history of one process that takes `acts` one after the other. */
  ghost predicate Life(cfg: Config, states: seq<Proc>, acts: seq<Action>) {
    && |states| == |acts| + 1
    && forall j :: 0 <= j < |acts| ==> Enabled(cfg, states[j], acts[j]) && states[j + 1] == Act(cfg, states[j], acts[j])
  }

  /** While a member is neither deleted nor overwritten, its incarnation never drops. */
  lemma {:induction false} NeverLowered(cfg: Config, states: seq<Proc>, acts: seq<Action>, k: NodeID, i: nat, j: nat)
    requires Life(cfg, states, acts) && i <= j < |states|
    requires k in states[i].core.table
    requires forall t :: i <= t < j && k in states[t].core.table ==>
      !DeletesMember(cfg, states[t], acts[t], k) && !OverwritesMember(states[t], acts[t], k)
    ensures k in states[j].core.table && states[i].core.table[k].inc <= states[j].core.table[k].inc
    decreases j - i
  {
    hide Enabled, Act, OverwritesMember;
    if i < j {
      NeverLowered(cfg, states, acts, k, i, j - 1);
      StaleOverwrite(cfg, states[j - 1], acts[j - 1], k);
    }
  }
}
