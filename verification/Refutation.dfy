/** How a suspicion is refuted, from the suspected process to the one that suspects it. */
module Refutation {
  import opened Types
  import opened SuspicionSpec
  import opened UpdateLogSpec
  import opened DetectorSpec
  import opened PingAckSpec
  import opened GossipSpec
  import opened CallbackSpec
  import opened Cluster
  import opened Claims
  import opened Incarnations
  import opened Monotone

  /** `x` is recorded at `n` or more, and so is any suspicion of it. */
  predicate Shielded(c: Core, x: NodeID, n: int) {
    && x in c.table && c.table[x].inc >= n
    && (x in c.entries ==> c.entries[x].inc >= n)
  }

  /** A suspicion below the shield changes nothing at all. */
  lemma Blocked(c: Core, o: Options, reporter: NodeID, x: NodeID, n: int, j: int, now: int)
    requires Shielded(c, x, n) && j < n && x != c.local
    ensures ProcessSuspicion(c, o, reporter, x, j, now) == c
  {
  }

  /** Handling an AliveMsg from `x` raises the shield and leaves no suspicion at `n` or below. */
  lemma AliveShields(c: Core, x: NodeID, n: int, now: int)
    requires x in c.table
    ensures var c' := HandleAlive(c, x, n, now);
      Shielded(c', x, n) && (x in c'.entries ==> c'.entries[x].inc > n)
  {
  }

  // ----- the shield holds from step to step

  lemma LodgeShields(c: Core, o: Options, e: Entry, reporter: NodeID, target: NodeID, now: int, x: NodeID, n: int)
    requires Shielded(c, x, n) && (target == x ==> e.inc >= n)
    ensures Shielded(Lodge(c, o, e, reporter, target, now), x, n)
  {
    hide Fires;
  }

  lemma ProcessSuspicionShields(c: Core, o: Options, reporter: NodeID, target: NodeID, inc: int, now: int,
          x: NodeID, n: int)
    requires Shielded(c, x, n)
    ensures Shielded(ProcessSuspicion(c, o, reporter, target, inc, now), x, n)
  {
    hide Lodge, Broadcast;
    if target != c.local {
      match Admit(c.entries, target, inc)
      case Stale =>
      case Current => LodgeShields(c, o, c.entries[target], reporter, target, now, x, n);
      case _ =>
        if target == x ==> inc >= n {
          LodgeShields(c, o, NewEntry(inc), reporter, target, now, x, n);
        }
    }
  }

  lemma ClearSuspectShields(c: Core, target: NodeID, inc: int, x: NodeID, n: int)
    requires Shielded(c, x, n)
    ensures Shielded(ClearSuspect(c, target, inc), x, n)
  {
  }

  lemma EscalateShields(c: Core, o: Options, susp: bool, u: Update, reporter: NodeID, now: int, x: NodeID, n: int)
    requires Shielded(c, x, n)
    ensures Shielded(Escalate(c, o, susp, u, reporter, now), x, n)
  {
    hide ProcessSuspicion, ClearSuspect;
    ProcessSuspicionShields(c, o, reporter, u.id, u.inc, now, x, n);
    ClearSuspectShields(c, u.id, u.inc, x, n);
  }

  lemma {:induction false} ProcessUpdatesShield(c: Core, o: Options, susp: bool, us: seq<Update>,
          reporter: NodeID, now: int, x: NodeID, n: int)
    requires Shielded(c, x, n)
    ensures Shielded(ProcessUpdates(c, o, susp, us, reporter, now), x, n)
  {
    hide ProcessUpdate;
    if us != [] {
      var m := |us| - 1;
      ProcessUpdatesShield(c, o, susp, us[..m], reporter, now, x, n);
      ProcessUpdateShields(ProcessUpdates(c, o, susp, us[..m], reporter, now), o, susp, us[m], reporter, now, x, n);
    }
  }

  lemma ProcessUpdateShields(c: Core, o: Options, susp: bool, u: Update, reporter: NodeID, now: int, x: NodeID, n: int)
    requires Shielded(c, x, n)
    ensures Shielded(ProcessUpdate(c, o, susp, u, reporter, now), x, n)
  {
    hide Escalate;
    EscalateShields(c, o, susp, u, reporter, now, x, n);
    if u.id in c.table {
      EscalateShields(MergeRecord(c, susp, u, now), o, susp, u, reporter, now, x, n);
    }
  }

  lemma {:induction false} AbsorbAllShields(c: Core, us: seq<Update>, now: int, x: NodeID, n: int)
    requires Shielded(c, x, n)
    ensures Shielded(AbsorbAll(c, us, now), x, n)
  {
    if us != [] {
      AbsorbAllShields(c, us[..|us| - 1], now, x, n);
    }
  }

  lemma {:induction false} ClearAllShields(c: Core, us: seq<Update>, x: NodeID, n: int)
    requires Shielded(c, x, n)
    ensures Shielded(ClearAll(c, us), x, n)
  {
    hide ClearSuspect;
    if us != [] {
      var m := |us| - 1;
      ClearAllShields(c, us[..m], x, n);
      ClearSuspectShields(ClearAll(c, us[..m]), us[m].id, us[m].inc, x, n);
    }
  }

  lemma {:induction false} ReportSilentShields(c: Core, o: Options, ids: seq<NodeID>, table: map<NodeID, Rec>,
          now: int, x: NodeID, n: int)
    requires Shielded(c, x, n)
    ensures Shielded(ReportSilent(c, o, ids, table, now), x, n)
  {
    hide ProcessSuspicion;
    if ids != [] {
      var m := |ids| - 1;
      ReportSilentShields(c, o, ids[..m], table, now, x, n);
      var inc := RecordedInc(table, ids[m]);
      var c1 := Append(ReportSilent(c, o, ids[..m], table, now), Update(ids[m], inc, Suspected, now));
      ProcessSuspicionShields(c1, o, c.local, ids[m], inc, now, x, n);
    }
  }

  lemma DeclareShields(c: Core, o: Options, susp: bool, id: NodeID, now: int, x: NodeID, n: int)
    requires Shielded(c, x, n)
    ensures var c' := DeclareSuspicion(c, o, susp, id, now); x in c'.table ==> Shielded(c', x, n)
  {
    hide ProcessSuspicion;
    if susp {
      var c1 :=
        if id !in c.table then PutLogged(c, id, Rec(0, Suspected, At(now), At(now)), now)
        else if !c.table[id].status.Suspected? then
          PutLogged(c, id, c.table[id].(status := Suspected, since := At(now)), now)
        else c;
      ProcessSuspicionShields(c1, o, c.local, id, c1.table[id].inc, now, x, n);
    }
  }

  lemma GossipCheckShields(c: Core, o: Options, ts: Timeouts, susp: bool, now: int, silent: seq<NodeID>,
          removed: seq<NodeID>, x: NodeID, n: int)
    requires Shielded(c, x, n)
    ensures var c' := GossipCheck(c, o, ts, susp, now, silent, removed); x in c'.table ==> Shielded(c', x, n)
  {
    hide ReportSilent;
    var c1 := Swept(c, ts, susp, now);
    ReportSilentSame(c1, o, silent, c.table, now);
    if x in c1.table {
      ReportSilentShields(c1, o, silent, c.table, now, x, n);
    }
  }

  lemma PingHandlersShield(cfg: Config, p: Proc, a: Action, x: NodeID, n: int)
    requires a.Receive? && ReceiveEnabled(p, a) && Shielded(p.core, x, n)
    requires a.msg.kind.Ping? || a.msg.kind.Ack? || a.msg.kind.IndirectPing? || a.msg.kind.IndirectAck?
    ensures Shielded(Handle(cfg, p, a).core, x, n)
  {
    hide ProcessUpdates, ClearSuspect, ReceiveEnabled, Live, Notify, SignalDirect, SignalIndirect;
    var c, msg, now := p.core, a.msg, a.now;
    match msg.kind
    case Ping =>
      var c1 := Send(c, Message(Ack, c.local, msg.sender, c.own, msg.seqNum, []), msg.sender.Address());
      ProcessUpdatesShield(Touch(c1, msg.sender, msg.inc, now), cfg.opts, a.susp, msg.members, msg.sender, now, x, n);
    case Ack => ClearSuspectShields(Touch(c, msg.sender, msg.inc, now), msg.sender, msg.inc, x, n);
    case IndirectPing =>
      ProcessUpdatesShield(Refresh(c, msg.sender, msg.inc, now), cfg.opts, a.susp, msg.members, msg.sender, now, x, n);
    case IndirectAck => ClearSuspectShields(Reported(c, msg.target, msg.inc, now), msg.target, msg.inc, x, n);
  }

  lemma HandleAliveShields(c: Core, sender: NodeID, inc: int, now: int, x: NodeID, n: int)
    requires Shielded(c, x, n)
    ensures Shielded(HandleAlive(c, sender, inc, now), x, n)
  {
  }

  lemma HandleShields(cfg: Config, p: Proc, a: Action, x: NodeID, n: int)
    requires a.Receive? && ReceiveEnabled(p, a) && Shielded(p.core, x, n)
    ensures var c' := Handle(cfg, p, a).core;
      x in c'.table && c'.table[x].inc >= n ==> Shielded(c', x, n)
  {
    hide ProcessUpdates, ProcessSuspicion, AbsorbAll, ClearAll, Clears, ClearSuspect, HandleAlive,
      ReceiveEnabled, HandlePing, HandleAck, HandleIndirectPing, HandleIndirectAck, JoinedTable, Displaced;
    var c, msg, now := p.core, a.msg, a.now;
    match msg.kind
    case Heartbeat =>
      ProcessUpdatesShield(Touch(c, msg.sender, msg.inc, now), cfg.opts, a.susp, msg.members, msg.sender, now, x, n);
    case JoinResponse =>
      AbsorbAllShields(c, msg.members, now, x, n);
      ClearAllShields(AbsorbAll(c, msg.members, now), Clears(c, msg.members, now), x, n);
    case Suspect => ProcessSuspicionShields(c, cfg.opts, msg.sender, msg.target, msg.inc, now, x, n);
    case AliveMsg => HandleAliveShields(c, msg.sender, msg.inc, now, x, n);
    case Join =>
    case Leave =>
    case Confirm =>
    case _ => PingHandlersShield(cfg, p, a, x, n);
  }

  /** The shield holds across every step after which `x` is still recorded at `n` or more. */
  lemma ActShields(cfg: Config, p: Proc, a: Action, x: NodeID, n: int)
    requires Enabled(cfg, p, a) && Shielded(p.core, x, n)
    ensures var c' := Act(cfg, p, a).core;
      x in c'.table && c'.table[x].inc >= n ==> Shielded(c', x, n)
  {
    hide Handle, DeclareSuspicion, GossipCheck, Live, Broadcast, Selection, Listing, ReceiveEnabled;
    var c := p.core;
    match a
    case Receive(_, _, _, _, _, _) => HandleShields(cfg, p, a, x, n);
    case GossipTick(susp, now, silent, removed) =>
      GossipCheckShields(c, cfg.opts, cfg.ts, susp, now, silent, removed, x, n);
    case NoDirectAck(susp, helpers, now) => DeclareShields(c, cfg.opts, susp, p.phase.target, now, x, n);
    case NoIndirectAck(susp, now) => DeclareShields(c, cfg.opts, susp, p.phase.target, now, x, n);
    case _ =>
  }

  // ----- two nodes, over whole runs

  /** Step `t` of the path neither deletes the record of `x` at process `y` nor overwrites it. */
  ghost predicate Spares(cfg: Config, s: State, st: Step, y: nat, x: NodeID)
    requires Guard(cfg, s, st)
  {
    st.Do? && st.i == y && x in s.procs[y].core.table ==>
      !DeletesMember(cfg, s.procs[y], st.a, x) && !OverwritesMember(s.procs[y], st.a, x)
  }

  lemma StepShields(cfg: Config, s: State, st: Step, y: nat, x: NodeID, n: int)
    requires Guard(cfg, s, st) && y in s.procs && Shielded(s.procs[y].core, x, n) && Spares(cfg, s, st, y, x)
    ensures y in After(cfg, s, st).procs && Shielded(After(cfg, s, st).procs[y].core, x, n)
  {
    hide Act, Enabled, Shielded, OverwritesMember;
    assert x in s.procs[y].core.table && s.procs[y].core.table[x].inc >= n by {
      ShieldedRecord(s.procs[y].core, x, n);
    }
    if st.Do? && st.i == y {
      StaleOverwrite(cfg, s.procs[y], st.a, x);
      ActShields(cfg, s.procs[y], st.a, x, n);
    }
  }

  lemma ShieldedRecord(c: Core, x: NodeID, n: int)
    requires Shielded(c, x, n)
    ensures x in c.table && c.table[x].inc >= n
  {
  }

  lemma {:induction false} PathShields(cfg: Config, states: seq<State>, steps: seq<Step>, y: nat, x: NodeID,
          n: int, b: nat, e: nat)
    requires Path(cfg, states, steps) && b <= e < |states|
    requires y in states[b].procs && Shielded(states[b].procs[y].core, x, n)
    requires forall t :: b <= t < e ==> Spares(cfg, states[t], steps[t], y, x)
    ensures y in states[e].procs && Shielded(states[e].procs[y].core, x, n)
    decreases e - b
  {
    hide Guard, After, Shielded, Spares;
    if b < e {
      PathShields(cfg, states, steps, y, x, n, b, e - 1);
      StepShields(cfg, states[e - 1], steps[e - 1], y, x, n);
    }
  }

  /** A packet once sent stays in flight. */
  lemma {:induction false} StaysInFlight(cfg: Config, states: seq<State>, steps: seq<Step>, q: nat, pk: Packet,
          b: nat, e: nat)
    requires Path(cfg, states, steps) && b <= e < |states|
    requires q in states[b].procs && pk in states[b].procs[q].core.out
    ensures q in states[e].procs && pk in states[e].procs[q].core.out
    decreases e - b
  {
    hide Act, Enabled;
    if b < e {
      StaysInFlight(cfg, states, steps, q, pk, b, e - 1);
      var s, st := states[e - 1], steps[e - 1];
      if st.Do? {
        ActRefutes(cfg, s.procs[st.i], st.a);
      }
    }
  }

  /** The messages that carry piggybacked updates. */
  predicate Piggybacks(msg: Message) {
    msg.kind.Heartbeat? || msg.kind.Ping? || msg.kind.IndirectPing?
  }

  /** The state in which a handler starts on the piggybacked updates of `a.msg`. */
  function Opening(p: Proc, a: Action): Core
    requires a.Receive? && Piggybacks(a.msg)
  {
    var c, msg := p.core, a.msg;
    match msg.kind
    case Heartbeat => Touch(c, msg.sender, msg.inc, a.now)
    case Ping =>
      Touch(Send(c, Message(Ack, c.local, msg.sender, c.own, msg.seqNum, []), msg.sender.Address()), msg.sender, msg.inc, a.now)
    case _ => Refresh(c, msg.sender, msg.inc, a.now)
  }

  /** The state in which it reaches update `k`. */
  function Reaching(cfg: Config, p: Proc, a: Action, k: nat): Core
    requires a.Receive? && Piggybacks(a.msg) && k < |a.msg.members|
  {
    ProcessUpdates(Opening(p, a), cfg.opts, a.susp, a.msg.members[..k], a.msg.sender, a.now)
  }

  /** Update `k` of the message tells the process, with suspicion enabled, that it is suspected. */
  predicate TellsOfSuspicion(p: Proc, a: Action, k: nat) {
    && a.Receive? && a.susp && Piggybacks(a.msg) && k < |a.msg.members|
    && a.msg.members[k].status.Suspected? && a.msg.members[k].id == p.core.local
  }

  /** The incarnation with which the process answers. */
  function Answer(cfg: Config, p: Proc, a: Action, k: nat): int
    requires TellsOfSuspicion(p, a, k)
  {
    RefutingInc(Reaching(cfg, p, a, k).own, a.msg.members[k].inc)
  }

  lemma OpeningRises(p: Proc, a: Action)
    requires a.Receive? && Piggybacks(a.msg)
    ensures Rises(p.core, Opening(p, a))
  {
  }

  lemma {:induction false} LaterUpdatesOnward(c: Core, o: Options, susp: bool, us: seq<Update>, k: nat,
          reporter: NodeID, now: int)
    requires k <= |us|
    ensures ProcessUpdates(c, o, susp, us[..k], reporter, now).out <= ProcessUpdates(c, o, susp, us, reporter, now).out
    decreases |us|
  {
    hide ProcessUpdate;
    if k < |us| {
      var m := |us| - 1;
      assert us[..m][..k] == us[..k];
      LaterUpdatesOnward(c, o, susp, us[..m], k, reporter, now);
      ProcessUpdateRefutes(ProcessUpdates(c, o, susp, us[..m], reporter, now), o, susp, us[m], reporter, now);
    } else {
      assert us[..k] == us;
    }
  }

  lemma UpdateAboutSelf(c: Core, o: Options, u: Update, reporter: NodeID, now: int)
    requires u.id == c.local && u.status.Suspected?
    ensures ProcessUpdate(c, o, true, u, reporter, now) == SelfRefute(c, u.inc)
  {
  }

  /** A process told that it is suspected at `i` sends everyone it knows by then, whoever told it included,
      its answer, at an incarnation above i. */
  lemma AnswersSuspicion(cfg: Config, p: Proc, a: Action, k: nat)
    requires Enabled(cfg, p, a) && TellsOfSuspicion(p, a, k)
    requires Max(Reaching(cfg, p, a, k).own, a.msg.members[k].inc) < MAX_INT32
    ensures Answer(cfg, p, a, k) > a.msg.members[k].inc
    ensures p.core.table.Keys <= Reaching(cfg, p, a, k).table.Keys
    ensures forall peer :: peer in Reaching(cfg, p, a, k).table && peer != p.core.local ==>
      Packet(AliveMessage(p.core.local, Answer(cfg, p, a, k)), peer.Address()) in Act(cfg, p, a).core.out
  {
    hide ProcessUpdate, Enabled, Act, Handle, SelfRefute;
    var us, o, r := a.msg.members, cfg.opts, a.msg.sender;
    var c0 := Opening(p, a);
    OpeningRises(p, a);
    ProcessUpdatesRise(c0, o, a.susp, us[..k], r, a.now);
    var ck := Reaching(cfg, p, a, k);
    UpdateAboutSelf(ck, o, us[k], r, a.now);
    assert us[..k + 1][..k] == us[..k];
    assert ProcessUpdates(c0, o, a.susp, us[..k + 1], r, a.now) == SelfRefute(ck, us[k].inc);
    LaterUpdatesOnward(c0, o, a.susp, us, k + 1, r, a.now);
    RefuteSends(ck, us[k].inc);
    PiggybackOut(cfg, p, a);
  }

  /** A Suspect message that reaches the suspected process itself is answered in the same way, and nobody else hears
      of it. */
  lemma AnswersSuspectMessage(cfg: Config, p: Proc, a: Action)
    requires Enabled(cfg, p, a) && a.Receive? && a.susp && a.msg.kind.Suspect? && a.msg.target == p.core.local
    requires Max(p.core.own, a.msg.inc) < MAX_INT32
    ensures var n := RefutingInc(p.core.own, a.msg.inc);
      && n > a.msg.inc && Act(cfg, p, a).core.own == n
      && (forall peer :: peer in p.core.table && peer != p.core.local ==>
            Packet(AliveMessage(p.core.local, n), peer.Address()) in Act(cfg, p, a).core.out)
      && (forall pk :: pk in Act(cfg, p, a).core.out && pk !in p.core.out ==>
            exists peer :: peer in p.core.table && peer != p.core.local && pk == Packet(AliveMessage(p.core.local, n), peer.Address()))
  {
    hide Act, Enabled, ReceiveEnabled, SelfRefute;
    ReceiveActs(cfg, p, a);
    SuspectAboutSelf(cfg, p, a);
    RefuteSends(p.core, a.msg.inc);
  }

  lemma SuspectAboutSelf(cfg: Config, p: Proc, a: Action)
    requires a.Receive? && ReceiveEnabled(p, a) && a.susp && a.msg.kind.Suspect? && a.msg.target == p.core.local
    ensures Handle(cfg, p, a).core == SelfRefute(p.core, a.msg.inc)
  {
    hide SelfRefute, ReceiveEnabled;
  }

  lemma RefuteSends(c: Core, i: int)
    ensures var n, c' := RefutingInc(c.own, i), SelfRefute(c, i);
      && c'.own == n
      && (forall k :: k in c.table && k != c.local ==> Packet(AliveMessage(c.local, n), k.Address()) in c'.out)
      && (forall pk :: pk in c'.out && pk !in c.out ==>
            exists peer :: peer in c.table && peer != c.local && pk == Packet(AliveMessage(c.local, n), peer.Address()))
  {
  }

  lemma PiggybackOut(cfg: Config, p: Proc, a: Action)
    requires Enabled(cfg, p, a) && a.Receive? && Piggybacks(a.msg)
    ensures ProcessUpdates(Opening(p, a), cfg.opts, a.susp, a.msg.members, a.msg.sender, a.now).out <= Act(cfg, p, a).core.out
  {
    hide Act, Enabled, ProcessUpdates, ReceiveEnabled, Touch;
    ReceiveActs(cfg, p, a);
  }

  /** An answer to a suspicion of `x` at `i`, sent in step `a`: it stays deliverable; wherever it is handled
      (step `b`) by a process that knows `x`, no suspicion at `n` or below is left; and as long as nobody
      deletes or overwrites the record there (up to state `e`), a suspicion at `i` or below has no effect. */
  lemma Travels(cfg: Config, states: seq<State>, steps: seq<Step>, a: nat, xp: nat, x: NodeID, i: int, n: int, peer: NodeID,
                b: nat, y: nat, e: nat, reporter: NodeID, j: int, now: int)
    requires Path(cfg, states, steps) && a < b < e < |states| && j <= i < n
    requires xp in states[a + 1].procs && Packet(AliveMessage(x, n), peer.Address()) in states[a + 1].procs[xp].core.out
    requires steps[b].Do? && steps[b].i == y && steps[b].a.Receive? && steps[b].a.msg == AliveMessage(x, n)
    requires y in states[b].procs && x in states[b].procs[y].core.table
    requires forall t :: b < t < e ==> Spares(cfg, states[t], steps[t], y, x)
    requires y in states[e].procs && states[e].procs[y].core.local != x
    ensures InFlight(states[b], Packet(AliveMessage(x, n), peer.Address()))
    ensures y in states[b + 1].procs && Shielded(states[b + 1].procs[y].core, x, n)
    ensures x in states[b + 1].procs[y].core.entries ==> states[b + 1].procs[y].core.entries[x].inc > n
    ensures Shielded(states[e].procs[y].core, x, n)
    ensures ProcessSuspicion(states[e].procs[y].core, cfg.opts, reporter, x, j, now) == states[e].procs[y].core
  {
    hide Act, Enabled, ProcessSuspicion, HandleAlive, Handle, Spares, Shielded;
    StaysInFlight(cfg, states, steps, xp, Packet(AliveMessage(x, n), peer.Address()), a + 1, b);
    AliveHandled(cfg, states[b].procs[y], steps[b].a);
    AliveShields(states[b].procs[y].core, x, n, steps[b].a.now);
    PathShields(cfg, states, steps, y, x, n, b + 1, e);
    Blocked(states[e].procs[y].core, cfg.opts, reporter, x, n, j, now);
  }

  /** At step `a` of the path a process is told that it is suspected at some i. It answers at some n > i,
      and its answer stays deliverable. Wherever the answer is handled (step `b`) by a process that knows
      it, no suspicion at n or below is left there; and as long as nobody deletes or overwrites its
      record (up to state `e`), a suspicion at i or below has no effect whatever. */
  lemma EndToEnd(cfg: Config, states: seq<State>, steps: seq<Step>, a: nat, k: nat, peer: NodeID,
                 b: nat, y: nat, e: nat, reporter: NodeID, j: int, now: int)
    requires Path(cfg, states, steps) && a < b < e < |states|
    requires steps[a].Do? && TellsOfSuspicion(states[a].procs[steps[a].i], steps[a].a, k)
    requires var p := states[a].procs[steps[a].i];
      && Max(Reaching(cfg, p, steps[a].a, k).own, steps[a].a.msg.members[k].inc) < MAX_INT32
      && peer in Reaching(cfg, p, steps[a].a, k).table && peer != p.core.local
    requires var p := states[a].procs[steps[a].i];
      && steps[b].Do? && steps[b].i == y && steps[b].a.Receive?
      && steps[b].a.msg == AliveMessage(p.core.local, Answer(cfg, p, steps[a].a, k))
      && y in states[b].procs && p.core.local in states[b].procs[y].core.table
    requires var x := states[a].procs[steps[a].i].core.local;
      && (forall t :: b < t < e ==> Spares(cfg, states[t], steps[t], y, x))
      && y in states[e].procs && states[e].procs[y].core.local != x
    requires j <= steps[a].a.msg.members[k].inc
    ensures var p := states[a].procs[steps[a].i];
      var x, n := p.core.local, Answer(cfg, p, steps[a].a, k);
      && n > steps[a].a.msg.members[k].inc
      && InFlight(states[b], Packet(AliveMessage(x, n), peer.Address()))
      && y in states[b + 1].procs && Shielded(states[b + 1].procs[y].core, x, n)
      && (x in states[b + 1].procs[y].core.entries ==> states[b + 1].procs[y].core.entries[x].inc > n)
      && Shielded(states[e].procs[y].core, x, n)
      && ProcessSuspicion(states[e].procs[y].core, cfg.opts, reporter, x, j, now) == states[e].procs[y].core
  {
    hide Act, Enabled, ProcessSuspicion, Spares, Shielded, Answer, Reaching;
    var xp := steps[a].i;
    var p := states[a].procs[xp];
    var x, n := p.core.local, Answer(cfg, p, steps[a].a, k);
    AnswersSuspicion(cfg, p, steps[a].a, k);
    Travels(cfg, states, steps, a, xp, x, steps[a].a.msg.members[k].inc, n, peer, b, y, e, reporter, j, now);
  }

  /** Step `st` delivers a Suspect message to the process it names. */
  predicate NamesReceiver(s: State, st: Step) {
    && st.Do? && st.i in s.procs && st.a.Receive? && st.a.susp
    && st.a.msg.kind.Suspect? && st.a.msg.target == s.procs[st.i].core.local
  }

  /** The same for a process told by a Suspect message. */
  lemma EndToEndMessage(cfg: Config, states: seq<State>, steps: seq<Step>, a: nat, peer: NodeID,
                        b: nat, y: nat, e: nat, reporter: NodeID, j: int, now: int)
    requires Path(cfg, states, steps) && a < b < e < |states| && NamesReceiver(states[a], steps[a])
    requires var c := states[a].procs[steps[a].i].core;
      Max(c.own, steps[a].a.msg.inc) < MAX_INT32 && peer in c.table && peer != c.local
    requires var c := states[a].procs[steps[a].i].core;
      && steps[b].Do? && steps[b].i == y && steps[b].a.Receive?
      && steps[b].a.msg == AliveMessage(c.local, RefutingInc(c.own, steps[a].a.msg.inc))
      && y in states[b].procs && c.local in states[b].procs[y].core.table
    requires var x := states[a].procs[steps[a].i].core.local;
      && (forall t :: b < t < e ==> Spares(cfg, states[t], steps[t], y, x))
      && y in states[e].procs && states[e].procs[y].core.local != x
    requires j <= steps[a].a.msg.inc
    ensures var c := states[a].procs[steps[a].i].core;
      var x, n := c.local, RefutingInc(c.own, steps[a].a.msg.inc);
      && n > steps[a].a.msg.inc
      && InFlight(states[b], Packet(AliveMessage(x, n), peer.Address()))
      && y in states[b + 1].procs && Shielded(states[b + 1].procs[y].core, x, n)
      && (x in states[b + 1].procs[y].core.entries ==> states[b + 1].procs[y].core.entries[x].inc > n)
      && Shielded(states[e].procs[y].core, x, n)
      && ProcessSuspicion(states[e].procs[y].core, cfg.opts, reporter, x, j, now) == states[e].procs[y].core
  {
    hide Act, Enabled, ProcessSuspicion, Spares, Shielded;
    var xp := steps[a].i;
    var c := states[a].procs[xp].core;
    AnswersSuspectMessage(cfg, states[a].procs[xp], steps[a].a);
    Travels(cfg, states, steps, a, xp, c.local, steps[a].a.msg.inc, RefutingInc(c.own, steps[a].a.msg.inc), peer,
            b, y, e, reporter, j, now);
  }

  // ----- while the bound per owner holds, nothing arrives that is above the counter

  ghost predicate SameCounter(c: Core, c': Core) {
    c'.local == c.local && c'.own == c.own && c'.refutations == c.refutations
  }

  lemma OthersKeepCounter(c: Core, o: Options, reporter: NodeID, target: NodeID, inc: int, now: int)
    ensures target != c.local ==> SameCounter(c, ProcessSuspicion(c, o, reporter, target, inc, now))
    ensures SameCounter(c, ClearSuspect(c, target, inc))
  {
    hide AddReport, Fires, MarkSuspected, MarkAlive, SelfRefute;
  }

  lemma UpdateKeepsCounter(c: Core, o: Options, susp: bool, u: Update, reporter: NodeID, now: int)
    requires !(u.id == c.local && u.status.Suspected? && susp)
    ensures SameCounter(c, ProcessUpdate(c, o, susp, u, reporter, now))
  {
    hide ProcessSuspicion, ClearSuspect;
    OthersKeepCounter(c, o, reporter, u.id, u.inc, now);
    if u.id in c.table {
      OthersKeepCounter(MergeRecord(c, susp, u, now), o, reporter, u.id, u.inc, now);
    }
  }

  lemma UpdateOwn(c: Core, o: Options, susp: bool, u: Update, reporter: NodeID, now: int)
    requires c.own == c.refutations && (u.id == c.local ==> u.inc <= c.own)
    requires ProcessUpdate(c, o, susp, u, reporter, now).refutations <= MAX_INT32
    ensures var c' := ProcessUpdate(c, o, susp, u, reporter, now);
      c'.local == c.local && c.own <= c'.own == c'.refutations
  {
    hide ProcessUpdate, Broadcast;
    if u.id == c.local && u.status.Suspected? && susp {
      UpdateAboutSelf(c, o, u, reporter, now);
    } else {
      UpdateKeepsCounter(c, o, susp, u, reporter, now);
    }
  }

  /** A batch of updates none of which is above the counter: none of them is when its turn comes. */
  lemma {:induction false} UpdatesOwn(c: Core, o: Options, susp: bool, us: seq<Update>, reporter: NodeID, now: int)
    requires c.own == c.refutations && forall u :: u in us && u.id == c.local ==> u.inc <= c.own
    requires ProcessUpdates(c, o, susp, us, reporter, now).refutations <= MAX_INT32
    ensures var c' := ProcessUpdates(c, o, susp, us, reporter, now);
      c'.local == c.local && c.own <= c'.own == c'.refutations
    ensures forall k :: 0 <= k < |us| ==> ProcessUpdates(c, o, susp, us[..k], reporter, now).own >= c.own
    decreases |us|
  {
    hide ProcessUpdate;
    if us != [] {
      var n := |us| - 1;
      var c1 := ProcessUpdates(c, o, susp, us[..n], reporter, now);
      ProcessUpdateRefutes(c1, o, susp, us[n], reporter, now);
      UpdatesOwn(c, o, susp, us[..n], reporter, now);
      UpdateOwn(c1, o, susp, us[n], reporter, now);
      forall k | 0 <= k < |us| ensures ProcessUpdates(c, o, susp, us[..k], reporter, now).own >= c.own {
        if k < n {
          assert us[..n][..k] == us[..k];
        }
      }
    }
  }

  lemma OpeningCounters(p: Proc, a: Action)
    requires a.Receive? && Piggybacks(a.msg)
    ensures var c := Opening(p, a); c.local == p.core.local && c.own == p.core.own && c.refutations == p.core.refutations
  {
  }

  lemma PiggybackCounters(cfg: Config, p: Proc, a: Action)
    requires Enabled(cfg, p, a) && a.Receive? && Piggybacks(a.msg)
    ensures Act(cfg, p, a).core.refutations
         == ProcessUpdates(Opening(p, a), cfg.opts, a.susp, a.msg.members, a.msg.sender, a.now).refutations
  {
    hide Act, Enabled, ProcessUpdates, ReceiveEnabled, Touch;
    ReceiveActs(cfg, p, a);
  }

  lemma PiggybackNeverLarger(cfg: Config, p: Proc, a: Action, k: nat)
    requires Enabled(cfg, p, a) && TellsOfSuspicion(p, a, k) && p.core.own == p.core.refutations
    requires forall u :: u in a.msg.members && u.id == p.core.local ==> u.inc <= p.core.own
    requires Act(cfg, p, a).core.refutations <= MAX_INT32
    ensures a.msg.members[k].inc <= Reaching(cfg, p, a, k).own
  {
    hide Act, Enabled, ProcessUpdates;
    OpeningCounters(p, a);
    PiggybackCounters(cfg, p, a);
    UpdatesOwn(Opening(p, a), cfg.opts, a.susp, a.msg.members, a.msg.sender, a.now);
    assert a.msg.members[k] in a.msg.members;
  }

  /** Nothing that reaches a process says more of it than its counter. */
  lemma DeliveredNotLarger(cfg: Config, s: State, i: nat, a: Action)
    requires BelowOwners(s) && Guard(cfg, s, Do(i, a)) && a.Receive?
    ensures var c := s.procs[i].core;
      && (Subject(a.msg) == c.local ==> a.msg.inc <= c.own)
      && forall u :: u in a.msg.members && u.id == c.local ==> u.inc <= c.own
  {
    hide Act, Enabled, BelowOwners;
    var pk := Packet(a.msg, s.procs[i].core.local.Address());
    NoIncomingAbove(s, pk, i, Update(NO_NODE, 0, Alive, 0));
    forall u | u in a.msg.members && u.id == s.procs[i].core.local ensures u.inc <= s.procs[i].core.own {
      NoIncomingAbove(s, pk, i, u);
    }
  }

  lemma OwnIsCount(s: State, i: nat)
    requires BelowOwners(s) && i in s.procs
    ensures s.procs[i].core.own == s.procs[i].core.refutations
  {
  }

  /** So the branch of handleSelfRefutation for an incoming incarnation above the counter is never taken: every
      refutation of a step moves the counter by exactly one, and whatever tells the process of a suspicion,
      in a Suspect message or at any place k of a piggyback, is not above the counter when its turn comes. */
  lemma LargerNeverArrives(cfg: Config, s: State, i: nat, a: Action, k: nat)
    requires BelowOwners(s) && Guard(cfg, s, Do(i, a)) && HonestStep(s, Do(i, a)) && CountersFit(After(cfg, s, Do(i, a)))
    ensures var c, c' := s.procs[i].core, Act(cfg, s.procs[i], a).core;
      c'.own - c.own == c'.refutations - c.refutations
    ensures NamesReceiver(s, Do(i, a)) ==> a.msg.inc <= s.procs[i].core.own
    ensures TellsOfSuspicion(s.procs[i], a, k) ==> a.msg.members[k].inc <= Reaching(cfg, s.procs[i], a, k).own
  {
    hide Act, Enabled, InFlight, BelowOwners, Reaching, HonestStep;
    OwnersStep(cfg, s, Do(i, a));
    OwnIsCount(s, i);
    OwnIsCount(After(cfg, s, Do(i, a)), i);
    if a.Receive? {
      DeliveredNotLarger(cfg, s, i, a);
      if TellsOfSuspicion(s.procs[i], a, k) {
        PiggybackNeverLarger(cfg, s.procs[i], a, k);
      }
    }
  }

  lemma AliveHandled(cfg: Config, p: Proc, a: Action)
    requires Enabled(cfg, p, a) && a.Receive? && a.msg.kind.AliveMsg?
    ensures Act(cfg, p, a) == p.(core := HandleAlive(p.core, a.msg.sender, a.msg.inc, a.now))
  {
    hide HandleAlive, DeclareSuspicion, GossipCheck, Check, GossipRound, RunTask;
  }
}
