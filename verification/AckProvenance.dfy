/** A probe is answered only by its target: where acknowledgements come from. */
module AckProvenance {
  import opened Types
  import opened SuspicionSpec
  import opened UpdateLogSpec
  import opened DetectorSpec
  import opened PingAckSpec
  import opened GossipSpec
  import opened CallbackSpec
  import opened Cluster
  import opened Claims
  import opened Incarnations

  predicate IsAck(msg: Message, target: NodeID, n: nat) {
    msg.kind.Ack? && msg.sender == target && msg.seqNum == n
  }

  /** Every acknowledgement in `net` was sent by the process its sender's identity belongs to. */
  ghost predicate AuthenticAcks(s: State) {
    forall q, pk :: q in s.procs && pk in s.procs[q].core.out && pk.msg.kind.Ack? ==>
      pk.msg.sender in s.owner && s.owner[pk.msg.sender] == q
  }

  /** Some process has sent an acknowledgement of probe `n` of `target`. */
  ghost predicate Answered(s: State, target: NodeID, n: nat) {
    exists pk :: InFlight(s, pk) && IsAck(pk.msg, target, n)
  }

  /** ... with incarnation `inc`. */
  ghost predicate AnsweredAt(s: State, target: NodeID, n: nat, inc: int) {
    exists pk :: InFlight(s, pk) && IsAck(pk.msg, target, n) && pk.msg.inc == inc
  }

  /** What a process knows of acknowledgements was acknowledged. */
  ghost predicate Witnessed(s: State, p: Proc) {
    && (forall n :: n in p.probes && p.probes[n].signalled ==> Answered(s, p.probes[n].target, n))
    && (forall w :: w in p.waiters && p.waiters[w].received.Some? ==>
          AnsweredAt(s, p.waiters[w].target, p.waiters[w].seqNum, p.waiters[w].received.value))
    && (forall pk :: pk in p.core.out && pk.msg.kind.IndirectAck? ==>
          AnsweredAt(s, pk.msg.target, pk.msg.seqNum, pk.msg.inc))
  }

  /** The ping loop waits for at most one probe, the one of its current period. */
  predicate OneProbe(p: Proc) {
    match p.phase
    case Idle => p.probes == map[]
    case Direct(target, n, _) => p.probes.Keys == {n} && p.probes[n].target == target && n == p.seqNum
    case Indirect(target, n) => p.probes.Keys == {n} && p.probes[n].target == target && n == p.seqNum
  }

  // ----- what a step sends

  /** A packet that is not an acknowledgement of any kind. */
  predicate Plain(pk: Packet) {
    !pk.msg.kind.Ack? && !pk.msg.kind.IndirectAck?
  }

  predicate SendsPlain(c: Core, c': Core) {
    c.out <= c'.out && forall pk :: pk in c'.out ==> pk in c.out || Plain(pk)
  }

  /** Only handlePing sends an Ack, and signs it with the local identity. */
  lemma PingSends(cfg: Config, p: Proc, a: Action)
    requires a.Receive? && ReceiveEnabled(p, a) && a.msg.kind.Ping?
    ensures var c' := Handle(cfg, p, a).core;
      && p.core.out <= c'.out
      && forall pk :: pk in c'.out ==> pk in p.core.out || Plain(pk) || (pk.msg.kind.Ack? && pk.msg.sender == p.core.local)
  {
    hide ProcessUpdates, Touch;
    var c, msg, now := p.core, a.msg, a.now;
    var c1 := Send(c, Message(Ack, c.local, msg.sender, c.own, msg.seqNum, []), msg.sender.Address());
    TouchKeeps(c1, msg.sender, msg.inc, now);
    ProcessUpdatesRefute(Touch(c1, msg.sender, msg.inc, now), cfg.opts, a.susp, msg.members, msg.sender, now);
  }

  lemma HandleSends(cfg: Config, p: Proc, a: Action)
    requires a.Receive? && ReceiveEnabled(p, a) && !a.msg.kind.Ping?
    ensures SendsPlain(p.core, Handle(cfg, p, a).core)
  {
    hide ProcessUpdates, ProcessSuspicion, AbsorbAll, ClearAll, Clears, Touch, ClearSuspect, PutLogged, Reported,
      ReceiveEnabled, Displaced, JoinedTable, FailedRecords, Listing, Live, Notify, SignalDirect, SignalIndirect;
    var c, msg, now := p.core, a.msg, a.now;
    TouchKeeps(c, msg.sender, msg.inc, now);
    match msg.kind
    case Heartbeat => ProcessUpdatesRefute(Touch(c, msg.sender, msg.inc, now), cfg.opts, a.susp, msg.members, msg.sender, now);
    case Ack => ClearKeeps(Touch(c, msg.sender, msg.inc, now), msg.sender, msg.inc);
    case IndirectPing => ProcessUpdatesRefute(Refresh(c, msg.sender, msg.inc, now), cfg.opts, a.susp, msg.members, msg.sender, now);
    case IndirectAck =>
      ReportedKeeps(c, msg.target, msg.inc, now);
      ClearKeeps(Reported(c, msg.target, msg.inc, now), msg.target, msg.inc);
    case JoinResponse =>
      JoinResponseKeeps(c, msg.members, now);
      ClearAllKeeps(AbsorbAll(c, msg.members, now), Clears(c, msg.members, now));
    case Suspect => ProcessSuspicionRefutes(c, cfg.opts, msg.sender, msg.target, msg.inc, now);
    case AliveMsg => HandleAliveKeeps(c, msg.sender, msg.inc, now);
    case Confirm => HandleConfirmKeeps(c, msg.target, msg.inc, now);
    case _ =>
  }

  lemma CallbackSends(c: Core, task: Task, now: int)
    ensures SendsPlain(c, RunTask(c, task, now))
  {
  }

  /** Timers, ticks and the ping loop send no acknowledgement, save a proxy that forwards one. */
  lemma TimersSend(cfg: Config, p: Proc, a: Action)
    requires Enabled(cfg, p, a) && !a.Receive? && !a.Callback? && !a.Reidentify? && !a.ForwardAck?
    ensures SendsPlain(p.core, Act(cfg, p, a).core)
  {
    hide Handle, DeclareSuspicion, ReportSilent, Live, RunTask, Rejoin, Listing, Selection, Check;
    var c := p.core;
    match a
    case ManagerTick(now) => CheckSends(c, cfg.opts, now);
    case GossipTick(susp, now, silent, removed) =>
      ReportSilentRefute(Swept(c, cfg.ts, susp, now), cfg.opts, silent, c.table, now);
    case NoDirectAck(susp, helpers, now) => DeclareRefutes(c, cfg.opts, susp, p.phase.target, now);
    case NoIndirectAck(susp, now) => DeclareRefutes(c, cfg.opts, susp, p.phase.target, now);
    case _ =>
  }

  lemma CheckSends(c: Core, o: Options, now: int)
    ensures Check(c, o, now).out == c.out
  {
  }

  lemma ReidentifySends(c: Core, id: NodeID, dest: Addr, now: int)
    ensures SendsPlain(c, Rejoin(c, id, dest, now))
  {
  }

  /** The acknowledgements a step adds to what its process has sent. */
  lemma ActSends(cfg: Config, p: Proc, a: Action)
    requires Enabled(cfg, p, a)
    ensures var c' := Act(cfg, p, a).core;
      && p.core.out <= c'.out
      && forall pk :: pk in c'.out ==>
           || pk in p.core.out
           || Plain(pk)
           || (pk.msg.kind.Ack? && pk.msg.sender == p.core.local)
           || (a.ForwardAck? && pk.msg.kind.IndirectAck? && pk.msg.target == p.waiters[a.w].target
               && pk.msg.seqNum == p.waiters[a.w].seqNum && Some(pk.msg.inc) == p.waiters[a.w].received)
  {
    hide Act, Enabled, Handle, RunTask, Rejoin, ReceiveEnabled;
    if a.Receive? {
      ReceiveActs(cfg, p, a);
      if a.msg.kind.Ping? {
        PingSends(cfg, p, a);
      } else {
        HandleSends(cfg, p, a);
      }
    } else if a.Callback? {
      CallbackActs(cfg, p, a);
      CallbackSends(p.core, a.task, a.now);
    } else if a.Reidentify? {
      ReidentifyActs(cfg, p, a);
      ReidentifySends(p.core, a.id, a.dest, a.now);
    } else if a.ForwardAck? {
      ForwardActs(cfg, p, a);
    } else {
      TimersSend(cfg, p, a);
    }
  }

  lemma ForwardActs(cfg: Config, p: Proc, a: Action)
    requires Enabled(cfg, p, a) && a.ForwardAck?
    ensures a.w in p.waiters && p.waiters[a.w].received.Some? && Act(cfg, p, a) == Forward(p, a.w)
  {
    hide Handle, DeclareSuspicion, GossipCheck, Check, GossipRound, RunTask;
  }

  // ----- what a step learns

  /** A probe or waiter of `p'` that has been answered had been answered in `p`, or the message says so. */
  lemma HandleLearns(cfg: Config, p: Proc, a: Action)
    requires a.Receive? && ReceiveEnabled(p, a) && Linked(p)
    ensures var p' := Handle(cfg, p, a);
      && (forall n :: n in p'.probes && p'.probes[n].signalled ==>
            || (n in p.probes && p.probes[n].signalled && p'.probes[n].target == p.probes[n].target)
            || (a.msg.seqNum == n && p'.probes[n].target == Subject(a.msg) && (a.msg.kind.Ack? || a.msg.kind.IndirectAck?)))
      && (forall w :: w in p'.waiters && p'.waiters[w].received.Some? ==>
            || (w in p.waiters && p'.waiters[w] == p.waiters[w])
            || (a.msg.kind.Ack? && p'.waiters[w].target == a.msg.sender && p'.waiters[w].seqNum == a.msg.seqNum
                && p'.waiters[w].received == Some(a.msg.inc)))
  {
    hide ProcessUpdates, HandleJoin, HandleJoinResponse, HandleAlive, ProcessSuspicion, Touch, ClearSuspect, HandleLeave,
      Reported, HandleHeartbeat, HandleConfirm, Notify, Live;
    var p' := Handle(cfg, p, a);
    if a.msg.kind.Ack? {
      NotifyExact(p, Key(a.msg.seqNum, a.msg.sender), a.msg.inc);
    } else if a.msg.kind.IndirectPing? {
    } else {
      assert p'.waiters == p.waiters;
    }
  }

  lemma NotifyExact(p: Proc, key: Key, inc: int)
    requires Linked(p)
    ensures forall w :: w in Notify(p, key, inc) ==>
      && w in p.waiters
      && (Notify(p, key, inc)[w] == p.waiters[w] || Notify(p, key, inc)[w] == Waiter(p.waiters[w].requester, key.node, key.seqNum, Some(inc)))
  {
  }

  /** Other steps learn nothing. */
  lemma OthersLearnNothing(cfg: Config, p: Proc, a: Action)
    requires Enabled(cfg, p, a) && !a.Receive?
    ensures var p' := Act(cfg, p, a);
      && (forall n :: n in p'.probes && p'.probes[n].signalled ==> n in p.probes && p'.probes[n] == p.probes[n])
      && (forall w :: w in p'.waiters ==> w in p.waiters && p'.waiters[w] == p.waiters[w])
  {
    hide Handle, DeclareSuspicion, GossipCheck, Check, GossipRound, RunTask, Live, Rejoin, Selection;
  }

  // ----- over whole runs

  ghost predicate Provenance(s: State) {
    && AuthenticAcks(s)
    && (forall i :: i in s.procs ==> s.procs[i].core.local in s.owner && s.owner[s.procs[i].core.local] == i)
    && forall i :: i in s.procs ==> Witnessed(s, s.procs[i]) && Linked(s.procs[i]) && OneProbe(s.procs[i])
  }

  /** More has been sent in `s'` than in `s`. */
  ghost predicate SentMore(s: State, s': State) {
    forall q :: q in s.procs ==> q in s'.procs && s.procs[q].core.out <= s'.procs[q].core.out
  }

  lemma StaysAnswered(s: State, s': State, target: NodeID, n: nat)
    requires SentMore(s, s')
    ensures Answered(s, target, n) ==> Answered(s', target, n)
    ensures forall inc :: AnsweredAt(s, target, n, inc) ==> AnsweredAt(s', target, n, inc)
  {
    if Answered(s, target, n) {
      var pk :| InFlight(s, pk) && IsAck(pk.msg, target, n);
      assert InFlight(s', pk);
    }
    forall inc | AnsweredAt(s, target, n, inc) ensures AnsweredAt(s', target, n, inc) {
      var pk :| InFlight(s, pk) && IsAck(pk.msg, target, n) && pk.msg.inc == inc;
      assert InFlight(s', pk);
    }
  }

  lemma StaysWitnessed(s: State, s': State, p: Proc)
    requires SentMore(s, s') && Witnessed(s, p)
    ensures Witnessed(s', p)
  {
    hide Answered, AnsweredAt, SentMore;
    forall n | n in p.probes && p.probes[n].signalled ensures Answered(s', p.probes[n].target, n) {
      StaysAnswered(s, s', p.probes[n].target, n);
    }
    forall w | w in p.waiters && p.waiters[w].received.Some?
      ensures AnsweredAt(s', p.waiters[w].target, p.waiters[w].seqNum, p.waiters[w].received.value)
    {
      StaysAnswered(s, s', p.waiters[w].target, p.waiters[w].seqNum);
    }
    forall pk | pk in p.core.out && pk.msg.kind.IndirectAck?
      ensures AnsweredAt(s', pk.msg.target, pk.msg.seqNum, pk.msg.inc)
    {
      StaysAnswered(s, s', pk.msg.target, pk.msg.seqNum);
    }
  }

  /** A delivered acknowledgement, direct or forwarded, goes back to an Ack of its subject. */
  lemma DeliveredAnswer(s: State, pk: Packet)
    requires Provenance(s) && InFlight(s, pk) && (pk.msg.kind.Ack? || pk.msg.kind.IndirectAck?)
    ensures AnsweredAt(s, Subject(pk.msg), pk.msg.seqNum, pk.msg.inc)
    ensures Answered(s, Subject(pk.msg), pk.msg.seqNum)
  {
    var q :| q in s.procs && pk in s.procs[q].core.out;
    if pk.msg.kind.Ack? {
      assert IsAck(pk.msg, pk.msg.sender, pk.msg.seqNum);
    } else {
      assert Witnessed(s, s.procs[q]);
    }
    var pk' :| InFlight(s, pk') && IsAck(pk'.msg, Subject(pk.msg), pk.msg.seqNum) && pk'.msg.inc == pk.msg.inc;
  }

  lemma ActWitnessed(cfg: Config, s: State, i: nat, a: Action)
    requires Provenance(s) && Guard(cfg, s, Do(i, a))
    ensures Witnessed(s, Act(cfg, s.procs[i], a).(core := s.procs[i].core))
    ensures forall pk :: pk in Act(cfg, s.procs[i], a).core.out && pk.msg.kind.IndirectAck? ==>
      AnsweredAt(s, pk.msg.target, pk.msg.seqNum, pk.msg.inc)
  {
    hide Act, Enabled, Handle, Answered, AnsweredAt, ReceiveEnabled, OneProbe, AuthenticAcks;
    var p := s.procs[i];
    var p' := Act(cfg, p, a);
    assert Witnessed(s, p) && Linked(p);
    ActSends(cfg, p, a);
    if a.Receive? {
      ReceiveActs(cfg, p, a);
      HandleLearns(cfg, p, a);
      if a.msg.kind.Ack? || a.msg.kind.IndirectAck? {
        DeliveredAnswer(s, Packet(a.msg, p.core.local.Address()));
      }
    } else {
      OthersLearnNothing(cfg, p, a);
      if a.ForwardAck? {
        ForwardActs(cfg, p, a);
      }
    }
  }

  lemma OneProbeKept(cfg: Config, p: Proc, a: Action)
    requires Enabled(cfg, p, a) && OneProbe(p)
    ensures OneProbe(Act(cfg, p, a))
  {
    hide Handle, DeclareSuspicion, GossipCheck, Check, GossipRound, RunTask, Live, Rejoin, Selection, ReceiveEnabled;
    if a.Receive? {
      OneProbeHandled(cfg, p, a);
    }
  }

  lemma OneProbeHandled(cfg: Config, p: Proc, a: Action)
    requires a.Receive? && ReceiveEnabled(p, a) && OneProbe(p)
    ensures OneProbe(Handle(cfg, p, a))
  {
    hide ProcessUpdates, HandleJoin, HandleJoinResponse, HandleAlive, ProcessSuspicion, Touch, ClearSuspect, HandleLeave,
      Reported, HandleHeartbeat, HandleConfirm, Notify, Live, ReceiveEnabled;
  }

  lemma AuthenticDo(cfg: Config, s: State, i: nat, a: Action)
    requires Provenance(s) && Guard(cfg, s, Do(i, a))
    ensures var s' := After(cfg, s, Do(i, a));
      && AuthenticAcks(s')
      && SentMore(s, s')
      && forall j :: j in s'.procs ==> s'.procs[j].core.local in s'.owner && s'.owner[s'.procs[j].core.local] == j
  {
    hide Act, Enabled, Witnessed, Linked, OneProbe, InFlight;
    var p := s.procs[i];
    ActSends(cfg, p, a);
    ActRefutes(cfg, p, a);
    if a.Reidentify? {
      ReidentifyActs(cfg, p, a);
    }
  }

  lemma ProvenanceDo(cfg: Config, s: State, i: nat, a: Action)
    requires Provenance(s) && Guard(cfg, s, Do(i, a))
    ensures Provenance(After(cfg, s, Do(i, a)))
  {
    hide Act, Enabled, Witnessed, Linked, OneProbe, InFlight, AuthenticAcks, SentMore;
    var s' := After(cfg, s, Do(i, a));
    var p, p' := s.procs[i], s'.procs[i];
    AuthenticDo(cfg, s, i, a);
    ActWitnessed(cfg, s, i, a);
    CoreWitnessed(s, p', p'.(core := p.core));
    forall j | j in s'.procs ensures Witnessed(s', s'.procs[j]) && Linked(s'.procs[j]) && OneProbe(s'.procs[j]) {
      StaysWitnessed(s, s', s'.procs[j]);
      if j == i {
        ActLinked(cfg, p, a);
        OneProbeKept(cfg, p, a);
      }
    }
  }

  lemma CoreWitnessed(s: State, p: Proc, p0: Proc)
    requires Witnessed(s, p0) && p0.(core := p.core) == p
    requires forall pk :: pk in p.core.out && pk.msg.kind.IndirectAck? ==>
      AnsweredAt(s, pk.msg.target, pk.msg.seqNum, pk.msg.inc)
    ensures Witnessed(s, p)
  {
  }

  lemma AuthenticStart(cfg: Config, s: State, i: nat, id: NodeID, now: int)
    requires Provenance(s) && Guard(cfg, s, Start(i, id, now))
    ensures AuthenticAcks(After(cfg, s, Start(i, id, now)))
  {
    hide Witnessed, Linked, OneProbe, InFlight, Act, Enabled;
  }

  lemma ProvenanceStart(cfg: Config, s: State, i: nat, id: NodeID, now: int)
    requires Provenance(s) && Guard(cfg, s, Start(i, id, now))
    ensures Provenance(After(cfg, s, Start(i, id, now)))
  {
    hide Witnessed, Linked, OneProbe, InFlight, Act, Enabled, AuthenticAcks;
    var s' := After(cfg, s, Start(i, id, now));
    AuthenticStart(cfg, s, i, id, now);
    forall j | j in s'.procs ensures Witnessed(s', s'.procs[j]) && Linked(s'.procs[j]) && OneProbe(s'.procs[j]) {
      if j == i {
        BootWitnessed(s', id, now);
      } else {
        StaysWitnessed(s, s', s'.procs[j]);
      }
    }
  }

  lemma BootWitnessed(s: State, id: NodeID, now: int)
    ensures Witnessed(s, Boot(id, now)) && Linked(Boot(id, now)) && OneProbe(Boot(id, now))
  {
  }

  lemma {:induction false} ProvenanceInRuns(cfg: Config, states: seq<State>, steps: seq<Step>)
    requires Run(cfg, states, steps)
    ensures Provenance(states[|steps|])
    decreases |steps|
  {
    hide Guard, After, Provenance;
    if steps == [] {
      assert Provenance(EMPTY) by {
        EmptyProvenance();
      }
    } else {
      var n := |steps| - 1;
      RunPrefix(cfg, states, steps);
      ProvenanceInRuns(cfg, states[..n + 1], steps[..n]);
      ProvenanceStep(cfg, states[n], steps[n]);
    }
  }

  lemma EmptyProvenance()
    ensures Provenance(EMPTY)
  {
  }

  lemma ProvenanceStep(cfg: Config, s: State, st: Step)
    requires Provenance(s) && Guard(cfg, s, st)
    ensures Provenance(After(cfg, s, st))
  {
    hide Guard, After, Provenance;
    match st
    case Start(i, id, now) => ProvenanceStart(cfg, s, i, id, now);
    case Do(i, a) => ProvenanceDo(cfg, s, i, a);
  }

  /** In every reachable state: a probe has been signalled only if its very target, through the process
      that owns its identity, has sent an Ack with the probe's sequence number; every forwarded
      acknowledgement carries the incarnation of such an Ack; and between periods no probe is pending. */
  lemma OnlyTheTargetAnswers(cfg: Config, states: seq<State>, steps: seq<Step>, i: nat)
    requires Run(cfg, states, steps) && i in states[|steps|].procs
    ensures var s := states[|steps|];
      var p := s.procs[i];
      && (forall n :: n in p.probes && p.probes[n].signalled ==>
            exists q, pk :: q in s.procs && pk in s.procs[q].core.out && IsAck(pk.msg, p.probes[n].target, n)
                            && pk.msg.sender in s.owner && s.owner[pk.msg.sender] == q)
      && (forall pk :: pk in p.core.out && pk.msg.kind.IndirectAck? ==>
            exists q, ack :: q in s.procs && ack in s.procs[q].core.out && IsAck(ack.msg, pk.msg.target, pk.msg.seqNum)
                             && ack.msg.inc == pk.msg.inc && ack.msg.sender in s.owner && s.owner[ack.msg.sender] == q)
      && (p.phase.Idle? ==> p.probes == map[])
  {
    hide Guard, After, Linked;
    ProvenanceInRuns(cfg, states, steps);
    var s := states[|steps|];
    var p := s.procs[i];
    assert Witnessed(s, p) && OneProbe(p);
    forall n | n in p.probes && p.probes[n].signalled
      ensures exists q, pk :: q in s.procs && pk in s.procs[q].core.out && IsAck(pk.msg, p.probes[n].target, n)
                              && pk.msg.sender in s.owner && s.owner[pk.msg.sender] == q
    {
      var pk :| InFlight(s, pk) && IsAck(pk.msg, p.probes[n].target, n);
      var q :| q in s.procs && pk in s.procs[q].core.out;
    }
    forall pk | pk in p.core.out && pk.msg.kind.IndirectAck?
      ensures exists q, ack :: q in s.procs && ack in s.procs[q].core.out && IsAck(ack.msg, pk.msg.target, pk.msg.seqNum)
                               && ack.msg.inc == pk.msg.inc && ack.msg.sender in s.owner && s.owner[ack.msg.sender] == q
    {
      var ack :| InFlight(s, ack) && IsAck(ack.msg, pk.msg.target, pk.msg.seqNum) && ack.msg.inc == pk.msg.inc;
      var q :| q in s.procs && ack in s.procs[q].core.out;
    }
  }
}
