/** Where incarnations come from: no step invents one. A claim is an incarnation attributed to a node,
    wherever it is held; `cap` bounds the claims about each node. One lemma per transition shows that the
    bound is kept, raised only by the process's own counter. */
module Claims {
  import opened Types
  import opened SuspicionSpec
  import opened UpdateLogSpec
  import opened DetectorSpec
  import opened PingAckSpec
  import opened GossipSpec
  import opened CallbackSpec
  import opened Cluster

  type Cap = map<NodeID, int>

  predicate Covered(cap: Cap, id: NodeID, inc: int) {
    id in cap && inc <= cap[id]
  }

  ghost predicate UpdatesCovered(cap: Cap, us: seq<Update>) {
    forall u :: u in us ==> Covered(cap, u.id, u.inc)
  }

  /** The node whose incarnation the message header carries. */
  function Subject(msg: Message): NodeID {
    if msg.kind.Suspect? || msg.kind.Confirm? || msg.kind.IndirectAck? then msg.target else msg.sender
  }

  ghost predicate MsgCovered(cap: Cap, msg: Message) {
    Covered(cap, Subject(msg), msg.inc) && UpdatesCovered(cap, msg.members)
  }

  ghost predicate CoreCovered(cap: Cap, c: Core) {
    && (forall k :: k in c.table ==> Covered(cap, k, c.table[k].inc))
    && UpdatesCovered(cap, c.log)
    && (forall k :: k in c.entries ==> Covered(cap, k, c.entries[k].inc))
    && (forall t :: t in c.tasks ==> Covered(cap, t.target, t.inc))
    && (forall pk :: pk in c.out ==> MsgCovered(cap, pk.msg))
  }

  ghost predicate ProcCovered(cap: Cap, p: Proc) {
    && CoreCovered(cap, p.core)
    && (forall n :: n in p.probes ==> p.probes[n].target in cap)
    && (!p.phase.Idle? ==> p.phase.target in cap)
    && (p.phase.Direct? ==> UpdatesCovered(cap, p.phase.updates))
    && (forall w :: w in p.waiters && p.waiters[w].received.Some? ==>
          Covered(cap, p.waiters[w].target, p.waiters[w].received.value))
  }

  ghost predicate Grounded(cap: Cap, c: Core) {
    && Covered(cap, c.local, c.own)
    && 0 <= c.own
    && forall id :: id in cap ==> 0 <= cap[id]
  }

  /** Nothing sent is unsent and no refutation is forgotten. */
  predicate Grows(c: Core, c': Core) {
    c'.local == c.local && c.refutations <= c'.refutations && c.out <= c'.out
  }

  /** The only packets sent are refutations. */
  predicate Onward(c: Core, c': Core) {
    Grows(c, c') && forall pk :: pk in c'.out ==> pk in c.out || pk.msg.kind.AliveMsg?
  }

  /** `cap` with room for the counter of `c`. */
  function Raise(cap: Cap, c: Core): Cap {
    if Covered(cap, c.local, c.own) then cap else cap[c.local := c.own]
  }

  function Refuted(c: Core, c': Core): int {
    c'.refutations - c.refutations
  }

  predicate NoWrap(cap: Cap, c: Core, c': Core) {
    c.local in cap && cap[c.local] + Refuted(c, c') <= MAX_INT32
  }

  /** What every transition that keeps the identity of its process establishes. */
  ghost predicate Advances(cap: Cap, c: Core, c': Core)
    requires c.local in cap
  {
    && c'.local == c.local
    && c.refutations <= c'.refutations
    && c.own + Refuted(c, c') <= c'.own <= cap[c.local] + Refuted(c, c')
    && CoreCovered(Raise(cap, c'), c')
    && Grounded(Raise(cap, c'), c')
  }

  /** A transition that makes no new claim. */
  ghost predicate Quiet(cap: Cap, c: Core, c': Core) {
    && c'.local == c.local && c'.own == c.own && c'.refutations == c.refutations
    && CoreCovered(cap, c')
  }

  ghost predicate Below(cap: Cap, cap': Cap) {
    forall id :: id in cap ==> Covered(cap', id, cap[id])
  }

  lemma CoveredBelow(cap: Cap, cap': Cap, p: Proc)
    requires ProcCovered(cap, p) && Below(cap, cap')
    ensures ProcCovered(cap', p)
  {
    forall pk | pk in p.core.out ensures MsgCovered(cap', pk.msg) {
      assert MsgCovered(cap, pk.msg);
    }
  }

  lemma QuietAdvances(cap: Cap, c: Core, c': Core)
    requires Grounded(cap, c) && Quiet(cap, c, c')
    ensures Advances(cap, c, c') && Raise(cap, c') == cap
  {
  }

  /** Two transitions in a row. */
  lemma AdvancesTwice(cap: Cap, c: Core, c1: Core, c2: Core)
    requires Grounded(cap, c)
    requires Advances(cap, c, c1)
    requires Advances(Raise(cap, c1), c1, c2)
    ensures Advances(cap, c, c2)
  {
    assert Raise(Raise(cap, c1), c2) == Raise(cap, c2);
  }

  // ----- the suspicion manager

  lemma LodgeQuiet(cap: Cap, c: Core, o: Options, e: Entry, reporter: NodeID, target: NodeID, now: int)
    requires CoreCovered(cap, c) && Covered(cap, target, e.inc)
    ensures Quiet(cap, c, Lodge(c, o, e, reporter, target, now))
  {
  }

  lemma RefuteAdvances(cap: Cap, c: Core, inc: int)
    requires CoreCovered(cap, c) && Grounded(cap, c) && Covered(cap, c.local, inc)
    requires NoWrap(cap, c, SelfRefute(c, inc))
    ensures Advances(cap, c, SelfRefute(c, inc))
  {
    var c' := SelfRefute(c, inc);
    var cap' := Raise(cap, c');
    assert c'.own == Max(c.own, inc) + 1;
    forall pk | pk in c'.out ensures MsgCovered(cap', pk.msg) {
      if pk in c.out {
        assert MsgCovered(cap, pk.msg);
      }
    }
  }

  lemma ProcessSuspicionAdvances(cap: Cap, c: Core, o: Options, reporter: NodeID, target: NodeID, inc: int, now: int)
    requires CoreCovered(cap, c) && Grounded(cap, c) && Covered(cap, target, inc)
    requires NoWrap(cap, c, ProcessSuspicion(c, o, reporter, target, inc, now))
    ensures Advances(cap, c, ProcessSuspicion(c, o, reporter, target, inc, now))
  {
    if target == c.local {
      RefuteAdvances(cap, c, inc);
    } else {
      LodgeQuiet(cap, c, o, NewEntry(inc), reporter, target, now);
      if target in c.entries {
        LodgeQuiet(cap, c, o, c.entries[target], reporter, target, now);
      }
      QuietAdvances(cap, c, ProcessSuspicion(c, o, reporter, target, inc, now));
    }
  }

  lemma ClearSuspectQuiet(cap: Cap, c: Core, target: NodeID, inc: int)
    requires CoreCovered(cap, c) && Covered(cap, target, inc)
    ensures Quiet(cap, c, ClearSuspect(c, target, inc))
  {
  }

  lemma CheckQuiet(cap: Cap, c: Core, o: Options, now: int)
    requires CoreCovered(cap, c)
    ensures Quiet(cap, c, Check(c, o, now))
  {
    var c' := Check(c, o, now);
    forall t | t in c'.tasks ensures Covered(cap, t.target, t.inc) {
      if t !in c.tasks {
        assert t in ConfirmTasks(c, o, now);
      }
    }
  }

  // ----- the shared handlers

  lemma PutLoggedQuiet(cap: Cap, c: Core, id: NodeID, r: Rec, now: int)
    requires CoreCovered(cap, c) && Covered(cap, id, r.inc)
    ensures Quiet(cap, c, PutLogged(c, id, r, now))
  {
  }

  lemma EscalateAdvances(cap: Cap, c: Core, o: Options, susp: bool, u: Update, reporter: NodeID, now: int)
    requires CoreCovered(cap, c) && Grounded(cap, c) && Covered(cap, u.id, u.inc)
    requires NoWrap(cap, c, Escalate(c, o, susp, u, reporter, now))
    ensures Advances(cap, c, Escalate(c, o, susp, u, reporter, now))
  {
    var c' := Escalate(c, o, susp, u, reporter, now);
    if u.status.Suspected? && susp {
      ProcessSuspicionAdvances(cap, c, o, reporter, u.id, u.inc, now);
    } else {
      ClearSuspectQuiet(cap, c, u.id, u.inc);
      QuietAdvances(cap, c, c');
    }
  }

  lemma MergeRecordQuiet(cap: Cap, c: Core, susp: bool, u: Update, now: int)
    requires CoreCovered(cap, c) && Covered(cap, u.id, u.inc) && u.id in c.table
    ensures Quiet(cap, c, MergeRecord(c, susp, u, now))
  {
    var c' := MergeRecord(c, susp, u, now);
    if c' != c {
      PutLoggedQuiet(cap, c, u.id, c'.table[u.id], now);
    }
  }

  lemma ProcessUpdateAdvances(cap: Cap, c: Core, o: Options, susp: bool, u: Update, reporter: NodeID, now: int)
    requires CoreCovered(cap, c) && Grounded(cap, c) && Covered(cap, u.id, u.inc)
    requires NoWrap(cap, c, ProcessUpdate(c, o, susp, u, reporter, now))
    ensures Advances(cap, c, ProcessUpdate(c, o, susp, u, reporter, now))
  {
    if u.id == c.local {
      EscalateAdvances(cap, c, o, susp, u, reporter, now);
    } else if u.id !in c.table {
      PutLoggedQuiet(cap, c, u.id, Learned(u, now), now);
      QuietAdvances(cap, c, PutLogged(c, u.id, Learned(u, now), now));
    } else {
      MergeRecordQuiet(cap, c, susp, u, now);
      EscalateAdvances(cap, MergeRecord(c, susp, u, now), o, susp, u, reporter, now);
    }
  }

  lemma ProcessSuspicionRefutes(c: Core, o: Options, reporter: NodeID, target: NodeID, inc: int, now: int)
    ensures Onward(c, ProcessSuspicion(c, o, reporter, target, inc, now))
  {
  }

  lemma EscalateRefutes(c: Core, o: Options, susp: bool, u: Update, reporter: NodeID, now: int)
    ensures Onward(c, Escalate(c, o, susp, u, reporter, now))
  {
  }

  lemma ProcessUpdateRefutes(c: Core, o: Options, susp: bool, u: Update, reporter: NodeID, now: int)
    ensures Onward(c, ProcessUpdate(c, o, susp, u, reporter, now))
  {
    hide Escalate;
    EscalateRefutes(c, o, susp, u, reporter, now);
    if u.id in c.table {
      EscalateRefutes(MergeRecord(c, susp, u, now), o, susp, u, reporter, now);
    }
  }

  /** Refutations are only ever added, whatever wraps. */
  lemma {:induction false} ProcessUpdatesRefute(c: Core, o: Options, susp: bool, us: seq<Update>,
          reporter: NodeID, now: int)
    ensures Onward(c, ProcessUpdates(c, o, susp, us, reporter, now))
  {
    hide ProcessUpdate;
    if us != [] {
      var n := |us| - 1;
      ProcessUpdatesRefute(c, o, susp, us[..n], reporter, now);
      ProcessUpdateRefutes(ProcessUpdates(c, o, susp, us[..n], reporter, now), o, susp, us[n], reporter, now);
    }
  }

  lemma {:induction false} ProcessUpdatesAdvances(cap: Cap, c: Core, o: Options, susp: bool, us: seq<Update>,
          reporter: NodeID, now: int)
    requires CoreCovered(cap, c) && Grounded(cap, c) && UpdatesCovered(cap, us)
    requires NoWrap(cap, c, ProcessUpdates(c, o, susp, us, reporter, now))
    ensures Advances(cap, c, ProcessUpdates(c, o, susp, us, reporter, now))
  {
    hide ProcessUpdate, CoreCovered;
    if us == [] {
      QuietAdvances(cap, c, c);
    } else {
      var n := |us| - 1;
      var c1 := ProcessUpdates(c, o, susp, us[..n], reporter, now);
      var c2 := ProcessUpdate(c1, o, susp, us[n], reporter, now);
      ProcessUpdateRefutes(c1, o, susp, us[n], reporter, now);
      ProcessUpdatesAdvances(cap, c, o, susp, us[..n], reporter, now);
      ProcessUpdateAdvances(Raise(cap, c1), c1, o, susp, us[n], reporter, now);
      AdvancesTwice(cap, c, c1, c2);
    }
  }

  lemma TouchQuiet(cap: Cap, c: Core, sender: NodeID, inc: int, now: int)
    requires CoreCovered(cap, c) && Covered(cap, sender, inc)
    ensures Quiet(cap, c, Touch(c, sender, inc, now))
  {
  }

  lemma HandleAliveQuiet(cap: Cap, c: Core, sender: NodeID, inc: int, now: int)
    requires CoreCovered(cap, c) && Covered(cap, sender, inc)
    ensures Quiet(cap, c, HandleAlive(c, sender, inc, now))
  {
    PutLoggedQuiet(cap, c, sender, Rec(inc, Alive, At(now), Zero), now);
    ClearSuspectQuiet(cap, c, sender, inc);
    ClearSuspectQuiet(cap, PutLogged(c, sender, Rec(inc, Alive, At(now), Zero), now), sender, inc);
  }

  lemma HandleJoinQuiet(cap: Cap, c: Core, sender: NodeID, inc: int, now: int, displaced: seq<NodeID>,
          listing: seq<NodeID>)
    requires CoreCovered(cap, c) && Covered(cap, sender, inc) && Covered(cap, c.local, c.own)
    requires forall k :: k in listing ==> k in JoinedTable(c, sender, inc, now)
    requires forall k :: k in displaced ==> k in c.table
    ensures Quiet(cap, c, HandleJoin(c, sender, inc, now, displaced, listing))
  {
    var c' := HandleJoin(c, sender, inc, now, displaced, listing);
    forall u | u in c'.log ensures Covered(cap, u.id, u.inc) {
      if u in FailedRecords(displaced, c.table, now) {
        assert u.id in displaced;
      }
    }
    assert UpdatesCovered(cap, Listing(listing, c'.table, now));
  }

  lemma {:induction false} AbsorbAllQuiet(cap: Cap, c: Core, us: seq<Update>, now: int)
    requires CoreCovered(cap, c) && UpdatesCovered(cap, us)
    ensures Quiet(cap, c, AbsorbAll(c, us, now))
  {
    if us != [] {
      var n := |us| - 1;
      AbsorbAllQuiet(cap, c, us[..n], now);
      var c1 := AbsorbAll(c, us[..n], now);
      var c2 := Absorb(c1, us[n], now);
      if c2 != c1 {
        PutLoggedQuiet(cap, c1, us[n].id, c2.table[us[n].id], now);
      }
    }
  }

  lemma {:induction false} ClearsCovered(cap: Cap, c: Core, us: seq<Update>, now: int)
    requires UpdatesCovered(cap, us)
    ensures UpdatesCovered(cap, Clears(c, us, now))
  {
    if us != [] {
      ClearsCovered(cap, c, us[..|us| - 1], now);
    }
  }

  lemma {:induction false} ClearAllQuiet(cap: Cap, c: Core, us: seq<Update>)
    requires CoreCovered(cap, c) && UpdatesCovered(cap, us)
    ensures Quiet(cap, c, ClearAll(c, us))
  {
    if us != [] {
      var n := |us| - 1;
      ClearAllQuiet(cap, c, us[..n]);
      ClearSuspectQuiet(cap, ClearAll(c, us[..n]), us[n].id, us[n].inc);
    }
  }

  lemma HandleJoinResponseQuiet(cap: Cap, c: Core, us: seq<Update>, now: int)
    requires CoreCovered(cap, c) && UpdatesCovered(cap, us)
    ensures Quiet(cap, c, HandleJoinResponse(c, us, now))
  {
    AbsorbAllQuiet(cap, c, us, now);
    ClearsCovered(cap, c, us, now);
    ClearAllQuiet(cap, AbsorbAll(c, us, now), Clears(c, us, now));
  }

  lemma HandleLeaveQuiet(cap: Cap, c: Core, sender: NodeID, now: int)
    requires CoreCovered(cap, c)
    ensures Quiet(cap, c, HandleLeave(c, sender, now))
  {
  }

  lemma {:induction false} LiveSubset(log: seq<Update>, now: int)
    ensures forall u :: u in Live(log, now) ==> u in log
  {
    if log != [] {
      LiveSubset(log[..|log| - 1], now);
    }
  }

  lemma ExpireQuiet(cap: Cap, c: Core, now: int)
    requires CoreCovered(cap, c)
    ensures Quiet(cap, c, Expire(c, now))
  {
    LiveSubset(c.log, now);
  }

  /** A packet whose claims are covered may be sent. */
  lemma SendQuiet(cap: Cap, c: Core, pks: set<Packet>)
    requires CoreCovered(cap, c)
    requires forall pk :: pk in pks ==> MsgCovered(cap, pk.msg)
    ensures Quiet(cap, c, c.(out := c.out + pks))
  {
  }

  // ----- the detectors' own transitions

  lemma DeclareSuspicionAdvances(cap: Cap, c: Core, o: Options, susp: bool, id: NodeID, now: int)
    requires CoreCovered(cap, c) && Grounded(cap, c) && id in cap
    requires NoWrap(cap, c, DeclareSuspicion(c, o, susp, id, now))
    ensures Advances(cap, c, DeclareSuspicion(c, o, susp, id, now))
  {
    if susp {
      var r := if id !in c.table then Rec(0, Suspected, At(now), At(now))
               else c.table[id].(status := Suspected, since := At(now));
      var c1 := if id in c.table && c.table[id].status.Suspected? then c else PutLogged(c, id, r, now);
      PutLoggedQuiet(cap, c, id, r, now);
      ProcessSuspicionAdvances(cap, c1, o, c.local, id, c1.table[id].inc, now);
    } else {
      QuietAdvances(cap, c, DeclareSuspicion(c, o, susp, id, now));
    }
  }

  lemma FailedRecordsCovered(cap: Cap, c: Core, ids: seq<NodeID>, now: int)
    requires CoreCovered(cap, c)
    requires forall k :: k in ids ==> k in c.table
    ensures UpdatesCovered(cap, FailedRecords(ids, c.table, now))
  {
    forall u | u in FailedRecords(ids, c.table, now) ensures Covered(cap, u.id, u.inc) {
      assert u.id in ids;
    }
  }

  lemma SweptQuiet(cap: Cap, c: Core, ts: Timeouts, susp: bool, now: int)
    requires CoreCovered(cap, c)
    ensures Quiet(cap, c, Swept(c, ts, susp, now))
  {
    var c' := Swept(c, ts, susp, now);
    forall k | k in c'.table ensures Covered(cap, k, c'.table[k].inc) {
      assert c'.table[k].inc == c.table[k].inc;
    }
  }

  lemma {:induction false} ReportSilentRefute(c: Core, o: Options, ids: seq<NodeID>, table: map<NodeID, Rec>, now: int)
    ensures Onward(c, ReportSilent(c, o, ids, table, now))
  {
    hide ProcessSuspicion;
    if ids != [] {
      var n := |ids| - 1;
      ReportSilentRefute(c, o, ids[..n], table, now);
      var inc := RecordedInc(table, ids[n]);
      var c1 := ReportSilent(c, o, ids[..n], table, now);
      ProcessSuspicionRefutes(Append(c1, Update(ids[n], inc, Suspected, now)), o, c.local, ids[n], inc, now);
    }
  }

  lemma {:induction false} ReportSilentAdvances(cap: Cap, c: Core, o: Options, ids: seq<NodeID>,
          table: map<NodeID, Rec>, now: int)
    requires CoreCovered(cap, c) && Grounded(cap, c)
    requires forall k :: k in ids ==> k in table && Covered(cap, k, table[k].inc)
    requires NoWrap(cap, c, ReportSilent(c, o, ids, table, now))
    ensures Advances(cap, c, ReportSilent(c, o, ids, table, now))
  {
    hide ProcessSuspicion;
    if ids == [] {
      QuietAdvances(cap, c, c);
    } else {
      var n := |ids| - 1;
      var inc := RecordedInc(table, ids[n]);
      var c1 := ReportSilent(c, o, ids[..n], table, now);
      var c2 := Append(c1, Update(ids[n], inc, Suspected, now));
      var c3 := ProcessSuspicion(c2, o, c1.local, ids[n], inc, now);
      ReportSilentRefute(c, o, ids[..n], table, now);
      ProcessSuspicionRefutes(c2, o, c.local, ids[n], inc, now);
      assert ids[n] in ids;
      ReportSilentAdvances(cap, c, o, ids[..n], table, now);
      ProcessSuspicionAdvances(Raise(cap, c1), c2, o, c1.local, ids[n], inc, now);
      AdvancesTwice(cap, c, c1, c3);
    }
  }

  lemma GossipCheckAdvances(cap: Cap, c: Core, o: Options, ts: Timeouts, susp: bool, now: int,
                            silent: seq<NodeID>, removed: seq<NodeID>)
    requires CoreCovered(cap, c) && Grounded(cap, c)
    requires forall k :: k in silent || k in removed ==> k in c.table
    requires NoWrap(cap, c, GossipCheck(c, o, ts, susp, now, silent, removed))
    ensures Advances(cap, c, GossipCheck(c, o, ts, susp, now, silent, removed))
  {
    var c1 := Swept(c, ts, susp, now);
    SweptQuiet(cap, c, ts, susp, now);
    ReportSilentAdvances(cap, c1, o, silent, c.table, now);
    FailedRecordsCovered(cap, c, removed, now);
  }

  lemma GossipRoundQuiet(cap: Cap, c: Core, targets: seq<NodeID>, extras: seq<NodeID>, now: int)
    requires CoreCovered(cap, c) && Covered(cap, c.local, c.own)
    requires forall k :: k in targets || k in extras ==> k in c.table
    ensures Quiet(cap, c, GossipRound(c, targets, extras, now))
  {
    var ids := (if c.local in c.table then [c.local] else []) + targets + extras;
    var c1 := c.(log := c.log + Listing(ids, c.table, now));
    forall u | u in Listing(ids, c.table, now) ensures Covered(cap, u.id, u.inc) {
      assert u.id in ids;
    }
    ExpireQuiet(cap, c1, now);
  }

  lemma HandleHeartbeatAdvances(cap: Cap, c: Core, o: Options, susp: bool, msg: Message, now: int)
    requires CoreCovered(cap, c) && Grounded(cap, c)
    requires Covered(cap, msg.sender, msg.inc) && UpdatesCovered(cap, msg.members)
    requires NoWrap(cap, c, HandleHeartbeat(c, o, susp, msg, now))
    ensures Advances(cap, c, HandleHeartbeat(c, o, susp, msg, now))
  {
    TouchQuiet(cap, c, msg.sender, msg.inc, now);
    ProcessUpdatesAdvances(cap, Touch(c, msg.sender, msg.inc, now), o, susp, msg.members, msg.sender, now);
  }

  /** An OnClear broadcast that claims nothing about its sender beyond `cap`, or reaches nobody. */
  predicate ClearsWithin(cap: Cap, c: Core, task: Task) {
    task.OnClear? && !Covered(cap, c.local, task.inc) ==> ClearAudience(c, task.target) == {}
  }

  /** Who would receive the broadcast of an OnClear callback about `target`. */
  function ClearAudience(c: Core, target: NodeID): set<NodeID> {
    c.table.Keys - {c.local, target}
  }

  lemma RunTaskQuiet(cap: Cap, c: Core, task: Task, now: int)
    requires CoreCovered(cap, c) && task in c.tasks && ClearsWithin(cap, c, task)
    ensures Quiet(cap, c, RunTask(c, task, now))
  {
    assert Covered(cap, task.target, task.inc);
    forall t | t in c.tasks - multiset{task} ensures t in c.tasks {
    }
    var c' := RunTask(c, task, now);
    assert c'.table.Keys == c.table.Keys;
    forall pk | pk in c'.out && pk !in c.out ensures MsgCovered(cap, pk.msg) {
      var k :| k in c'.table && k !in {c.local, task.target};
      assert k in ClearAudience(c, task.target);
    }
  }

  // ----- one step of one process

  lemma HandlePingAdvances(cap: Cap, p: Proc, o: Options, susp: bool, msg: Message, now: int)
    requires ProcCovered(cap, p) && Grounded(cap, p.core) && MsgCovered(cap, msg) && msg.kind.Ping?
    requires NoWrap(cap, p.core, HandlePing(p, o, susp, msg, now).core)
    ensures Advances(cap, p.core, HandlePing(p, o, susp, msg, now).core)
  {
    var c := p.core;
    var pk := Packet(Message(Ack, c.local, msg.sender, c.own, msg.seqNum, []), msg.sender.Address());
    SendQuiet(cap, c, {pk});
    var c1 := c.(out := c.out + {pk});
    TouchQuiet(cap, c1, msg.sender, msg.inc, now);
    ProcessUpdatesAdvances(cap, Touch(c1, msg.sender, msg.inc, now), o, susp, msg.members, msg.sender, now);
  }

  lemma HandleIndirectPingAdvances(cap: Cap, p: Proc, o: Options, susp: bool, msg: Message, w: nat, now: int)
    requires ProcCovered(cap, p) && Grounded(cap, p.core) && MsgCovered(cap, msg) && msg.kind.IndirectPing?
    requires NoWrap(cap, p.core, HandleIndirectPing(p, o, susp, msg, w, now).core)
    ensures Advances(cap, p.core, HandleIndirectPing(p, o, susp, msg, w, now).core)
  {
    var c := Refresh(p.core, msg.sender, msg.inc, now);
    var c1 := ProcessUpdates(c, o, susp, msg.members, msg.sender, now);
    ProcessUpdatesAdvances(cap, c, o, susp, msg.members, msg.sender, now);
    var cap1 := Raise(cap, c1);
    ExpireQuiet(cap1, c1, now);
    var c2 := Expire(c1, now);
    var ping := Message(Ping, c2.local, msg.target, c2.own, msg.seqNum, Prefix(c2.log, 5));
    SendQuiet(cap1, c2, {Packet(ping, msg.target.Address())});
  }

  lemma HandleIndirectAckQuiet(cap: Cap, c: Core, target: NodeID, inc: int, now: int)
    requires CoreCovered(cap, c) && Covered(cap, target, inc)
    ensures Quiet(cap, c, ClearSuspect(Reported(c, target, inc, now), target, inc))
  {
    ClearSuspectQuiet(cap, Reported(c, target, inc, now), target, inc);
  }

  lemma HandleAckQuiet(cap: Cap, c: Core, sender: NodeID, inc: int, now: int)
    requires CoreCovered(cap, c) && Covered(cap, sender, inc)
    ensures Quiet(cap, c, ClearSuspect(Touch(c, sender, inc, now), sender, inc))
  {
    TouchQuiet(cap, c, sender, inc, now);
    ClearSuspectQuiet(cap, Touch(c, sender, inc, now), sender, inc);
  }

  lemma HandleConfirmQuiet(cap: Cap, c: Core, target: NodeID, inc: int, now: int)
    requires CoreCovered(cap, c) && Covered(cap, target, inc)
    ensures Quiet(cap, c, HandleConfirm(c, target, inc, now))
  {
  }

  lemma BeginPeriodQuiet(cap: Cap, p: Proc, target: NodeID, now: int)
    requires ProcCovered(cap, p) && Covered(cap, p.core.local, p.core.own) && target in cap
    ensures Quiet(cap, p.core, BeginPeriod(p, target, now).core)
    ensures ProcCovered(cap, BeginPeriod(p, target, now))
  {
    ExpireQuiet(cap, p.core, now);
    var p' := BeginPeriod(p, target, now);
    assert forall u :: u in p'.phase.updates ==> u in p'.core.log;
    SendQuiet(cap, Expire(p.core, now), p'.core.out - p.core.out);
  }

  /** The core of a process that handles a message. */
  lemma HandleAdvances(cfg: Config, cap: Cap, p: Proc, a: Action)
    requires a.Receive? && ReceiveEnabled(p, a)
    requires ProcCovered(cap, p) && Grounded(cap, p.core) && MsgCovered(cap, a.msg)
    requires NoWrap(cap, p.core, Handle(cfg, p, a).core)
    ensures Advances(cap, p.core, Handle(cfg, p, a).core)
  {
    hide ProcessUpdates, CoreCovered, HandleJoin, HandleJoinResponse, HandleAlive, ProcessSuspicion, Touch, ClearSuspect,
      HandleConfirm, HandleLeave, Reported, HandleHeartbeat, UpdatesCovered;
    var c, msg, now := p.core, a.msg, a.now;
    match msg.kind
    case Heartbeat => HandleHeartbeatAdvances(cap, c, cfg.opts, a.susp, msg, now);
    case Ping => HandlePingAdvances(cap, p, cfg.opts, a.susp, msg, now);
    case Ack =>
      HandleAckQuiet(cap, c, msg.sender, msg.inc, now);
      QuietAdvances(cap, c, Handle(cfg, p, a).core);
    case IndirectPing => HandleIndirectPingAdvances(cap, p, cfg.opts, a.susp, msg, a.waiter, now);
    case IndirectAck =>
      HandleIndirectAckQuiet(cap, c, msg.target, msg.inc, now);
      QuietAdvances(cap, c, Handle(cfg, p, a).core);
    case Join =>
      HandleJoinQuiet(cap, c, msg.sender, msg.inc, now, a.displaced, a.listing);
      QuietAdvances(cap, c, Handle(cfg, p, a).core);
    case JoinResponse =>
      HandleJoinResponseQuiet(cap, c, msg.members, now);
      QuietAdvances(cap, c, Handle(cfg, p, a).core);
    case Leave =>
      HandleLeaveQuiet(cap, c, msg.sender, now);
      QuietAdvances(cap, c, Handle(cfg, p, a).core);
    case Suspect =>
      if a.susp {
        ProcessSuspicionAdvances(cap, c, cfg.opts, msg.sender, msg.target, msg.inc, now);
      } else {
        QuietAdvances(cap, c, c);
      }
    case AliveMsg =>
      HandleAliveQuiet(cap, c, msg.sender, msg.inc, now);
      QuietAdvances(cap, c, Handle(cfg, p, a).core);
    case Confirm =>
      HandleConfirmQuiet(cap, c, msg.target, msg.inc, now);
      QuietAdvances(cap, c, Handle(cfg, p, a).core);
  }

  /** The core of a process that takes any step but a change of identity. */
  lemma CoreAdvances(cfg: Config, cap: Cap, p: Proc, a: Action)
    requires Enabled(cfg, p, a) && !a.Reidentify?
    requires ProcCovered(cap, p) && Grounded(cap, p.core)
    requires a.Receive? ==> MsgCovered(cap, a.msg)
    requires a.Callback? ==> ClearsWithin(cap, p.core, a.task)
    requires NoWrap(cap, p.core, Act(cfg, p, a).core)
    ensures Advances(cap, p.core, Act(cfg, p, a).core)
  {
    hide CoreCovered, Handle, Check, GossipCheck, GossipRound, DeclareSuspicion, RunTask, UpdatesCovered;
    var c := p.core;
    var c' := Act(cfg, p, a).core;
    match a
    case Receive(_, _, _, _, _, _) => HandleAdvances(cfg, cap, p, a);
    case ManagerTick(now) =>
      CheckQuiet(cap, c, cfg.opts, now);
      QuietAdvances(cap, c, c');
    case PingTick(now, order) =>
      PingCheckQuiet(cap, c, cfg.ts, now, order);
      QuietAdvances(cap, c, c');
    case GossipTick(susp, now, silent, removed) =>
      GossipCheckAdvances(cap, c, cfg.opts, cfg.ts, susp, now, silent, removed);
    case Round(targets, extras, now) =>
      GossipRoundQuiet(cap, c, targets, extras, now);
      QuietAdvances(cap, c, c');
    case Begin(target, now) =>
      EligibleKnown(cap, c, {c.local}, [target]);
      BeginPeriodQuiet(cap, p, target, now);
      QuietAdvances(cap, c, c');
    case Acked => QuietAdvances(cap, c, c');
    case NoDirectAck(susp, helpers, now) =>
      if helpers == [] {
        DeclareSuspicionAdvances(cap, c, cfg.opts, susp, p.phase.target, now);
      } else {
        RequestsQuiet(cap, p, helpers);
        QuietAdvances(cap, c, c');
      }
    case NoIndirectAck(susp, now) => DeclareSuspicionAdvances(cap, c, cfg.opts, susp, p.phase.target, now);
    case ForwardAck(w) =>
      ForwardQuiet(cap, p, w);
      QuietAdvances(cap, c, c');
    case ProxyTimeout(w) => QuietAdvances(cap, c, c');
    case Callback(task, now) =>
      RunTaskQuiet(cap, c, task, now);
      QuietAdvances(cap, c, c');
    case Depart =>
      DepartQuiet(cap, c);
      QuietAdvances(cap, c, c');
  }

  lemma PingCheckQuiet(cap: Cap, c: Core, ts: Timeouts, now: int, order: seq<NodeID>)
    requires CoreCovered(cap, c) && forall k :: k in order ==> k in c.table
    ensures Quiet(cap, c, PingCheck(c, ts, now, order))
  {
    FailedRecordsCovered(cap, c, order, now);
  }

  lemma EligibleKnown(cap: Cap, c: Core, exclude: set<NodeID>, chosen: seq<NodeID>)
    requires CoreCovered(cap, c)
    requires forall k :: k in chosen ==> Eligible(c.table, c.local, exclude, k)
    ensures forall k :: k in chosen ==> k in cap
  {
  }

  lemma RequestsQuiet(cap: Cap, p: Proc, helpers: seq<NodeID>)
    requires ProcCovered(cap, p) && Covered(cap, p.core.local, p.core.own) && p.phase.Direct?
    ensures var Direct(target, n, updates) := p.phase;
      var c := p.core;
      Quiet(cap, c, c.(out := c.out + PingRequests(c, target, n, updates, helpers)))
  {
    var Direct(target, n, updates) := p.phase;
    SendQuiet(cap, p.core, PingRequests(p.core, target, n, updates, helpers));
  }

  lemma ForwardQuiet(cap: Cap, p: Proc, w: nat)
    requires ProcCovered(cap, p) && w in p.waiters && p.waiters[w].received.Some?
    ensures Quiet(cap, p.core, Forward(p, w).core)
  {
  }

  lemma DepartQuiet(cap: Cap, c: Core)
    requires CoreCovered(cap, c) && Covered(cap, c.local, c.own)
    ensures Quiet(cap, c, LeaveGroup(c))
  {
    SendQuiet(cap, c, Broadcast(c.table, Message(Leave, c.local, NO_NODE, c.own, 0, []), {c.local}));
  }

  /** Only the waiter an acknowledgement is meant for takes its incarnation. */
  lemma NotifyKeeps(p: Proc, key: Key, inc: int)
    requires Linked(p)
    ensures var ws := Notify(p, key, inc);
      && ws.Keys == p.waiters.Keys
      && forall w :: w in ws ==>
           && ws[w].seqNum == p.waiters[w].seqNum && ws[w].target == p.waiters[w].target
           && (ws[w].received == p.waiters[w].received || (ws[w].received == Some(inc) && ws[w].target == key.node && ws[w].seqNum == key.seqNum))
  {
  }

  lemma HandleLinked(cfg: Config, p: Proc, a: Action)
    requires a.Receive? && ReceiveEnabled(p, a) && Linked(p)
    ensures Linked(Handle(cfg, p, a))
  {
    hide ProcessUpdates, HandleJoin, HandleJoinResponse, HandleAlive, ProcessSuspicion, Touch, ClearSuspect, HandleLeave,
      Reported, HandleHeartbeat, HandleConfirm, SignalDirect, SignalIndirect, Notify;
    var p' := Handle(cfg, p, a);
    if a.msg.kind.Ack? {
      NotifyKeeps(p, Key(a.msg.seqNum, a.msg.sender), a.msg.inc);
    } else if a.msg.kind.IndirectPing? {
    } else {
      assert p'.waiters == p.waiters && p'.handles == p.handles;
    }
  }

  /** Every step keeps the handles linked to their waiters. */
  lemma ActLinked(cfg: Config, p: Proc, a: Action)
    requires Enabled(cfg, p, a) && Linked(p)
    ensures Linked(Act(cfg, p, a))
  {
    hide Handle, Check, GossipCheck, GossipRound, DeclareSuspicion, RunTask;
    if a.Receive? {
      HandleLinked(cfg, p, a);
    }
  }

  lemma HandleRestCovered(cfg: Config, cap: Cap, p: Proc, a: Action)
    requires a.Receive? && ReceiveEnabled(p, a) && ProcCovered(cap, p) && Linked(p) && MsgCovered(cap, a.msg)
    ensures var p' := Handle(cfg, p, a);
      CoreCovered(cap, p'.core) ==> ProcCovered(cap, p')
  {
    hide ProcessUpdates, HandleJoin, HandleJoinResponse, HandleAlive, ProcessSuspicion, Touch, ClearSuspect, HandleLeave,
      Reported, HandleHeartbeat, HandleConfirm, CoreCovered, UpdatesCovered, Notify;
    var p' := Handle(cfg, p, a);
    if a.msg.kind.Ack? {
      NotifyKeeps(p, Key(a.msg.seqNum, a.msg.sender), a.msg.inc);
    } else if a.msg.kind.IndirectPing? {
    } else {
      assert p'.waiters == p.waiters && p'.phase == p.phase;
    }
  }

  /** The rest of the process: probes, waiters and the phase of the ping loop. */
  lemma RestCovered(cfg: Config, cap: Cap, p: Proc, a: Action)
    requires Enabled(cfg, p, a) && ProcCovered(cap, p) && Linked(p)
    requires a.Receive? ==> MsgCovered(cap, a.msg)
    ensures var p' := Act(cfg, p, a);
      CoreCovered(cap, p'.core) ==> ProcCovered(cap, p')
  {
    hide Handle, Check, GossipCheck, GossipRound, DeclareSuspicion, RunTask, Eligible, CoreCovered;
    if a.Receive? {
      HandleRestCovered(cfg, cap, p, a);
    } else if a.Begin? {
      EligibleKnown(cap, p.core, {p.core.local}, [a.target]);
      LiveCovered(cap, p.core, a.now);
      assert a.target in [a.target];
      assert forall u :: u in Act(cfg, p, a).phase.updates ==> u in Live(p.core.log, a.now);
    }
  }

  lemma LiveCovered(cap: Cap, c: Core, now: int)
    requires CoreCovered(cap, c)
    ensures UpdatesCovered(cap, Live(c.log, now))
  {
    LiveSubset(c.log, now);
  }

  /** No step invents an incarnation: after any step but a change of identity, everything the process
      holds or has sent is within `cap`, raised at most to the process's own counter; and the counter
      has grown by at least one, and reaches at most the bound plus one, for each refutation. */
  lemma ActAdvances(cfg: Config, cap: Cap, p: Proc, a: Action)
    requires Enabled(cfg, p, a) && !a.Reidentify?
    requires ProcCovered(cap, p) && Linked(p) && Grounded(cap, p.core)
    requires a.Receive? ==> MsgCovered(cap, a.msg)
    requires a.Callback? ==> ClearsWithin(cap, p.core, a.task)
    requires NoWrap(cap, p.core, Act(cfg, p, a).core)
    ensures var p' := Act(cfg, p, a);
      Advances(cap, p.core, p'.core) && ProcCovered(Raise(cap, p'.core), p')
  {
    hide Act, CoreCovered;
    CoreAdvances(cfg, cap, p, a);
    var cap' := Raise(cap, Act(cfg, p, a).core);
    CoveredBelow(cap, cap', p);
    if a.Receive? {
      MsgCoveredBelow(cap, cap', a.msg);
    }
    RestCovered(cfg, cap', p, a);
  }

  lemma MsgCoveredBelow(cap: Cap, cap': Cap, msg: Message)
    requires MsgCovered(cap, msg) && Below(cap, cap')
    ensures MsgCovered(cap', msg)
  {
  }

  /** A change of identity claims the process's counter for the new identity. */
  lemma ReidentifyCovered(cap: Cap, cap': Cap, p: Proc, id: NodeID, dest: Addr, now: int)
    requires ProcCovered(cap, p) && Below(cap, cap') && Covered(cap', id, p.core.own)
    ensures ProcCovered(cap', p.(core := Rejoin(p.core, id, dest, now)))
  {
    CoveredBelow(cap, cap', p);
  }
}
