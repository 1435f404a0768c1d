/** How high incarnations can get, over every run of the cluster. */
module Incarnations {
  import opened Types
  import opened SuspicionSpec
  import opened UpdateLogSpec
  import opened DetectorSpec
  import opened PingAckSpec
  import opened GossipSpec
  import opened CallbackSpec
  import opened Cluster
  import opened Claims

  // ----- refutations are only ever added

  lemma {:induction false} JoinResponseKeeps(c: Core, us: seq<Update>, now: int)
    ensures SameCounters(c, AbsorbAll(c, us, now))
  {
    if us != [] {
      JoinResponseKeeps(c, us[..|us| - 1], now);
    }
  }

  lemma {:induction false} ClearAllKeeps(c: Core, us: seq<Update>)
    ensures SameCounters(c, ClearAll(c, us))
  {
    if us != [] {
      ClearAllKeeps(c, us[..|us| - 1]);
    }
  }

  lemma HandleRefutes(cfg: Config, p: Proc, a: Action)
    requires a.Receive? && ReceiveEnabled(p, a)
    ensures Grows(p.core, Handle(cfg, p, a).core)
  {
    hide ProcessUpdates, ProcessSuspicion, AbsorbAll, ClearAll, Clears, Touch, ClearSuspect, PutLogged, Reported,
      ReceiveEnabled, Displaced, JoinedTable, FailedRecords, Listing, Live, Notify, SignalDirect, SignalIndirect;
    var c, msg, now := p.core, a.msg, a.now;
    TouchKeeps(c, msg.sender, msg.inc, now);
    match msg.kind
    case Heartbeat => ProcessUpdatesRefute(Touch(c, msg.sender, msg.inc, now), cfg.opts, a.susp, msg.members, msg.sender, now);
    case Ping =>
      var c1 := Send(c, Message(Ack, c.local, msg.sender, c.own, msg.seqNum, []), msg.sender.Address());
      TouchKeeps(c1, msg.sender, msg.inc, now);
      ProcessUpdatesRefute(Touch(c1, msg.sender, msg.inc, now), cfg.opts, a.susp, msg.members, msg.sender, now);
    case Ack => ClearKeeps(Touch(c, msg.sender, msg.inc, now), msg.sender, msg.inc);
    case IndirectPing => ProcessUpdatesRefute(Refresh(c, msg.sender, msg.inc, now), cfg.opts, a.susp, msg.members, msg.sender, now);
    case IndirectAck => ClearKeeps(Reported(c, msg.target, msg.inc, now), msg.target, msg.inc);
      ReportedKeeps(c, msg.target, msg.inc, now);
    case JoinResponse =>
      JoinResponseKeeps(c, msg.members, now);
      ClearAllKeeps(AbsorbAll(c, msg.members, now), Clears(c, msg.members, now));
    case Suspect => ProcessSuspicionRefutes(c, cfg.opts, msg.sender, msg.target, msg.inc, now);
    case AliveMsg => HandleAliveKeeps(c, msg.sender, msg.inc, now);
    case Confirm => HandleConfirmKeeps(c, msg.target, msg.inc, now);
    case _ =>
  }

  ghost predicate SameCounters(c: Core, c': Core) {
    c'.refutations == c.refutations && c'.local == c.local && c'.out == c.out
  }

  lemma TouchKeeps(c: Core, sender: NodeID, inc: int, now: int)
    ensures SameCounters(c, Touch(c, sender, inc, now))
  {
  }

  lemma ClearKeeps(c: Core, target: NodeID, inc: int)
    ensures SameCounters(c, ClearSuspect(c, target, inc))
  {
  }

  lemma ReportedKeeps(c: Core, target: NodeID, inc: int, now: int)
    ensures SameCounters(c, Reported(c, target, inc, now))
  {
  }

  lemma HandleAliveKeeps(c: Core, sender: NodeID, inc: int, now: int)
    ensures SameCounters(c, HandleAlive(c, sender, inc, now))
  {
  }

  lemma HandleConfirmKeeps(c: Core, target: NodeID, inc: int, now: int)
    ensures SameCounters(c, HandleConfirm(c, target, inc, now))
  {
  }

  lemma DeclareRefutes(c: Core, o: Options, susp: bool, id: NodeID, now: int)
    ensures Onward(c, DeclareSuspicion(c, o, susp, id, now))
  {
    if susp {
      var c1 :=
        if id !in c.table then PutLogged(c, id, Rec(0, Suspected, At(now), At(now)), now)
        else if !c.table[id].status.Suspected? then
          PutLogged(c, id, c.table[id].(status := Suspected, since := At(now)), now)
        else c;
      ProcessSuspicionRefutes(c1, o, c.local, id, c1.table[id].inc, now);
    }
  }

  lemma ActRefutes(cfg: Config, p: Proc, a: Action)
    requires Enabled(cfg, p, a)
    ensures var p' := Act(cfg, p, a);
      && p.core.refutations <= p'.core.refutations && p.core.out <= p'.core.out
      && (!a.Reidentify? ==> p'.core.local == p.core.local)
  {
    hide Handle, DeclareSuspicion, ReportSilent, ReceiveEnabled;
    var c := p.core;
    match a
    case Receive(_, _, _, _, _, _) => HandleRefutes(cfg, p, a);
    case NoDirectAck(susp, helpers, now) => DeclareRefutes(c, cfg.opts, susp, p.phase.target, now);
    case NoIndirectAck(susp, now) => DeclareRefutes(c, cfg.opts, susp, p.phase.target, now);
    case GossipTick(susp, now, silent, removed) =>
      ReportSilentRefute(Swept(c, cfg.ts, susp, now), cfg.opts, silent, c.table, now);
    case _ =>
  }

  // ----- the cluster-wide ceiling

  /** The largest counter of any process ever started. */
  ghost function Peak(procs: map<nat, Proc>): (m: int)
    ensures forall i :: i in procs ==> procs[i].core.own <= m
    ensures if procs == map[] then m == 0 else exists i :: i in procs && procs[i].core.own == m
  {
    if procs == map[] then 0
    else
      var i :| i in procs;
      var rest := procs - {i};
      var m := Peak(rest);
      assert forall k :: k in procs ==> k == i || (k in rest && rest[k] == procs[k]);
      if rest == map[] then procs[i].core.own
      else
        var j :| j in rest && rest[j].core.own == m;
        assert j in procs && procs[j].core.own == m;
        Max(procs[i].core.own, m)
  }

  /** The same bound for every identity ever given out. */
  ghost function Flat(s: State): Cap {
    map id | id in s.owner :: Peak(s.procs)
  }

  /** Everything `p` holds or has sent is within `cap`, its own counter included. */
  ghost predicate Sound(cap: Cap, p: Proc) {
    ProcCovered(cap, p) && Grounded(cap, p.core) && Linked(p)
  }

  /** Every incarnation held or sent by any process is at most the largest counter, and that is at
      most the number of refutations made so far. */
  ghost predicate BelowCeiling(s: State) {
    && 0 <= Peak(s.procs) <= s.refutations
    && forall i :: i in s.procs ==> Sound(Flat(s), s.procs[i])
  }

  lemma StartCovered(cap: Cap, id: NodeID, now: int)
    requires id in cap && forall k :: k in cap ==> 0 <= cap[k]
    ensures Sound(cap, Boot(id, now))
  {
  }

  lemma SoundBelow(cap: Cap, cap': Cap, p: Proc)
    requires Sound(cap, p) && Below(cap, cap') && forall k :: k in cap' ==> 0 <= cap'[k]
    ensures Sound(cap', p)
  {
    CoveredBelow(cap, cap', p);
  }

  /** How far one step moves the counter of a process. */
  predicate Moves(cap: Cap, c: Core, c': Core)
    requires c.local in cap
  {
    && c'.local == c.local && c.refutations <= c'.refutations
    && c.own + Refuted(c, c') <= c'.own <= cap[c.local] + Refuted(c, c')
  }

  /** One step of one process, as the cluster sees it. */
  lemma ActSound(cfg: Config, cap: Cap, p: Proc, a: Action)
    requires Enabled(cfg, p, a) && !a.Reidentify? && Sound(cap, p)
    requires a.Receive? ==> MsgCovered(cap, a.msg)
    requires a.Callback? ==> ClearsWithin(cap, p.core, a.task)
    requires NoWrap(cap, p.core, Act(cfg, p, a).core)
    ensures var p' := Act(cfg, p, a);
      0 <= p.core.own && Moves(cap, p.core, p'.core) && Sound(Raise(cap, p'.core), p')
  {
    hide Act, ProcCovered, Linked, Enabled, CoreCovered, MsgCovered;
    ActAdvances(cfg, cap, p, a);
    ActLinked(cfg, p, a);
  }

  /** A change of identity. */
  lemma ReidentifySound(cap: Cap, cap': Cap, p: Proc, id: NodeID, dest: Addr, now: int)
    requires Sound(cap, p) && Below(cap, cap') && Covered(cap', id, p.core.own)
    requires forall k :: k in cap' ==> 0 <= cap'[k]
    ensures var c' := Rejoin(p.core, id, dest, now);
      && Sound(cap', p.(core := c'))
      && c'.local == id && 0 <= c'.own == p.core.own && c'.refutations == p.core.refutations
  {
    ReidentifyCovered(cap, cap', p, id, dest, now);
  }

  /** The processes that do not take part in a step. */
  lemma OthersCovered(cap: Cap, cap': Cap, procs: map<nat, Proc>, i: nat)
    requires Below(cap, cap') && forall k :: k in cap' ==> 0 <= cap'[k]
    requires forall j :: j in procs ==> Sound(cap, procs[j])
    ensures forall j :: j in procs && j != i ==> Sound(cap', procs[j])
  {
    hide Sound;
    forall j | j in procs && j != i ensures Sound(cap', procs[j]) {
      SoundBelow(cap, cap', procs[j]);
    }
  }

  lemma PeakAfter(procs: map<nat, Proc>, i: nat, p: Proc)
    requires i in procs ==> procs[i].core.own <= p.core.own
    requires 0 <= p.core.own
    ensures Peak(procs[i := p]) == (if procs == map[] then p.core.own else Max(Peak(procs), p.core.own))
  {
    var procs' := procs[i := p];
    assert procs'[i] == p;
    if procs != map[] {
      var j :| j in procs && procs[j].core.own == Peak(procs);
      assert procs'[j].core.own >= procs[j].core.own;
    }
    var j' :| j' in procs' && procs'[j'].core.own == Peak(procs');
  }

  lemma FlatGrows(s: State, s': State)
    requires 0 <= Peak(s.procs) <= Peak(s'.procs) && s.owner.Keys <= s'.owner.Keys
    ensures Below(Flat(s), Flat(s'))
    ensures forall k :: k in Flat(s') ==> 0 <= Flat(s')[k]
  {
  }

  /** One process moved on, the others did not. */
  lemma CeilingKept(s: State, s': State, i: nat, p': Proc)
    requires BelowCeiling(s)
    requires s'.procs == s.procs[i := p'] && s.owner.Keys <= s'.owner.Keys && s.refutations <= s'.refutations
    requires i in s.procs ==> s.procs[i].core.own <= p'.core.own
    requires 0 <= p'.core.own <= s'.refutations
    requires Sound(Flat(s'), p')
    ensures BelowCeiling(s')
  {
    hide Sound, Peak;
    PeakAfter(s.procs, i, p');
    FlatGrows(s, s');
    OthersCovered(Flat(s), Flat(s'), s.procs, i);
  }

  lemma CeilingDo(cfg: Config, s: State, i: nat, a: Action)
    requires BelowCeiling(s) && Guard(cfg, s, Do(i, a)) && !a.Reidentify?
    requires After(cfg, s, Do(i, a)).refutations <= MAX_INT32
    ensures BelowCeiling(After(cfg, s, Do(i, a)))
  {
    hide Sound, Act, Enabled, ClearsWithin, MsgCovered, InFlight, Peak;
    var s' := After(cfg, s, Do(i, a));
    var p, p' := s.procs[i], s'.procs[i];
    var cap := Flat(s);
    assert Sound(cap, p);
    ActRefutes(cfg, p, a);
    DeliveredCovered(cfg, cap, s, i, a);
    FlatGrounds(cap, p, Peak(s.procs), a);
    ActSound(cfg, cap, p, a);
    PeakAfter(s.procs, i, p');
    FlatGrows(s, s');
    SoundBelow(Raise(cap, p'.core), Flat(s'), p');
    CeilingKept(s, s', i, p');
  }

  lemma FlatGrounds(cap: Cap, p: Proc, m: int, a: Action)
    requires Sound(cap, p)
    requires forall id :: id in cap ==> cap[id] == m
    ensures p.core.local in cap && 0 <= p.core.own <= m
    ensures a.Callback? && a.task in p.core.tasks ==> ClearsWithin(cap, p.core, a.task)
  {
    if a.Callback? && a.task in p.core.tasks {
      assert Covered(cap, a.task.target, a.task.inc);
    }
  }

  /** A packet in flight was sent, so its claims are covered. */
  lemma DeliveredCovered(cfg: Config, cap: Cap, s: State, i: nat, a: Action)
    requires Guard(cfg, s, Do(i, a))
    requires forall j :: j in s.procs ==> Sound(cap, s.procs[j])
    ensures a.Receive? ==> MsgCovered(cap, a.msg)
    ensures a.Callback? ==> a.task in s.procs[i].core.tasks
  {
    if a.Receive? {
      var pk := Packet(a.msg, s.procs[i].core.local.Address());
      var q :| q in s.procs && pk in s.procs[q].core.out;
      assert MsgCovered(cap, pk.msg);
    }
  }

  lemma ReidentifyKeeps(cap: Cap, p: Proc, id: NodeID, dest: Addr, now: int)
    requires Sound(cap, p)
    ensures var c' := Rejoin(p.core, id, dest, now);
      c'.local == id && 0 <= c'.own == p.core.own && c'.refutations == p.core.refutations
  {
  }

  lemma CeilingReidentify(cfg: Config, s: State, i: nat, a: Action)
    requires BelowCeiling(s) && Guard(cfg, s, Do(i, a)) && a.Reidentify?
    ensures BelowCeiling(After(cfg, s, Do(i, a)))
  {
    hide Act, Enabled, Sound, InFlight, Rejoin, Peak;
    var s' := After(cfg, s, Do(i, a));
    var p := s.procs[i];
    ReidentifyActs(cfg, p, a);
    assert Sound(Flat(s), p);
    ReidentifyKeeps(Flat(s), p, a.id, a.dest, a.now);
    PeakAfter(s.procs, i, s'.procs[i]);
    FlatGrows(s, s');
    ReidentifySound(Flat(s), Flat(s'), p, a.id, a.dest, a.now);
    CeilingKept(s, s', i, s'.procs[i]);
  }

  lemma CeilingStart(s: State, s': State, i: nat, id: NodeID, now: int)
    requires BelowCeiling(s) && i !in s.procs
    requires s' == s.(procs := s.procs[i := Boot(id, now)], owner := s.owner[id := i])
    ensures BelowCeiling(s')
  {
    hide Sound, Peak;
    PeakAfter(s.procs, i, s'.procs[i]);
    FlatGrows(s, s');
    StartCovered(Flat(s'), id, now);
    CeilingKept(s, s', i, s'.procs[i]);
  }

  lemma CeilingStep(cfg: Config, s: State, st: Step)
    requires BelowCeiling(s) && Guard(cfg, s, st)
    requires After(cfg, s, st).refutations <= MAX_INT32
    ensures BelowCeiling(After(cfg, s, st))
  {
    hide Act, Enabled, BelowCeiling;
    match st
    case Start(i, id, now) => CeilingStart(s, After(cfg, s, st), i, id, now);
    case Do(i, a) =>
      if a.Reidentify? {
        CeilingReidentify(cfg, s, i, a);
      } else {
        CeilingDo(cfg, s, i, a);
      }
  }

  lemma RefutationsGrow(cfg: Config, s: State, st: Step)
    requires Guard(cfg, s, st)
    ensures s.refutations <= After(cfg, s, st).refutations
    ensures forall i :: i in s.procs ==>
      i in After(cfg, s, st).procs && s.procs[i].core.refutations <= After(cfg, s, st).procs[i].core.refutations
  {
    if st.Do? {
      ActRefutes(cfg, s.procs[st.i], st.a);
    }
  }

  /** In every reachable state every incarnation anywhere (tables, update logs, suspicion entries, proxy
      waiters, pending callbacks, packets) is at most the largest own counter, which is at most the
      number of self-refutations so far. */
  lemma {:induction false} Ceiling(cfg: Config, states: seq<State>, steps: seq<Step>)
    requires Run(cfg, states, steps)
    requires states[|steps|].refutations <= MAX_INT32
    ensures BelowCeiling(states[|steps|])
    decreases |steps|
  {
    if steps != [] {
      var n := |steps| - 1;
      RunPrefix(cfg, states, steps);
      RefutationsGrow(cfg, states[n], steps[n]);
      Ceiling(cfg, states[..n + 1], steps[..n]);
      CeilingStep(cfg, states[n], steps[n]);
    }
  }

  /** So no counter wraps before 2^31 - 1 refutations have been made: each refutation still
      moves its process's counter up. */
  lemma NoOverflow(cfg: Config, states: seq<State>, steps: seq<Step>, i: nat, inc: int)
    requires Run(cfg, states, steps)
    requires states[|steps|].refutations < MAX_INT32
    requires i in states[|steps|].procs
    requires inc <= Peak(states[|steps|].procs)
    ensures var c := states[|steps|].procs[i].core;
      RefutingInc(c.own, inc) == Max(c.own, inc) + 1 <= MAX_INT32
  {
    hide Run, Sound, Peak;
    Ceiling(cfg, states, steps);
  }

  /** At the end of the 32-bit range, and only there, a refutation fails: it wraps to the lowest value. */
  lemma WrapsExactly(own: int, inc: int)
    requires MIN_INT32 <= own <= MAX_INT32 && MIN_INT32 <= inc <= MAX_INT32
    ensures own < 2_147_483_647 && inc < 2_147_483_647 <==> RefutingInc(own, inc) > own && RefutingInc(own, inc) > inc
    ensures own == 2_147_483_647 || inc == 2_147_483_647 ==> RefutingInc(own, inc) == -2_147_483_648
  {
  }

  // ----- the bound per owner

  ghost predicate OwnersRun(s: State) {
    forall id :: id in s.owner ==> s.owner[id] in s.procs
  }

  /** The counter of the process behind each identity. */
  ghost function OwnerCap(s: State): Cap
    requires OwnersRun(s)
  {
    map id | id in s.owner :: s.procs[s.owner[id]].core.own
  }

  /** The identity of process `i` is its own, and its counter counts its refutations. */
  predicate Registered(owner: map<NodeID, nat>, i: nat, c: Core) {
    c.local in owner && owner[c.local] == i && c.own == c.refutations
  }

  /** Nothing attributes to a node an incarnation above the counter of its process, and that counter is
      the number of refutations the process has made. */
  ghost predicate BelowOwners(s: State) {
    && OwnersRun(s)
    && (forall i :: i in s.procs ==> Registered(s.owner, i, s.procs[i].core))
    && forall i :: i in s.procs ==> Sound(OwnerCap(s), s.procs[i])
  }

  /** An OnClear callback that signs no incarnation above the local counter, or reaches nobody. */
  predicate HonestClear(c: Core, task: Task) {
    task.OnClear? && task.inc > c.own ==> ClearAudience(c, task.target) == {}
  }

  ghost predicate HonestStep(s: State, st: Step) {
    st.Do? && st.a.Callback? && st.i in s.procs ==> HonestClear(s.procs[st.i].core, st.a.task)
  }

  ghost predicate CountersFit(s: State) {
    forall i :: i in s.procs ==> s.procs[i].core.refutations <= MAX_INT32
  }

  lemma OwnerCapGrows(s: State, s': State, i: nat, p': Proc)
    requires BelowOwners(s)
    requires s'.procs == s.procs[i := p']
    requires forall id :: id in s.owner ==> id in s'.owner && s'.owner[id] == s.owner[id]
    requires forall id :: id in s'.owner ==> id in s.owner || s'.owner[id] == i
    requires i in s.procs ==> s.procs[i].core.own <= p'.core.own
    requires 0 <= p'.core.own && OwnersRun(s')
    ensures Below(OwnerCap(s), OwnerCap(s'))
    ensures forall k :: k in OwnerCap(s') ==> 0 <= OwnerCap(s')[k]
  {
  }

  /** One process moved on, the others did not. */
  lemma OwnersKept(s: State, s': State, i: nat, p': Proc)
    requires BelowOwners(s)
    requires s'.procs == s.procs[i := p']
    requires forall id :: id in s.owner ==> id in s'.owner && s'.owner[id] == s.owner[id]
    requires forall id :: id in s'.owner ==> id in s.owner || s'.owner[id] == i
    requires Registered(s'.owner, i, p'.core)
    requires i in s.procs ==> s.procs[i].core.own <= p'.core.own
    requires OwnersRun(s') && Sound(OwnerCap(s'), p')
    ensures BelowOwners(s')
  {
    hide Sound, OwnerCap;
    assert 0 <= p'.core.own by {
      OwnNonNegative(OwnerCap(s'), p');
    }
    OwnerCapGrows(s, s', i, p');
    OthersCovered(OwnerCap(s), OwnerCap(s'), s.procs, i);
  }

  lemma OwnNonNegative(cap: Cap, p: Proc)
    requires Sound(cap, p)
    ensures 0 <= p.core.own
  {
  }

  lemma OwnersDo(cfg: Config, s: State, i: nat, a: Action)
    requires BelowOwners(s) && Guard(cfg, s, Do(i, a)) && !a.Reidentify?
    requires HonestStep(s, Do(i, a)) && CountersFit(After(cfg, s, Do(i, a)))
    ensures BelowOwners(After(cfg, s, Do(i, a)))
  {
    hide Sound, Act, Enabled, MsgCovered, InFlight;
    var s' := After(cfg, s, Do(i, a));
    var p, p' := s.procs[i], s'.procs[i];
    var cap := OwnerCap(s);
    ActRefutes(cfg, p, a);
    DeliveredCovered(cfg, cap, s, i, a);
    ActSound(cfg, cap, p, a);
    OwnerCapGrows(s, s', i, p');
    SoundBelow(Raise(cap, p'.core), OwnerCap(s'), p');
    OwnersKept(s, s', i, p');
  }

  lemma OwnersReidentify(cfg: Config, s: State, i: nat, a: Action)
    requires BelowOwners(s) && Guard(cfg, s, Do(i, a)) && a.Reidentify?
    ensures BelowOwners(After(cfg, s, Do(i, a)))
  {
    hide Act, Enabled, Sound, InFlight, Rejoin;
    var s' := After(cfg, s, Do(i, a));
    var p := s.procs[i];
    ReidentifyActs(cfg, p, a);
    ReidentifyKeeps(OwnerCap(s), p, a.id, a.dest, a.now);
    OwnerCapGrows(s, s', i, s'.procs[i]);
    ReidentifySound(OwnerCap(s), OwnerCap(s'), p, a.id, a.dest, a.now);
    OwnersKept(s, s', i, s'.procs[i]);
  }

  lemma OwnersStart(s: State, s': State, i: nat, id: NodeID, now: int)
    requires BelowOwners(s) && i !in s.procs && id !in s.owner
    requires s' == s.(procs := s.procs[i := Boot(id, now)], owner := s.owner[id := i])
    ensures BelowOwners(s')
  {
    hide Sound;
    OwnerCapGrows(s, s', i, s'.procs[i]);
    StartCovered(OwnerCap(s'), id, now);
    OwnersKept(s, s', i, s'.procs[i]);
  }

  lemma OwnersStep(cfg: Config, s: State, st: Step)
    requires BelowOwners(s) && Guard(cfg, s, st)
    requires HonestStep(s, st) && CountersFit(After(cfg, s, st))
    ensures BelowOwners(After(cfg, s, st))
  {
    hide Act, Enabled, BelowOwners;
    match st
    case Start(i, id, now) => OwnersStart(s, After(cfg, s, st), i, id, now);
    case Do(i, a) =>
      if a.Reidentify? {
        OwnersReidentify(cfg, s, i, a);
      } else {
        OwnersDo(cfg, s, i, a);
      }
  }

  /** In a run whose OnClear callbacks are all honest, nothing attributes to a node more than its own
      process's counter, and that counter is the number of refutations the process has made. */
  lemma {:induction false} OwnerBound(cfg: Config, states: seq<State>, steps: seq<Step>)
    requires Run(cfg, states, steps)
    requires forall j :: 0 <= j < |steps| ==> HonestStep(states[j], steps[j])
    requires CountersFit(states[|steps|])
    ensures BelowOwners(states[|steps|])
    decreases |steps|
  {
    if steps != [] {
      var n := |steps| - 1;
      RunPrefix(cfg, states, steps);
      RefutationsGrow(cfg, states[n], steps[n]);
      OwnerBound(cfg, states[..n + 1], steps[..n]);
      OwnersStep(cfg, states[n], steps[n]);
    }
  }

  /** The branch of handleSelfRefutation for an incoming incarnation above the counter is then never
      taken: whatever is in flight about a running process is at most its counter. */
  lemma NoIncomingAbove(s: State, pk: Packet, i: nat, u: Update)
    requires BelowOwners(s) && InFlight(s, pk) && i in s.procs
    ensures Subject(pk.msg) == s.procs[i].core.local ==> pk.msg.inc <= s.procs[i].core.own
    ensures u in pk.msg.members && u.id == s.procs[i].core.local ==> u.inc <= s.procs[i].core.own
  {
    var q :| q in s.procs && pk in s.procs[q].core.out;
    assert MsgCovered(OwnerCap(s), pk.msg);
  }

  /** What an OnClear callback signs in the name of the process that runs it. */
  lemma ClearSigns(c: Core, task: Task, now: int, k: NodeID)
    requires task.OnClear? && k in ClearAudience(c, task.target)
    ensures Packet(AliveMessage(c.local, task.inc), k.Address()) in RunTask(c, task, now).out
    ensures RunTask(c, task, now).own == c.own
  {
    assert k in ClearedTable(c, task.target, task.inc, now);
  }

  /** The condition is exact: an OnClear callback keeps the bound if and only if it is honest. */
  lemma DishonestClearBreaks(cfg: Config, s: State, i: nat, task: Task, now: int)
    requires BelowOwners(s) && Guard(cfg, s, Do(i, Callback(task, now))) && task.OnClear?
    requires CountersFit(s)
    ensures BelowOwners(After(cfg, s, Do(i, Callback(task, now)))) <==> HonestClear(s.procs[i].core, task)
  {
    hide Act, Enabled, RunTask, CoreCovered, ProcCovered, InFlight;
    var st := Do(i, Callback(task, now));
    var c := s.procs[i].core;
    var s' := After(cfg, s, st);
    CallbackActs(cfg, s.procs[i], st.a);
    if HonestClear(c, task) {
      OwnersStep(cfg, s, st);
    } else {
      var k :| k in ClearAudience(c, task.target);
      ClearSigns(c, task, now, k);
      NotBelow(s, s', i, Packet(AliveMessage(c.local, task.inc), k.Address()));
    }
  }

  lemma NotBelow(s: State, s': State, i: nat, pk: Packet)
    requires i in s.procs && s.procs[i].core.local in s.owner && s.owner[s.procs[i].core.local] == i
    requires s'.owner == s.owner && i in s'.procs && pk in s'.procs[i].core.out
    requires Subject(pk.msg) == s.procs[i].core.local && pk.msg.inc > s'.procs[i].core.own
    ensures !BelowOwners(s')
  {
  }
}
