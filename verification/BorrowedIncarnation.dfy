/** A run of two processes with the ping/ack detector. In its first ten steps a refutation travels from the
    suspected process to the one that suspects it. In its last, a process signs an incarnation that is not
    its own, which is why the bound per owner (Incarnations.OwnerBound) needs its condition. */
module BorrowedIncarnation {
  import opened Types
  import opened SuspicionSpec
  import opened UpdateLogSpec
  import opened DetectorSpec
  import opened PingAckSpec
  import opened CallbackSpec
  import opened Cluster
  import opened Claims
  import opened Incarnations
  import opened Refutation

  const B := NodeID("10.0.0.1", 8080, 1)
  const X := NodeID("10.0.0.2", 8080, 1)
  /** The identity under which X comes back. */
  const X2 := NodeID("10.0.0.2", 8080, 2)

  const HOME := Rec(0, Alive, At(0), Zero)
  const SEEN := Update(X, 0, Alive, 0)
  const DOUBTED := Update(X, 0, Suspected, 0)

  function JoinMessage(id: NodeID, inc: int): Message {
    Message(Join, id, NO_NODE, inc, 0, [])
  }

  const PING := Message(Ping, B, X, 0, 2, [SEEN, DOUBTED, SEEN])

  function DeliverAt(now: int, msg: Message, displaced: seq<NodeID>, listing: seq<NodeID>): Action {
    Receive(msg, true, now, displaced, listing, 0)
  }

  function Deliver(msg: Message, displaced: seq<NodeID>, listing: seq<NodeID>): Action {
    DeliverAt(0, msg, displaced, listing)
  }

  /** The callback that the first suspicion launches when one report is enough. */
  const LATE_SUSPECT := OnSuspect(X, 0, {B})

  /** B has never refuted anything. */
  predicate IsB(c: Core) {
    c.local == B && c.own == 0 && c.refutations == 0
  }

  /** B knows itself and X, at incarnation 0. */
  predicate Introduced(p: Proc) {
    && IsB(p.core)
    && p.core.table == map[B := HOME, X := HOME]
    && p.phase.Idle?
  }

  // ----- B's steps

  lemma Introduces(cfg: Config, p: Proc)
    requires IsB(p.core) && p.phase.Idle?
    requires B in p.core.table && p.core.table[B] == HOME && p.core.table.Keys <= {B, X}
    ensures var a := Deliver(JoinMessage(X, 0), [], [B, X]);
      && Enabled(cfg, p, a)
      && Introduced(Act(cfg, p, a))
      && Act(cfg, p, a).core.log == p.core.log + [SEEN] && Act(cfg, p, a).core.entries == p.core.entries
      && Act(cfg, p, a).core.tasks == p.core.tasks
      && Act(cfg, p, a).seqNum == p.seqNum
  {
    hide Listing;
    assert Displaced(p.core.table, X) == {};
    assert JoinedTable(p.core, X, 0, 0) == map[B := HOME, X := HOME];
    assert FailedRecords([], p.core.table, 0) == [];
  }

  lemma Probes(cfg: Config, p: Proc)
    requires Introduced(p) && Live(p.core.log, 0) == p.core.log
    ensures Enabled(cfg, p, Begin(X, 0))
    ensures var p' := Act(cfg, p, Begin(X, 0));
      && p'.phase == Direct(X, p.seqNum + 1, Prefix(p.core.log, 5)) && p'.seqNum == p.seqNum + 1
      && p'.core == p.core.(out := p.core.out + {Packet(Message(Ping, B, X, 0, p.seqNum + 1, Prefix(p.core.log, 5)), X.Address())})
  {
    hide Live, Prefix;
    assert EligibleSet(p.core.table, B, {B}) == {X};
  }

  /** One report was enough: the suspicion is timed and the callback launched. */
  predicate Alarmed(c: Core) {
    && X in c.entries && c.entries[X].inc == 0 && !c.entries[X].confirmed && c.entries[X].firstReport == At(0)
    && LATE_SUSPECT in c.tasks
  }

  lemma FirstReport(c: Core, o: Options)
    requires IsB(c) && c.entries == map[] && X in c.table
    ensures var c' := ProcessSuspicion(c, o, B, X, c.table[X].inc, 0);
      && IsB(c') && c'.table.Keys == c.table.Keys && (B in c.table ==> c'.table[B] == c.table[B]) && c'.log == c.log
      && (c.table[X].inc == 0 ==> c'.table[X].inc == 0)
      && c'.entries.Keys == {X} && c'.entries[X].inc == c.table[X].inc
      && (c.table[X].inc == 0 && o.requireReports <= 1 ==> Alarmed(c'))
  {
    hide AddReport;
    OneReporter(o, c.table[X].inc);
  }

  lemma OneReporter(o: Options, inc: int)
    ensures var e := AddReport(NewEntry(inc), o, B, 0);
      && e.inc == inc && !e.confirmed && e.reporters.Keys == {B}
      && (o.requireReports <= 1 ==> Fires(NewEntry(inc), o, B, 0) && e.firstReport == At(0))
  {
    var m: map<NodeID, int> := map[];
    assert m[B := 0] == map[B := 0] && |map[B := 0]| == 1;
  }

  /** With nobody to ask, the period ends in a suspicion. */
  lemma Doubts(cfg: Config, p: Proc)
    requires IsB(p.core) && p.core.table == map[B := HOME, X := HOME]
    requires p.phase.Direct? && p.phase.target == X && p.core.entries == map[]
    ensures Enabled(cfg, p, NoDirectAck(true, [], 0))
    ensures var p' := Act(cfg, p, NoDirectAck(true, [], 0));
      && IsB(p'.core) && p'.phase.Idle? && p'.seqNum == p.seqNum
      && p'.core.table.Keys == {B, X} && p'.core.table[B] == HOME
      && p'.core.log == p.core.log + [DOUBTED]
      && p'.core.entries.Keys == {X} && p'.core.entries[X].inc == 0
      && (cfg.opts.requireReports <= 1 ==> Alarmed(p'.core))
  {
    hide ProcessSuspicion, Alarmed;
    assert EligibleSet(p.core.table, B, {B, X}) == {};
    FirstReport(PutLogged(p.core, X, HOME.(status := Suspected, since := At(0)), 0), cfg.opts);
  }

  /** X's refutation reaches B while the entry is still there. */
  lemma HearsRefutation(cfg: Config, p: Proc, now: int)
    requires IsB(p.core) && p.core.table.Keys == {B, X} && p.core.table[B] == HOME && p.core.table[X].inc == 0
    requires p.core.entries.Keys == {X} && p.core.entries[X].inc == 0
    ensures var a := DeliverAt(now, AliveMessage(X, 1), [], []);
      && Enabled(cfg, p, a)
      && IsB(Act(cfg, p, a).core)
      && Act(cfg, p, a).core.table.Keys == {B, X}
      && Act(cfg, p, a).core.table[B] == HOME && Act(cfg, p, a).core.table[X].inc == 1
      && Act(cfg, p, a).core.entries == map[]
      && Act(cfg, p, a).core.tasks == p.core.tasks + multiset{OnClear(X, 1)}
      && Act(cfg, p, a).phase == p.phase
  {
  }

  lemma Readmits(cfg: Config, p: Proc)
    requires IsB(p.core) && p.core.table.Keys == {B, X} && OnClear(X, 1) in p.core.tasks
    ensures var a := Deliver(JoinMessage(X2, 1), [X], [B, X2]);
      && Enabled(cfg, p, a)
      && IsB(Act(cfg, p, a).core)
      && Act(cfg, p, a).core.table.Keys == {B, X2} && Act(cfg, p, a).core.table[X2].inc == 1
      && Act(cfg, p, a).core.entries == p.core.entries
      && OnClear(X, 1) in Act(cfg, p, a).core.tasks
  {
    hide Listing, FailedRecords;
    assert Displaced(p.core.table, X2) == {X};
    assert JoinedTable(p.core, X2, 1, 0).Keys == {B, X2};
  }

  // ----- X's steps

  predicate Newborn(c: Core) {
    && c.local == X && c.own == 0 && c.refutations == 0
    && c.table == map[X := HOME] && c.log == [] && c.entries == map[]
  }

  /** X once it has refuted the suspicion: it has also met B. */
  predicate Refuter(c: Core) {
    && c.own == 1 && c.refutations == 1
    && c.local != B && c.table.Keys == {c.local, B} && c.table[B] == HOME
    && c.log == [Update(B, 0, Alive, 0)] && c.entries == map[]
  }

  lemma Refutes(cfg: Config, p: Proc)
    requires Newborn(p.core)
    ensures var a := Deliver(PING, [], []);
      && Enabled(cfg, p, a)
      && Act(cfg, p, a).core.local == X && Refuter(Act(cfg, p, a).core) && Act(cfg, p, a).phase == p.phase
      && p.core.out <= Act(cfg, p, a).core.out
      && Packet(AliveMessage(X, 1), B.Address()) in Act(cfg, p, a).core.out
  {
    hide ProcessUpdates, Broadcast;
    var c1 := Touch(Send(p.core, Message(Ack, X, B, 0, 2, []), B.Address()), B, 0, 0);
    assert c1.table == map[X := HOME, B := HOME] && c1.log == [Update(B, 0, Alive, 0)];
    Rumours(cfg, c1);
  }

  /** The three rumours about itself that the ping carries: Alive, Suspected, Alive. */
  lemma Rumours(cfg: Config, c: Core)
    requires c.local == X && c.own == 0 && c.table == map[X := HOME, B := HOME] && c.entries == map[]
    ensures var c' := ProcessUpdates(c, cfg.opts, true, [SEEN, DOUBTED, SEEN], B, 0);
      && c' == c.(own := 1, out := c'.out, refutations := c.refutations + 1) && c.out <= c'.out
      && Packet(AliveMessage(X, 1), B.Address()) in c'.out
  {
    hide ProcessUpdate;
    var us := [SEEN, DOUBTED, SEEN];
    assert us[..2] == [SEEN, DOUBTED] && us[..2][..1] == [SEEN] && us[..2][..1][..0] == [];
    var c1 := ProcessUpdate(c, cfg.opts, true, SEEN, B, 0);
    var c2 := ProcessUpdate(c1, cfg.opts, true, DOUBTED, B, 0);
    AliveRumour(cfg, c);
    SuspectRumour(cfg, c1);
    AliveRumour(cfg, c2);
    assert ProcessUpdates(c, cfg.opts, true, [SEEN], B, 0) == c1;
    assert ProcessUpdates(c, cfg.opts, true, [SEEN, DOUBTED], B, 0) == c2;
  }

  lemma AliveRumour(cfg: Config, c: Core)
    requires c.local == X && c.table == map[X := HOME, B := HOME] && c.entries == map[]
    ensures ProcessUpdate(c, cfg.opts, true, SEEN, B, 0) == c
  {
    assert MarkAlive(c.table, X, 0) == c.table;
  }

  lemma SuspectRumour(cfg: Config, c: Core)
    requires c.local == X && c.own == 0 && c.table == map[X := HOME, B := HOME] && c.entries == map[]
    ensures var c' := ProcessUpdate(c, cfg.opts, true, DOUBTED, B, 0);
      && c' == c.(own := 1, out := c'.out, refutations := c.refutations + 1) && c.out <= c'.out
      && Packet(AliveMessage(X, 1), B.Address()) in c'.out
  {
    assert B in c.table && B !in {X};
  }

  // ----- the run

  predicate IsCallback(st: Step) {
    st.Do? && st.a.Callback?
  }

  /** A run without callbacks whose last state is `s`. */
  ghost predicate Reaches(cfg: Config, states: seq<State>, steps: seq<Step>, s: State) {
    && |states| == |steps| + 1 && Run(cfg, states, steps) && states[|steps|] == s
    && forall j :: 0 <= j < |steps| ==> !IsCallback(steps[j])
  }

  lemma EndsIn(cfg: Config, states: seq<State>, steps: seq<Step>, s: State)
    requires Reaches(cfg, states, steps, s)
    ensures |states| == |steps| + 1 && states[|steps|] == s
  {
  }

  lemma Extend(cfg: Config, states: seq<State>, steps: seq<Step>, s: State, st: Step)
    requires Reaches(cfg, states, steps, s) && Guard(cfg, s, st) && !IsCallback(st)
    ensures Reaches(cfg, states + [After(cfg, s, st)], steps + [st], After(cfg, s, st))
  {
    hide Guard, After;
  }

  /** One step of process `i`, seen through its processes. */
  lemma Did(cfg: Config, s: State, i: nat, a: Action)
    requires i in s.procs && Guard(cfg, s, Do(i, a))
    ensures var s' := After(cfg, s, Do(i, a));
      && s'.procs == s.procs[i := Act(cfg, s.procs[i], a)]
      && s'.owner == if a.Reidentify? then s.owner[a.id := i] else s.owner
  {
    hide Act, Enabled;
  }

  /** One more step of process `i`. */
  lemma Takes(cfg: Config, states: seq<State>, steps: seq<Step>, s: State, i: nat, a: Action)
    returns (states': seq<State>, steps': seq<Step>, s': State)
    requires Reaches(cfg, states, steps, s) && i in s.procs && Guard(cfg, s, Do(i, a)) && !a.Callback?
    ensures Reaches(cfg, states', steps', s') && steps' == steps + [Do(i, a)] && states' == states + [s']
    ensures s'.procs == s.procs[i := Act(cfg, s.procs[i], a)]
    ensures s'.owner == if a.Reidentify? then s.owner[a.id := i] else s.owner
  {
    hide Act, Enabled, InFlight;
    Did(cfg, s, i, a);
    Extend(cfg, states, steps, s, Do(i, a));
    s' := After(cfg, s, Do(i, a));
    states', steps' := states + [s'], steps + [Do(i, a)];
  }

  /** X is as it was when it asked to join, and the request is still under way. */
  ghost predicate Waiting(s: State) {
    && s.procs.Keys == {0, 1} && s.owner == map[B := 0, X := 1]
    && Newborn(s.procs[1].core) && s.procs[1].phase.Idle?
    && Packet(JoinMessage(X, 0), B.Address()) in s.procs[1].core.out
  }

  lemma Booted(cfg: Config) returns (states: seq<State>, steps: seq<Step>, s: State)
    ensures Reaches(cfg, states, steps, s) && |steps| == 2
    ensures s.procs == map[0 := Boot(B, 0), 1 := Boot(X, 0)] && s.owner == map[B := 0, X := 1]
  {
    var s1 := After(cfg, EMPTY, Start(0, B, 0));
    Extend(cfg, [EMPTY], [], EMPTY, Start(0, B, 0));
    s := After(cfg, s1, Start(1, X, 0));
    Extend(cfg, [EMPTY] + [s1], [] + [Start(0, B, 0)], s1, Start(1, X, 0));
    states, steps := [EMPTY] + [s1] + [s], [] + [Start(0, B, 0)] + [Start(1, X, 0)];
  }

  lemma Started(cfg: Config) returns (states: seq<State>, steps: seq<Step>, s: State)
    ensures Reaches(cfg, states, steps, s) && Waiting(s) && s.procs[0] == Boot(B, 0) && |steps| == 3
  {
    hide Reaches, Act;
    states, steps, s := Booted(cfg);
    var a := Reidentify(X, B.Address(), 0);
    assert Enabled(cfg, s.procs[1], a);
    hide Enabled;
    ReidentifyActs(cfg, s.procs[1], a);
    states, steps, s := Takes(cfg, states, steps, s, 1, a);
  }

  lemma DoWaiting(cfg: Config, s: State, a: Action)
    requires Waiting(s) && Guard(cfg, s, Do(0, a)) && !a.Reidentify?
    ensures var s' := After(cfg, s, Do(0, a)); Waiting(s') && s'.procs[0] == Act(cfg, s.procs[0], a)
  {
    hide Act, Enabled;
    Did(cfg, s, 0, a);
  }

  lemma JoinDelivered(s: State)
    requires Waiting(s)
    ensures InFlight(s, Packet(JoinMessage(X, 0), B.Address()))
  {
    assert 1 in s.procs;
  }

  /** B has met X, could not reach it, and suspects it. */
  ghost predicate Suspecting(cfg: Config, s: State) {
    && Waiting(s)
    && var p := s.procs[0];
       && IsB(p.core) && p.phase.Idle? && p.seqNum == 1
       && p.core.table.Keys == {B, X} && p.core.table[B] == HOME
       && p.core.log == [SEEN, DOUBTED]
       && p.core.entries.Keys == {X} && p.core.entries[X].inc == 0
       && (cfg.opts.requireReports <= 1 ==> Alarmed(p.core))
  }

  /** B takes a step. */
  lemma BTakes(cfg: Config, states: seq<State>, steps: seq<Step>, s: State, a: Action)
    returns (states': seq<State>, steps': seq<Step>, s': State)
    requires Reaches(cfg, states, steps, s) && Waiting(s) && Enabled(cfg, s.procs[0], a) && !a.Reidentify? && !a.Callback?
    requires a.Receive? ==> InFlight(s, Packet(a.msg, s.procs[0].core.local.Address()))
    ensures Reaches(cfg, states', steps', s') && Waiting(s') && s'.procs[0] == Act(cfg, s.procs[0], a)
    ensures |steps'| == |steps| + 1
  {
    hide Act, Enabled, InFlight, Reaches;
    Guarded(cfg, s, a);
    DoWaiting(cfg, s, a);
    states', steps', s' := Takes(cfg, states, steps, s, 0, a);
  }

  lemma Mistrusts(cfg: Config) returns (states: seq<State>, steps: seq<Step>, s: State)
    ensures Reaches(cfg, states, steps, s) && Suspecting(cfg, s) && |steps| == 6
  {
    hide Act, Enabled, Live, Prefix, InFlight, Reaches;
    states, steps, s := Started(cfg);
    Introduces(cfg, s.procs[0]);
    JoinDelivered(s);
    states, steps, s := BTakes(cfg, states, steps, s, Deliver(JoinMessage(X, 0), [], [B, X]));
    AllLive(s.procs[0].core.log);
    Probes(cfg, s.procs[0]);
    states, steps, s := BTakes(cfg, states, steps, s, Begin(X, 0));
    Doubts(cfg, s.procs[0]);
    states, steps, s := BTakes(cfg, states, steps, s, NoDirectAck(true, [], 0));
  }

  /** X's Join arrives a second time, so that B probes it again, and tells it of the suspicion. */
  ghost predicate Telling(cfg: Config, s: State) {
    && Waiting(s)
    && var p := s.procs[0];
       && IsB(p.core) && p.core.table == map[B := HOME, X := HOME]
       && p.core.entries.Keys == {X} && p.core.entries[X].inc == 0
       && (cfg.opts.requireReports <= 1 ==> Alarmed(p.core))
       && Packet(PING, X.Address()) in p.core.out
  }

  lemma Tells(cfg: Config) returns (states: seq<State>, steps: seq<Step>, s: State)
    ensures Reaches(cfg, states, steps, s) && Telling(cfg, s) && |steps| == 8
  {
    hide Act, Enabled, Live, Prefix, InFlight, Reaches;
    states, steps, s := Mistrusts(cfg);
    Introduces(cfg, s.procs[0]);
    JoinDelivered(s);
    states, steps, s := BTakes(cfg, states, steps, s, Deliver(JoinMessage(X, 0), [], [B, X]));
    var log := s.procs[0].core.log;
    assert log == [SEEN, DOUBTED, SEEN];
    AllLive(log);
    Probes(cfg, s.procs[0]);
    assert Prefix(log, 5) == log by {
      Short(log);
    }
    states, steps, s := BTakes(cfg, states, steps, s, Begin(X, 0));
  }

  lemma Short(log: seq<Update>)
    requires |log| <= 5
    ensures Prefix(log, 5) == log
  {
  }

  lemma Guarded(cfg: Config, s: State, a: Action)
    requires 0 in s.procs && Enabled(cfg, s.procs[0], a) && !a.Reidentify?
    requires a.Receive? ==> InFlight(s, Packet(a.msg, s.procs[0].core.local.Address()))
    ensures Guard(cfg, s, Do(0, a))
  {
    hide Enabled, InFlight;
  }

  /** Records of time 0 are fresh at time 0. */
  lemma {:induction false} AllLive(log: seq<Update>)
    requires forall u :: u in log ==> u.stamp == 0
    ensures Live(log, 0) == log
  {
    if log != [] {
      AllLive(log[..|log| - 1]);
      assert log[|log| - 1] in log;
    }
  }

  /** X has refuted the suspicion and B has not heard of it. */
  ghost predicate HasRefuted(cfg: Config, s: State) {
    && s.procs.Keys == {0, 1} && s.owner == map[B := 0, X := 1]
    && var p, q := s.procs[0].core, s.procs[1].core;
       && IsB(p) && p.table == map[B := HOME, X := HOME] && p.entries.Keys == {X} && p.entries[X].inc == 0
       && (cfg.opts.requireReports <= 1 ==> Alarmed(p))
       && q.local == X && Refuter(q) && s.procs[1].phase.Idle?
       && Packet(JoinMessage(X, 0), B.Address()) in q.out
       && Packet(AliveMessage(X, 1), B.Address()) in q.out
  }

  /** Step 8 of the run delivers B's ping to X. */
  ghost predicate TellsX(states: seq<State>, steps: seq<Step>) {
    && |states| == |steps| + 1 > 9
    && 1 in states[8].procs && Newborn(states[8].procs[1].core)
    && steps[8] == Do(1, Deliver(PING, [], []))
  }

  lemma XRefutes(cfg: Config) returns (states: seq<State>, steps: seq<Step>, s: State)
    ensures Reaches(cfg, states, steps, s) && HasRefuted(cfg, s) && |steps| == 9
    ensures TellsX(states, steps)
  {
    hide Act, Enabled, Reaches;
    var t: State;
    states, steps, t := Tells(cfg);
    EndsIn(cfg, states, steps, t);
    var a := Deliver(PING, [], []);
    assert InFlight(t, Packet(PING, X.Address())) by {
      assert 0 in t.procs;
    }
    Refutes(cfg, t.procs[1]);
    states, steps, s := Takes(cfg, states, steps, t, 1, a);
  }

  /** B has cleared the suspicion; the callback has not run yet. */
  ghost predicate Cleared(s: State) {
    && s.procs.Keys == {0, 1} && s.owner == map[B := 0, X := 1]
    && var p, q := s.procs[0].core, s.procs[1].core;
       && IsB(p) && p.table.Keys == {B, X} && p.table[B] == HOME && p.table[X].inc == 1
       && p.entries == map[] && OnClear(X, 1) in p.tasks
       && q.local == X && Refuter(q) && s.procs[1].phase.Idle?
       && Packet(JoinMessage(X, 0), B.Address()) in q.out
  }

  lemma BClears(cfg: Config) returns (states: seq<State>, steps: seq<Step>, s: State)
    ensures Reaches(cfg, states, steps, s) && Cleared(s) && |steps| == 10
    ensures TellsX(states, steps)
    ensures 0 in states[9].procs && X in states[9].procs[0].core.table
    ensures steps[9] == Do(0, Deliver(AliveMessage(X, 1), [], []))
  {
    hide Act, Enabled, Reaches, Refuter, Alarmed, Newborn;
    var t: State;
    states, steps, t := XRefutes(cfg);
    EndsIn(cfg, states, steps, t);
    var a := Deliver(AliveMessage(X, 1), [], []);
    assert InFlight(t, Packet(AliveMessage(X, 1), B.Address())) by {
      assert 1 in t.procs;
    }
    HearsRefutation(cfg, t.procs[0], 0);
    states, steps, s := Takes(cfg, states, steps, t, 0, a);
  }

  /** X comes back under a new identity. */
  ghost predicate Returning(s: State) {
    && s.procs.Keys == {0, 1} && s.owner == map[B := 0, X := 1, X2 := 1]
    && var p, q := s.procs[0].core, s.procs[1].core;
       && IsB(p) && p.table.Keys == {B, X} && p.entries == map[] && OnClear(X, 1) in p.tasks
       && q.local == X2 && Refuter(q) && s.procs[1].phase.Idle?
       && Packet(JoinMessage(X2, 1), B.Address()) in q.out
  }

  lemma XReturns(cfg: Config) returns (states: seq<State>, steps: seq<Step>, s: State)
    ensures Reaches(cfg, states, steps, s) && Returning(s) && |steps| == 11
  {
    hide Act, Reaches;
    var t: State;
    states, steps, t := BClears(cfg);
    var a := Reidentify(X2, B.Address(), 0);
    assert Enabled(cfg, t.procs[1], a);
    hide Enabled;
    ReidentifyActs(cfg, t.procs[1], a);
    states, steps, s := Takes(cfg, states, steps, t, 1, a);
  }

  /** The callback now has somebody to talk to. */
  ghost predicate Poised(s: State) {
    && s.procs.Keys == {0, 1} && s.owner == map[B := 0, X := 1, X2 := 1]
    && var p, q := s.procs[0].core, s.procs[1].core;
       && IsB(p) && p.table.Keys == {B, X2} && p.table[X2].inc == 1 && p.entries == map[] && OnClear(X, 1) in p.tasks
       && q.local == X2 && Refuter(q) && s.procs[1].phase.Idle?
  }

  lemma BReadmits(cfg: Config) returns (states: seq<State>, steps: seq<Step>, s: State)
    ensures Reaches(cfg, states, steps, s) && Poised(s) && |steps| == 12
  {
    hide Act, Enabled, Reaches;
    var t: State;
    states, steps, t := XReturns(cfg);
    var a := Deliver(JoinMessage(X2, 1), [X], [B, X2]);
    assert InFlight(t, Packet(JoinMessage(X2, 1), B.Address())) by {
      assert 1 in t.procs;
    }
    Readmits(cfg, t.procs[0]);
    states, steps, s := Takes(cfg, states, steps, t, 0, a);
  }

  lemma Dishonest(c: Core)
    requires IsB(c) && X2 in c.table
    ensures !HonestClear(c, OnClear(X, 1))
  {
    assert X2 in ClearAudience(c, X);
  }

  lemma CallbackEnabled(cfg: Config, p: Proc, task: Task)
    requires task in p.core.tasks
    ensures Enabled(cfg, p, Callback(task, 0))
  {
  }

  /** B has signed X's incarnation. */
  ghost predicate Signed(s: State) {
    && s.procs.Keys == {0, 1} && s.owner == map[B := 0, X := 1, X2 := 1]
    && var p, q := s.procs[0].core, s.procs[1].core;
       && IsB(p) && p.table.Keys == {B, X2} && p.table[X2].inc == 1 && p.entries == map[]
       && Packet(AliveMessage(B, 1), X2.Address()) in p.out
       && q.local == X2 && Refuter(q) && s.procs[1].phase.Idle?
  }

  lemma Signs(c: Core)
    requires IsB(c) && c.table.Keys == {B, X2}
    ensures var c' := RunTask(c, OnClear(X, 1), 0);
      && IsB(c') && c'.table == c.table && c'.entries == c.entries
      && Packet(AliveMessage(B, 1), X2.Address()) in c'.out
  {
    assert X2 in c.table;
  }

  /** Under every configuration there is a run of thirteen steps in which the bound per owner holds until the
      last, an OnClear callback, breaks it. */
  lemma BoundBroken(cfg: Config) returns (states: seq<State>, steps: seq<Step>)
    ensures Run(cfg, states, steps) && |states| == |steps| + 1 == 14 && steps[12] == Do(0, Callback(OnClear(X, 1), 0))
    ensures BelowOwners(states[12]) && !BelowOwners(states[13])
    ensures Signed(states[13])
  {
    hide Act, Enabled, BelowOwners, HonestClear, ClearAudience, RunTask;
    var s: State;
    states, steps, s := BReadmits(cfg);
    OwnerBound(cfg, states, steps);
    var st := Do(0, Callback(OnClear(X, 1), 0));
    CallbackEnabled(cfg, s.procs[0], OnClear(X, 1));
    Dishonest(s.procs[0].core);
    DishonestClearBreaks(cfg, s, 0, OnClear(X, 1), 0);
    Signs(s.procs[0].core);
    CallbackActs(cfg, s.procs[0], st.a);
    Did(cfg, s, 0, st.a);
    states, steps := states + [After(cfg, s, st)], steps + [st];
  }

  /** What X makes of the update that says it is suspected. */
  lemma AnswerIsOne(cfg: Config, p: Proc)
    requires Newborn(p.core)
    ensures var a := Deliver(PING, [], []);
      && TellsOfSuspicion(p, a, 1)
      && Reaching(cfg, p, a, 1).own == 0 && B in Reaching(cfg, p, a, 1).table
      && Answer(cfg, p, a, 1) == 1
  {
    hide ProcessUpdate;
    var a := Deliver(PING, [], []);
    var c1 := Opening(p, a);
    assert c1.table == map[X := HOME, B := HOME];
    assert PING.members[..1] == [SEEN] && [SEEN][..0] == [];
    AliveRumour(cfg, c1);
    assert ProcessUpdates(c1, cfg.opts, true, PING.members[..1], B, 0) == ProcessUpdate(c1, cfg.opts, true, SEEN, B, 0);
  }

  /** In the first ten steps of that run the refutation travels from X to B as Refutation.EndToEnd says. */
  lemma RefutationTravels(cfg: Config, reporter: NodeID, now: int) returns (states: seq<State>, steps: seq<Step>)
    ensures Run(cfg, states, steps) && |steps| == 10
    ensures 0 in states[10].procs && Shielded(states[10].procs[0].core, X, 1) && X !in states[10].procs[0].core.entries
    ensures ProcessSuspicion(states[10].procs[0].core, cfg.opts, reporter, X, 0, now) == states[10].procs[0].core
  {
    hide Act, Enabled, Shielded, ProcessSuspicion, Reaching, Answer, TellsOfSuspicion, After, Guard;
    var s: State;
    states, steps, s := BClears(cfg);
    AnswerIsOne(cfg, states[8].procs[1]);
    EndToEnd(cfg, states, steps, 8, 1, B, 9, 0, 10, reporter, 0, now);
  }
}
