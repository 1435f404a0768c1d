/** The four exceptions of Monotone.StaleOverwrite do occur, each at the end of a run of the two processes of
    BorrowedIncarnation. The fourth needs the bound per owner to be broken first. */
module StaleOverwrites {
  import opened Types
  import opened SuspicionSpec
  import opened UpdateLogSpec
  import opened DetectorSpec
  import opened PingAckSpec
  import opened GossipSpec
  import opened Cluster
  import opened Claims
  import opened Incarnations
  import opened Monotone
  import opened Merge
  import opened BorrowedIncarnation

  /** The last step of the run lowers what process 0 records of `k` from 1 to 0. */
  ghost predicate EndsLower(cfg: Config, states: seq<State>, steps: seq<Step>, a: Action, k: NodeID) {
    && Run(cfg, states, steps) && steps != [] && steps[|steps| - 1] == Do(0, a)
    && var n := |steps| - 1;
       && 0 in states[n].procs && k in states[n].procs[0].core.table && states[n].procs[0].core.table[k].inc == 1
       && OverwritesMember(states[n].procs[0], a, k)
       && 0 in states[n + 1].procs && k in states[n + 1].procs[0].core.table && states[n + 1].procs[0].core.table[k].inc == 0
  }

  /** A run whose last state is `s`, callbacks included. */
  ghost predicate Comes(cfg: Config, states: seq<State>, steps: seq<Step>, s: State) {
    |states| == |steps| + 1 && Run(cfg, states, steps) && states[|steps|] == s
  }

  /** One more step of process `i`. */
  lemma Goes(cfg: Config, states: seq<State>, steps: seq<Step>, s: State, i: nat, a: Action)
    returns (states': seq<State>, steps': seq<Step>, s': State)
    requires Comes(cfg, states, steps, s) && i in s.procs && Guard(cfg, s, Do(i, a))
    ensures Comes(cfg, states', steps', s') && steps' == steps + [Do(i, a)] && states' == states + [s']
    ensures s'.procs == s.procs[i := Act(cfg, s.procs[i], a)]
    ensures s'.owner == if a.Reidentify? then s.owner[a.id := i] else s.owner
  {
    hide Act, Enabled, InFlight;
    Did(cfg, s, i, a);
    s' := After(cfg, s, Do(i, a));
    states', steps' := states + [s'], steps + [Do(i, a)];
  }

  lemma MayGo(cfg: Config, s: State, i: nat, a: Action, q: nat)
    requires i in s.procs && Enabled(cfg, s.procs[i], a)
    requires a.Receive? ==> q in s.procs && Packet(a.msg, s.procs[i].core.local.Address()) in s.procs[q].core.out
    requires a.Reidentify? && a.id in s.owner ==> s.owner[a.id] == i
    ensures Guard(cfg, s, Do(i, a))
  {
    hide Enabled;
  }

  // ----- a Join delivered again

  /** The Join X sent at the start arrives once more, after X's refutation. */
  lemma RepeatedJoinLowers(cfg: Config) returns (states: seq<State>, steps: seq<Step>)
    ensures EndsLower(cfg, states, steps, Deliver(JoinMessage(X, 0), [], [B, X]), X)
  {
    hide Act, Enabled, Run;
    var a := Deliver(JoinMessage(X, 0), [], [B, X]);
    var s: State;
    states, steps, s := BClears(cfg);
    Rejoined(cfg, s.procs[0]);
    MayGo(cfg, s, 0, a, 1);
    states, steps, s := Goes(cfg, states, steps, s, 0, a);
  }

  lemma Rejoined(cfg: Config, p: Proc)
    requires IsB(p.core) && p.core.table.Keys == {B, X}
    ensures var a := Deliver(JoinMessage(X, 0), [], [B, X]);
      && Enabled(cfg, p, a)
      && X in Act(cfg, p, a).core.table && Act(cfg, p, a).core.table[X].inc == 0
  {
    hide Listing;
    assert Displaced(p.core.table, X) == {};
    assert JoinedTable(p.core, X, 0, 0).Keys == {B, X};
  }

  // ----- late callbacks

  /** When the suspicion is due. */
  function DueTime(cfg: Config): int {
    Max(0, cfg.opts.timeout)
  }

  /** The manager's tick confirms the suspicion of X. */
  lemma Confirmation(cfg: Config, p: Proc)
    requires IsB(p.core) && p.core.table == map[B := HOME, X := HOME] && p.core.entries.Keys == {X} && Alarmed(p.core)
    ensures var a := ManagerTick(DueTime(cfg));
      && Enabled(cfg, p, a)
      && var c' := Act(cfg, p, a).core;
         && IsB(c') && c'.table.Keys == {B, X} && c'.table[B] == HOME && c'.table[X].inc == 0
         && c'.entries.Keys == {X} && c'.entries[X].inc == 0
         && LATE_SUSPECT in c'.tasks && OnConfirm(X, 0) in c'.tasks
  {
    assert Due(p.core.entries[X], cfg.opts, DueTime(cfg)) && !Spent(p.core.entries[X], cfg.opts, DueTime(cfg));
    assert OnConfirm(X, 0) in ConfirmTasks(p.core, cfg.opts, DueTime(cfg));
  }

  lemma RunsLate(cfg: Config, p: Proc, task: Task, now: int)
    requires task in p.core.tasks && (task == LATE_SUSPECT || task == OnConfirm(X, 0)) && X in p.core.table
    ensures Enabled(cfg, p, Callback(task, now))
    ensures X in Act(cfg, p, Callback(task, now)).core.table && Act(cfg, p, Callback(task, now)).core.table[X].inc == 0
  {
    hide Broadcast, Handle, DeclareSuspicion, GossipCheck;
  }

  /** With the controller's configuration, where one report is enough: B suspects X, confirms the suspicion, and
      then hears X's refutation. OnSuspect or OnConfirm, still waiting for its turn, undoes it. */
  lemma LateCallbackLowers(cfg: Config, task: Task) returns (states: seq<State>, steps: seq<Step>)
    requires cfg.opts.requireReports <= 1 && (task == LATE_SUSPECT || task == OnConfirm(X, 0))
    ensures EndsLower(cfg, states, steps, Callback(task, DueTime(cfg)), X)
  {
    hide Act, Enabled, Run, Alarmed;
    var now := DueTime(cfg);
    var s: State;
    states, steps, s := XRefutes(cfg);
    Confirmation(cfg, s.procs[0]);
    MayGo(cfg, s, 0, ManagerTick(now), 0);
    states, steps, s := Goes(cfg, states, steps, s, 0, ManagerTick(now));
    var a := DeliverAt(now, AliveMessage(X, 1), [], []);
    HearsRefutation(cfg, s.procs[0], now);
    MayGo(cfg, s, 0, a, 1);
    states, steps, s := Goes(cfg, states, steps, s, 0, a);
    RunsLate(cfg, s.procs[0], task, now);
    MayGo(cfg, s, 0, Callback(task, now), 0);
    states, steps, s := Goes(cfg, states, steps, s, 0, Callback(task, now));
  }

  // ----- taking over a recorded identity

  /** While the bound per owner holds, a process that takes over a recorded identity lowers nothing. */
  lemma TakeoverHarmless(cfg: Config, s: State, i: nat, a: Action, k: NodeID)
    requires BelowOwners(s) && Guard(cfg, s, Do(i, a)) && a.Reidentify? && k in s.procs[i].core.table
    ensures !OverwritesMember(s.procs[i], a, k)
  {
    hide InFlight;
    assert CoreCovered(OwnerCap(s), s.procs[i].core);
    assert Covered(OwnerCap(s), k, s.procs[i].core.table[k].inc);
  }

  /** The identity B has in between. */
  const B2 := NodeID("10.0.0.1", 8080, 2)

  const HEARD := [Update(B, 0, Alive, 0), Update(B, 1, Alive, 0)]

  function Echo(n: nat): Message {
    Message(Ping, X2, B, 1, n, HEARD)
  }

  /** X believes what B signed. */
  lemma Believes(cfg: Config, p: Proc)
    requires p.core.local == X2 && Refuter(p.core) && p.phase.Idle?
    ensures var a := Deliver(AliveMessage(B, 1), [], []);
      && Enabled(cfg, p, a)
      && var p' := Act(cfg, p, a);
         && p'.core.local == X2 && p'.core.own == 1 && p'.phase.Idle?
         && p'.core.table.Keys == {X2, B} && p'.core.table[B].status.Alive? && p'.core.log == HEARD
  {
  }

  /** X probes B under its old identity, and piggybacks what it believes. */
  lemma Echoes(cfg: Config, p: Proc)
    requires p.core.local == X2 && p.core.own == 1 && p.phase.Idle?
    requires p.core.table.Keys == {X2, B} && p.core.table[B].status.Alive? && p.core.log == HEARD
    ensures Enabled(cfg, p, Begin(B, 0))
    ensures Packet(Echo(p.seqNum + 1), B.Address()) in Act(cfg, p, Begin(B, 0)).core.out
  {
    hide Live, Prefix;
    AllLive(HEARD);
    Short(HEARD);
    assert EligibleSet(p.core.table, X2, {X2}) == {B};
  }

  /** An Alive update about another node changes no counter, and no more of the table than that node. */
  lemma AliveUpdate(c: Core, o: Options, u: Update, reporter: NodeID)
    requires u.status.Alive? && u.id != c.local && c.entries == map[]
    ensures var c' := ProcessUpdate(c, o, true, u, reporter, 0);
      c'.local == c.local && c'.own == c.own && c'.entries == map[]
  {
    hide MarkAlive;
  }

  /** B, by then under another identity, learns its old one as somebody else's, at X's incarnation. */
  lemma Relearns(cfg: Config, p: Proc, n: nat)
    requires p.core.local == B2 && p.core.own == 0 && p.core.entries == map[] && B !in p.core.table
    requires X2 in p.core.table && p.core.table[X2].inc == 1
    ensures var a := Deliver(Echo(n), [], []);
      && Enabled(cfg, p, a)
      && var c' := Act(cfg, p, a).core;
         c'.local == B2 && c'.own == 0 && B in c'.table && c'.table[B].inc == 1
  {
    hide ProcessUpdate, ProcessUpdates;
    var acked := Send(p.core, Message(Ack, B2, X2, 0, n, []), X2.Address());
    var c1 := Touch(acked, X2, 1, 0);
    assert c1.local == B2 && c1.own == 0 && c1.entries == map[] && B !in c1.table;
    BatchJoins(c1, cfg.opts, true, HEARD, X2, 0, B);
    HeardTwice(c1, cfg.opts);
    assert HEARD[1] in HEARD && HEARD[0] in HEARD;
  }

  lemma HeardTwice(c: Core, o: Options)
    requires c.local == B2 && c.own == 0 && c.entries == map[]
    ensures var c' := ProcessUpdates(c, o, true, HEARD, X2, 0); c'.local == B2 && c'.own == 0
  {
    hide ProcessUpdate;
    assert HEARD[..1] == [HEARD[0]] && HEARD[..1][..0] == [];
    var c1 := ProcessUpdate(c, o, true, HEARD[0], X2, 0);
    AliveUpdate(c, o, HEARD[0], X2);
    AliveUpdate(c1, o, HEARD[1], X2);
    assert ProcessUpdates(c, o, true, HEARD[..1], X2, 0) == c1;
  }

  /** B takes another identity. */
  lemma Leaves(cfg: Config, p: Proc)
    requires IsB(p.core) && p.core.table.Keys == {B, X2} && p.core.table[X2].inc == 1 && p.core.entries == map[]
    ensures var a := Reidentify(B2, X.Address(), 0);
      && Enabled(cfg, p, a)
      && var c' := Act(cfg, p, a).core;
         && c'.local == B2 && c'.own == 0 && c'.entries == map[] && B !in c'.table
         && X2 in c'.table && c'.table[X2].inc == 1
  {
    hide Handle, DeclareSuspicion, GossipCheck;
  }

  /** ... and comes back to the first, as it can when its clock is set back. */
  lemma Returns(cfg: Config, p: Proc)
    requires p.core.local == B2 && p.core.own == 0 && B in p.core.table && p.core.table[B].inc == 1
    ensures var a := Reidentify(B, X.Address(), 0);
      && Enabled(cfg, p, a)
      && OverwritesMember(p, a, B)
      && B in Act(cfg, p, a).core.table && Act(cfg, p, a).core.table[B].inc == 0
  {
    hide Handle, DeclareSuspicion, GossipCheck;
  }

  /** X believes what B signed, and B has gone on under another identity. */
  ghost predicate Moved(s: State) {
    && s.procs.Keys == {0, 1} && s.owner == map[B := 0, X := 1, X2 := 1, B2 := 0]
    && var p, q := s.procs[0].core, s.procs[1].core;
       && p.local == B2 && p.own == 0 && p.entries == map[] && B !in p.table && X2 in p.table && p.table[X2].inc == 1
       && q.local == X2 && q.own == 1 && s.procs[1].phase.Idle?
       && q.table.Keys == {X2, B} && q.table[B].status.Alive? && q.log == HEARD
  }

  lemma BMoves(cfg: Config) returns (states: seq<State>, steps: seq<Step>, s: State)
    ensures Comes(cfg, states, steps, s) && Moved(s)
  {
    hide Act, Enabled, Run, BelowOwners, Refuter, IsB, OverwritesMember;
    states, steps := BoundBroken(cfg);
    s := states[13];
    var believe, leave := Deliver(AliveMessage(B, 1), [], []), Reidentify(B2, X.Address(), 0);
    Believes(cfg, s.procs[1]);
    MayGo(cfg, s, 1, believe, 0);
    states, steps, s := Goes(cfg, states, steps, s, 1, believe);
    Leaves(cfg, s.procs[0]);
    MayGo(cfg, s, 0, leave, 0);
    states, steps, s := Goes(cfg, states, steps, s, 0, leave);
  }

  /** B signs X's incarnation, X believes it, B goes on under another identity, hears from X of the one it had,
      and takes that one again: its record falls back to B's own counter. */
  lemma TakeoverLowers(cfg: Config) returns (states: seq<State>, steps: seq<Step>)
    ensures EndsLower(cfg, states, steps, Reidentify(B, X.Address(), 0), B)
  {
    hide Act, Enabled, Run, OverwritesMember;
    var s: State;
    states, steps, s := BMoves(cfg);
    var n := s.procs[1].seqNum + 1;
    var echo, back := Deliver(Echo(n), [], []), Reidentify(B, X.Address(), 0);
    Echoes(cfg, s.procs[1]);
    MayGo(cfg, s, 1, Begin(B, 0), 0);
    states, steps, s := Goes(cfg, states, steps, s, 1, Begin(B, 0));
    Relearns(cfg, s.procs[0], n);
    MayGo(cfg, s, 0, echo, 1);
    states, steps, s := Goes(cfg, states, steps, s, 0, echo);
    Returns(cfg, s.procs[0]);
    MayGo(cfg, s, 0, back, 0);
    states, steps, s := Goes(cfg, states, steps, s, 0, back);
  }
}
