/** How word gets around: what the callbacks, a leaving node and a gossip round tell the others, and what the others
    make of it. */
module Spreading {
  import opened Types
  import opened SuspicionSpec
  import opened UpdateLogSpec
  import opened DetectorSpec
  import opened PingAckSpec
  import opened GossipSpec
  import opened CallbackSpec
  import opened Cluster
  import opened Refutation
  import opened Words
  import opened Probes

  /** `c'` has told `msg` to exactly the members in `table` outside `except`. */
  ghost predicate Tells(c: Core, c': Core, msg: Message, table: map<NodeID, Rec>, except: set<NodeID>) {
    && c.out <= c'.out
    && (forall m :: m in table && m !in except ==> Packet(msg, m.Address()) in c'.out)
    && (forall pk :: pk in c'.out && pk !in c.out ==>
          pk.msg == msg && exists m :: m in table && m !in except && pk.dest == m.Address())
  }

  /** The record `c'` has of `x`, everybody else's being as it was in `c`. */
  predicate Only(c: Core, c': Core, x: NodeID) {
    && c'.table.Keys == c.table.Keys && (forall k :: k in c.table && k != x ==> c'.table[k] == c.table[k])
    && c'.entries == c.entries && c'.log == c.log && c'.local == c.local && c'.own == c.own
  }

  // ----- the callbacks

  /** OnConfirm puts the member down as Failed at the incarnation of the suspicion and tells everyone but the member and
      the node itself so, in a Confirm. */
  lemma ConfirmTold(cfg: Config, p: Proc, x: NodeID, inc: int, now: int)
    requires Enabled(cfg, p, Callback(OnConfirm(x, inc), now))
    ensures var c, c' := p.core, Act(cfg, p, Callback(OnConfirm(x, inc), now)).core;
      && Only(c, c', x) && c'.tasks == c.tasks - multiset{OnConfirm(x, inc)}
      && (x in c.table ==> c'.table[x] == c.table[x].(status := Failed, inc := inc))
      && Tells(c, c', Message(Confirm, c.local, x, inc, 0, []), c.table, {c.local, x})
  {
    CallbackActs(cfg, p, Callback(OnConfirm(x, inc), now));
    hide Handle, DeclareSuspicion, GossipCheck, Act;
  }

  /** OnSuspect puts it down as Suspected, the suspicion clock starting anew, and tells the same people in a Suspect. */
  lemma SuspectTold(cfg: Config, p: Proc, x: NodeID, inc: int, rs: set<NodeID>, now: int)
    requires Enabled(cfg, p, Callback(OnSuspect(x, inc, rs), now))
    ensures var c, c' := p.core, Act(cfg, p, Callback(OnSuspect(x, inc, rs), now)).core;
      && Only(c, c', x) && c'.tasks == c.tasks - multiset{OnSuspect(x, inc, rs)}
      && (x in c.table ==> c'.table[x] == c.table[x].(status := Suspected, inc := inc, since := At(now)))
      && Tells(c, c', Message(Suspect, c.local, x, inc, 0, []), c.table, {c.local, x})
  {
    CallbackActs(cfg, p, Callback(OnSuspect(x, inc, rs), now));
    hide Handle, DeclareSuspicion, GossipCheck, Act;
  }

  /** OnClear puts it down as Alive and just heard from, at no lower incarnation than before, and tells them that the
      node itself lives at that of the member. */
  lemma ClearTold(cfg: Config, p: Proc, x: NodeID, inc: int, now: int)
    requires Enabled(cfg, p, Callback(OnClear(x, inc), now))
    ensures var c, c' := p.core, Act(cfg, p, Callback(OnClear(x, inc), now)).core;
      && Only(c, c', x) && c'.tasks == c.tasks - multiset{OnClear(x, inc)}
      && (x in c.table ==> c'.table[x] == Rec(Max(c.table[x].inc, inc), Alive, At(now), Zero))
      && Tells(c, c', AliveMessage(c.local, inc), c.table, {c.local, x})
  {
    CallbackActs(cfg, p, Callback(OnClear(x, inc), now));
    hide Handle, DeclareSuspicion, GossipCheck, Act;
  }

  /** A failure from end to end. A tick of the manager of `q` confirms a suspicion of `x` (step `a`) and launches the
      callback; when that runs (step `b`), a Confirm is on its way to every other member `m`; and whoever handles it
      (step `e`) with a record of `x` no newer than the suspicion has `x` down as Failed at its incarnation, and passes
      that on. */
  lemma FailureSpreads(cfg: Config, states: seq<State>, steps: seq<Step>, a: nat, q: nat, x: NodeID, b: nat, m: NodeID, e: nat, y: nat)
    requires Path(cfg, states, steps) && a < b < e < |steps|
    requires steps[a].Do? && steps[a].i == q && q in states[a].procs && steps[a].a.ManagerTick?
    requires var c := states[a].procs[q].core; DueIn(c.entries, x, cfg.opts, steps[a].a.now) && x in c.table
    requires steps[b].Do? && steps[b].i == q && q in states[b].procs && steps[b].a.Callback?
    requires steps[b].a.task == OnConfirm(x, states[a].procs[q].core.entries[x].inc)
    requires m in states[b].procs[q].core.table && m != x && m != states[b].procs[q].core.local
    ensures var inc := states[a].procs[q].core.entries[x].inc;
      var word := Message(Confirm, states[b].procs[q].core.local, x, inc, 0, []);
      && q in states[a + 1].procs && OnConfirm(x, inc) in states[a + 1].procs[q].core.tasks
      && x in states[a + 1].procs[q].core.table && states[a + 1].procs[q].core.table[x].status.Failed?
      && InFlight(states[e], Packet(word, m.Address()))
      && (Handles(states[e], steps[e], y, word) ==>
            && y in states[e + 1].procs
            && var c, c' := states[e].procs[y].core, states[e + 1].procs[y].core;
            && (x in c.table && c.table[x].inc <= inc ==>
                  && x in c'.table && c'.table[x] == c.table[x].(status := Failed, inc := inc)
                  && RecordsOf(c'.log, x) == RecordsOf(c.log, x) + [Update(x, inc, Failed, steps[e].a.now)])
            && (x !in c.table || c.table[x].inc > inc ==> Of(c', x) == Of(c, x)))
  {
    hide Act, Enabled, InFlight, RecordsOf;
    var inc := states[a].procs[q].core.entries[x].inc;
    Confirms(cfg, states[a].procs[q], steps[a].a.now, x);
    var p := states[b].procs[q];
    ConfirmTold(cfg, p, x, inc, steps[b].a.now);
    var word := Message(Confirm, p.core.local, x, inc, 0, []);
    SentInFlight(cfg, states, steps, b, q, e, Packet(word, m.Address()));
    if Handles(states[e], steps[e], y, word) {
      ConfirmHandled(cfg, states[e].procs[y], steps[e].a);
      ConfirmCarries(states[e].procs[y].core, x, inc, steps[e].a.now);
    }
  }

  lemma Confirms(cfg: Config, p: Proc, now: int, x: NodeID)
    requires x in p.core.table && DueIn(p.core.entries, x, cfg.opts, now)
    ensures Enabled(cfg, p, ManagerTick(now))
    ensures var c' := Act(cfg, p, ManagerTick(now)).core;
      OnConfirm(x, p.core.entries[x].inc) in c'.tasks && x in c'.table && c'.table[x].status.Failed?
  {
    hide Handle, DeclareSuspicion, GossipCheck, Due, CheckedEntries;
    assert OnConfirm(x, p.core.entries[x].inc) in ConfirmTasks(p.core, cfg.opts, now);
  }

  lemma ConfirmHandled(cfg: Config, p: Proc, a: Action)
    requires Enabled(cfg, p, a) && a.Receive? && a.msg.kind.Confirm?
    ensures Act(cfg, p, a).core == HandleConfirm(p.core, a.msg.target, a.msg.inc, a.now)
  {
    hide HandleConfirm, ReceiveEnabled;
  }

  /** A suspicion from end to end. The OnSuspect callback of `q` runs (step `a`); a Suspect is on its way to every other
      member `m`; whoever handles it (step `e`) with suspicion enabled counts a report of `q` against `x`, unless its
      own record or suspicion of `x` is newer. (`x` itself refutes it: Refutation.EndToEndMessage.) */
  lemma SuspicionSpreads(cfg: Config, states: seq<State>, steps: seq<Step>, a: nat, q: nat, m: NodeID, e: nat, y: nat)
    requires Path(cfg, states, steps) && a < e < |steps|
    requires steps[a].Do? && steps[a].i == q && q in states[a].procs && steps[a].a.Callback? && steps[a].a.task.OnSuspect?
    requires var c, x := states[a].procs[q].core, steps[a].a.task.target; m in c.table && m != x && m != c.local
    ensures var x, inc, reporter := steps[a].a.task.target, steps[a].a.task.inc, states[a].procs[q].core.local;
      var word := Message(Suspect, reporter, x, inc, 0, []);
      && InFlight(states[e], Packet(word, m.Address()))
      && (Handles(states[e], steps[e], y, word) && steps[e].a.susp && states[e].procs[y].core.local != x ==>
            && y in states[e + 1].procs
            && var c, c' := states[e].procs[y].core, states[e + 1].procs[y].core;
            if Old(Of(c, x), inc) then Of(c', x) == Of(c, x)
            else
              && x in c'.entries && c'.entries[x].inc == inc
              && c'.entries[x].reporters == Earlier(Of(c, x), inc).reporters[reporter := steps[e].a.now])
  {
    hide Act, Enabled, InFlight, RecordsOf;
    var p, task := states[a].procs[q], steps[a].a.task;
    SuspectTold(cfg, p, task.target, task.inc, task.reporters, steps[a].a.now);
    var word := Message(Suspect, p.core.local, task.target, task.inc, 0, []);
    SentInFlight(cfg, states, steps, a, q, e, Packet(word, m.Address()));
    if Handles(states[e], steps[e], y, word) && steps[e].a.susp && states[e].procs[y].core.local != task.target {
      EveryWordHeard(cfg, states[e].procs[y], steps[e].a, task.target, Suspicion);
    }
  }

  /** A clear from end to end: it says nothing of the cleared member to anyone. The Alive message that the OnClear
      callback of `q` sends (step `a`) leaves record and entry of `x` at the receiver as they were; it is `q` itself
      that the receiver, if it knows `q`, has down at `x`'s incarnation or above (step `e`). */
  lemma ClearMisattributed(cfg: Config, states: seq<State>, steps: seq<Step>, a: nat, q: nat, m: NodeID, e: nat, y: nat)
    requires Path(cfg, states, steps) && a < e < |steps|
    requires steps[a].Do? && steps[a].i == q && q in states[a].procs && steps[a].a.Callback? && steps[a].a.task.OnClear?
    requires var c, x := states[a].procs[q].core, steps[a].a.task.target; m in c.table && m != x && m != c.local
    ensures var x, inc, sender := steps[a].a.task.target, steps[a].a.task.inc, states[a].procs[q].core.local;
      && InFlight(states[e], Packet(AliveMessage(sender, inc), m.Address()))
      && (Handles(states[e], steps[e], y, AliveMessage(sender, inc)) ==>
            && y in states[e + 1].procs
            && var c, c' := states[e].procs[y].core, states[e + 1].procs[y].core;
            && (x != sender ==> Of(c', x) == Of(c, x))
            && (sender in c.table ==> sender in c'.table && c'.table[sender].inc == Max(c.table[sender].inc, inc)))
  {
    hide Act, Enabled, InFlight, HandleAlive;
    var p, task := states[a].procs[q], steps[a].a.task;
    ClearTold(cfg, p, task.target, task.inc, steps[a].a.now);
    SentInFlight(cfg, states, steps, a, q, e, Packet(AliveMessage(p.core.local, task.inc), m.Address()));
    if Handles(states[e], steps[e], y, AliveMessage(p.core.local, task.inc)) {
      AliveHandled(cfg, states[e].procs[y], steps[e].a);
      AliveRaises(states[e].procs[y].core, p.core.local, task.inc, steps[e].a.now, task.target);
    }
  }

  lemma AliveRaises(c: Core, sender: NodeID, inc: int, now: int, x: NodeID)
    ensures var c' := HandleAlive(c, sender, inc, now);
      && (x != sender ==> Of(c', x) == Of(c, x))
      && (sender in c.table ==> sender in c'.table && c'.table[sender].inc == Max(c.table[sender].inc, inc))
  {
  }

  // ----- leaving

  lemma DepartureTold(cfg: Config, p: Proc)
    requires Enabled(cfg, p, Depart)
    ensures var c, c' := p.core, Act(cfg, p, Depart).core;
      c'.(out := c.out) == c && Tells(c, c', Message(Leave, c.local, NO_NODE, c.own, 0, []), c.table, {c.local})
  {
    hide Handle, DeclareSuspicion, GossipCheck, Check;
  }

  /** Leaving from end to end: every other member `m` is told (step `a`), and whoever handles the message (step `e`)
      deletes the leaver and no one else, and logs its failure if it knew it. */
  lemma DepartureSpreads(cfg: Config, states: seq<State>, steps: seq<Step>, a: nat, q: nat, m: NodeID, e: nat, y: nat)
    requires Path(cfg, states, steps) && a < e < |steps| && Does(states[a], steps[a], q, Depart)
    requires m in states[a].procs[q].core.table && m != states[a].procs[q].core.local
    ensures var leaver := states[a].procs[q].core;
      var word := Message(Leave, leaver.local, NO_NODE, leaver.own, 0, []);
      && InFlight(states[e], Packet(word, m.Address()))
      && (Handles(states[e], steps[e], y, word) ==>
            && y in states[e + 1].procs
            && var c, c' := states[e].procs[y].core, states[e + 1].procs[y].core;
            && c'.table == c.table - {leaver.local} && c'.entries == c.entries && c'.tasks == c.tasks
            && c'.log == c.log + (if leaver.local in c.table
                                  then [Update(leaver.local, c.table[leaver.local].inc, Failed, steps[e].a.now)] else []))
  {
    hide Act, Enabled, InFlight;
    var leaver := states[a].procs[q].core;
    var word := Message(Leave, leaver.local, NO_NODE, leaver.own, 0, []);
    DepartureTold(cfg, states[a].procs[q]);
    SentInFlight(cfg, states, steps, a, q, e, Packet(word, m.Address()));
    if Handles(states[e], steps[e], y, word) {
      LeaveHandled(cfg, states[e].procs[y], steps[e].a);
    }
  }

  lemma LeaveHandled(cfg: Config, p: Proc, a: Action)
    requires Enabled(cfg, p, a) && a.Receive? && a.msg.kind.Leave?
    ensures var c, c', x := p.core, Act(cfg, p, a).core, a.msg.sender;
      && c'.table == c.table - {x} && c'.entries == c.entries && c'.tasks == c.tasks
      && c'.log == c.log + (if x in c.table then [Update(x, c.table[x].inc, Failed, a.now)] else [])
  {
    hide ReceiveEnabled;
  }
}
