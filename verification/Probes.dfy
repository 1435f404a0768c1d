/** Probes that work: from the ping loop to the target, directly or through a proxy, and back. */
module Probes {
  import opened Types
  import opened SuspicionSpec
  import opened UpdateLogSpec
  import opened DetectorSpec
  import opened PingAckSpec
  import opened GossipSpec
  import opened CallbackSpec
  import opened Cluster
  import opened Claims
  import opened Incarnations
  import opened Refutation

  // ----- one step each

  /** A period sends its target a Ping under its number, with at most five updates: the first ones that have not
      expired. */
  lemma ProbeSent(cfg: Config, p: Proc, a: Action)
    requires Enabled(cfg, p, a) && a.Begin?
    ensures var p' := Act(cfg, p, a);
      var n, us := p.seqNum + 1, p'.core.log[..Min(5, |p'.core.log|)];
      && p'.core.log == Live(p.core.log, a.now)
      && p'.phase == Direct(a.target, n, us)
      && n in p'.probes && p'.probes[n].target == a.target && !p'.probes[n].signalled
      && Packet(Message(Ping, p.core.local, a.target, p.core.own, n, us), a.target.Address()) in p'.core.out
  {
    hide Handle, DeclareSuspicion, GossipCheck, Check, Selection;
  }

  /** A Ping is answered by an Ack of the same number to its sender. */
  lemma PingAnswered(cfg: Config, p: Proc, a: Action)
    requires Enabled(cfg, p, a) && a.Receive? && a.msg.kind.Ping?
    ensures var ack := Message(Ack, p.core.local, a.msg.sender, p.core.own, a.msg.seqNum, []);
      Packet(ack, a.msg.sender.Address()) in Act(cfg, p, a).core.out
  {
    hide Enabled, Act, ReceiveEnabled, ProcessUpdates, Touch;
    ReceiveActs(cfg, p, a);
    var c, msg := p.core, a.msg;
    var c1 := Send(c, Message(Ack, c.local, msg.sender, c.own, msg.seqNum, []), msg.sender.Address());
    TouchKeeps(c1, msg.sender, msg.inc, a.now);
    ProcessUpdatesRefute(Touch(c1, msg.sender, msg.inc, a.now), cfg.opts, a.susp, msg.members, msg.sender, a.now);
  }

  /** Without an answer every helper is asked to probe the target, with the updates of the Ping. */
  lemma HelpersAsked(cfg: Config, p: Proc, a: Action, h: NodeID)
    requires Enabled(cfg, p, a) && a.NoDirectAck? && h in a.helpers
    ensures p.phase.Direct?
    ensures var p' := Act(cfg, p, a);
      && p'.phase == Indirect(p.phase.target, p.phase.seqNum) && p'.probes == p.probes
      && Packet(Message(IndirectPing, p.core.local, p.phase.target, p.core.own, p.phase.seqNum, p.phase.updates),
                h.Address()) in p'.core.out
  {
    hide Handle, DeclareSuspicion, GossipCheck, Check, Selection;
  }

  /** A helper pings the target under the number of the request, with updates of its own, and starts a proxy that will
      hear the answer. */
  lemma RequestRelayed(cfg: Config, p: Proc, a: Action)
    requires Enabled(cfg, p, a) && a.Receive? && a.msg.kind.IndirectPing?
    ensures var p', msg := Act(cfg, p, a), a.msg;
      && a.waiter !in p.waiters
      && p'.waiters == p.waiters[a.waiter := Waiter(msg.sender, msg.target, msg.seqNum, None)]
      && p'.handles == p.handles[Key(msg.seqNum, msg.target) := a.waiter]
      && (forall u :: u in p'.core.log ==> u.stamp > a.now - 5_000_000_000)
      && Packet(Message(Ping, p'.core.local, msg.target, p'.core.own, msg.seqNum, p'.core.log[..Min(5, |p'.core.log|)]),
                msg.target.Address()) in p'.core.out
  {
    hide ProcessUpdates, Refresh, Live;
    var c := ProcessUpdates(Refresh(p.core, a.msg.sender, a.msg.inc, a.now), cfg.opts, a.susp, a.msg.members, a.msg.sender, a.now);
    LiveIsFresh(c.log, a.now);
  }

  lemma {:induction false} LiveIsFresh(log: seq<Update>, now: int)
    ensures forall u :: u in Live(log, now) ==> u in log && u.stamp > now - WINDOW
  {
    if log != [] {
      LiveIsFresh(log[..|log| - 1], now);
    }
  }

  /** The proxy under the handle hears the target's Ack. */
  lemma ProxyHears(cfg: Config, p: Proc, a: Action, w: nat)
    requires Enabled(cfg, p, a) && a.Receive? && a.msg.kind.Ack?
    requires var key := Key(a.msg.seqNum, a.msg.sender);
      key in p.handles && p.handles[key] == w && w in p.waiters && p.waiters[w].received.None?
    ensures var p' := Act(cfg, p, a);
      w in p'.waiters && p'.waiters[w] == p.waiters[w].(received := Some(a.msg.inc))
  {
    hide ClearSuspect, Touch, SignalDirect;
  }

  /** A proxy keeps what it is there for, and what it has heard, until it ends. */
  lemma ProxyStays(cfg: Config, p: Proc, a: Action, w: nat)
    requires Enabled(cfg, p, a) && w in p.waiters && a != Action.ForwardAck(w) && a != ProxyTimeout(w)
    ensures var p' := Act(cfg, p, a);
      && w in p'.waiters
      && (p'.waiters[w] == p.waiters[w]
          || (p.waiters[w].received.None? && p'.waiters[w].(received := None) == p.waiters[w]))
  {
    hide Handle, DeclareSuspicion, GossipCheck, Check, GossipRound, PingCheck, RunTask, Live, Selection, Rejoin, LeaveGroup,
      ReceiveEnabled, Enumerates;
    if a.Receive? {
      ProxyStaysHandling(cfg, p, a, w);
    }
  }

  lemma ProxyStaysHandling(cfg: Config, p: Proc, a: Action, w: nat)
    requires a.Receive? && ReceiveEnabled(p, a) && w in p.waiters
    ensures var p' := Handle(cfg, p, a);
      && w in p'.waiters
      && (p'.waiters[w] == p.waiters[w]
          || (p.waiters[w].received.None? && p'.waiters[w].(received := None) == p.waiters[w]))
  {
    hide ProcessUpdates, HandleJoin, HandleJoinResponse, HandleAlive, ProcessSuspicion, Touch, ClearSuspect, HandleLeave,
      Reported, HandleHeartbeat, HandleConfirm, Live, Refresh;
  }

  /** A proxy passes on what it has heard to the node that asked, and ends. */
  lemma AnswerForwarded(cfg: Config, p: Proc, w: nat)
    requires Enabled(cfg, p, Action.ForwardAck(w))
    ensures w in p.waiters && p.waiters[w].received.Some?
    ensures var p', wt := Act(cfg, p, Action.ForwardAck(w)), p.waiters[w];
      && p'.waiters == p.waiters - {w}
      && Packet(Message(IndirectAck, p.core.local, wt.target, wt.received.value, wt.seqNum, []), wt.requester.Address())
           in p'.core.out
  {
    hide Handle, DeclareSuspicion, GossipCheck, Check;
  }

  /** The message answers probe `n` of `target`: an Ack of the target itself, or a proxy's word of it. */
  predicate Answers(msg: Message, n: nat, target: NodeID) {
    msg.seqNum == n && ((msg.kind.Ack? && msg.sender == target) || (msg.kind.IndirectAck? && msg.target == target))
  }

  /** A pending probe is signalled by an answer to it and by nothing else; who answered is noted. */
  lemma SignalledExactly(cfg: Config, p: Proc, a: Action, n: nat)
    requires Enabled(cfg, p, a) && n in p.probes && n in Act(cfg, p, a).probes && !a.Begin?
    ensures var before, after := p.probes[n], Act(cfg, p, a).probes[n];
      && after.target == before.target
      && (after.signalled <==> before.signalled || (a.Receive? && Answers(a.msg, n, before.target)))
      && (after.directAck <==> before.directAck || (a.Receive? && a.msg.kind.Ack? && Answers(a.msg, n, before.target)))
      && after.indirectAcks == before.indirectAcks
           + (if a.Receive? && a.msg.kind.IndirectAck? && Answers(a.msg, n, before.target) then {a.msg.sender} else {})
  {
    hide Handle, DeclareSuspicion, GossipCheck, Check, GossipRound, PingCheck, RunTask, Live, Selection, Rejoin, LeaveGroup,
      ReceiveEnabled, Enumerates;
    if a.Receive? {
      SignalledHandling(cfg, p, a, n);
    }
  }

  lemma SignalledHandling(cfg: Config, p: Proc, a: Action, n: nat)
    requires a.Receive? && ReceiveEnabled(p, a) && n in p.probes
    ensures var p' := Handle(cfg, p, a);
      && p'.phase == p.phase && n in p'.probes
      && var before, after := p.probes[n], p'.probes[n];
      && after.target == before.target
      && (after.signalled <==> before.signalled || Answers(a.msg, n, before.target))
      && (after.directAck <==> before.directAck || (a.msg.kind.Ack? && Answers(a.msg, n, before.target)))
      && after.indirectAcks == before.indirectAcks
           + (if a.msg.kind.IndirectAck? && Answers(a.msg, n, before.target) then {a.msg.sender} else {})
  {
    hide ProcessUpdates, HandleJoin, HandleJoinResponse, HandleAlive, ProcessSuspicion, Touch, ClearSuspect, HandleLeave,
      Reported, HandleHeartbeat, HandleConfirm, Live, Refresh, Notify, ReceiveEnabled, SignalDirect, SignalIndirect, Answers;
    assert Handle(cfg, p, a).phase == p.phase;
    var msg := a.msg;
    Signals(p.probes, msg, n);
    var probes := Handle(cfg, p, a).probes;
    assert probes == if msg.kind.Ack? then SignalDirect(p.probes, msg.seqNum, msg.sender)
                     else if msg.kind.IndirectAck? then SignalIndirect(p.probes, msg.seqNum, msg.target, msg.sender)
                     else p.probes;
    assert !msg.kind.Ack? && !msg.kind.IndirectAck? ==> !Answers(msg, n, p.probes[n].target) by {
      OnlyAcksAnswer(msg, n, p.probes[n].target);
    }
  }

  lemma OnlyAcksAnswer(msg: Message, n: nat, target: NodeID)
    ensures Answers(msg, n, target) ==> msg.kind.Ack? || msg.kind.IndirectAck?
  {
  }

  lemma Signals(probes: map<nat, Probe>, msg: Message, n: nat)
    requires n in probes
    ensures var after := SignalDirect(probes, msg.seqNum, msg.sender);
      n in after && (msg.kind.Ack? ==>
        after[n] == if Answers(msg, n, probes[n].target) then probes[n].(directAck := true, signalled := true) else probes[n])
    ensures var after := SignalIndirect(probes, msg.seqNum, msg.target, msg.sender);
      n in after && (msg.kind.IndirectAck? ==>
        after[n] == if Answers(msg, n, probes[n].target)
                    then probes[n].(indirectAcks := probes[n].indirectAcks + {msg.sender}, signalled := true) else probes[n])
  {
  }

  /** Probe `n` of `target` is what the ping loop of `p` waits for. */
  predicate Waiting(p: Proc, n: nat, target: NodeID) {
    !p.phase.Idle? && p.phase.seqNum == n && n in p.probes && p.probes[n].target == target
  }

  /** An answer in time ends the period without suspicion of anybody. */
  lemma AnswerEndsPeriod(cfg: Config, p: Proc, a: Action, n: nat, target: NodeID)
    requires Enabled(cfg, p, a) && Waiting(p, n, target) && a.Receive? && Answers(a.msg, n, target)
    ensures var p' := Act(cfg, p, a);
      && Enabled(cfg, p', Acked)
      && Act(cfg, p', Acked).phase.Idle? && Act(cfg, p', Acked).core == p'.core
  {
    hide Handle, ReceiveEnabled, DeclareSuspicion, GossipCheck, Check;
    ReceiveActs(cfg, p, a);
    SignalledHandling(cfg, p, a, n);
  }

  // ----- a direct probe

  /** Step `st` has process `i` handle `msg`. */
  predicate Handles(s: State, st: Step, i: nat, msg: Message) {
    st.Do? && st.i == i && i in s.procs && st.a.Receive? && st.a.msg == msg
  }

  predicate Does(s: State, st: Step, i: nat, a: Action) {
    st.Do? && st.i == i && i in s.procs && st.a == a
  }

  /** Process `i`'s step leaves a packet in flight for good. */
  lemma SentInFlight(cfg: Config, states: seq<State>, steps: seq<Step>, a: nat, i: nat, b: nat, pk: Packet)
    requires Path(cfg, states, steps) && a < b < |states| && steps[a].Do? && steps[a].i == i && i in states[a].procs
    requires Enabled(cfg, states[a].procs[i], steps[a].a) && pk in Act(cfg, states[a].procs[i], steps[a].a).core.out
    ensures i in states[a + 1].procs && states[a + 1].procs[i] == Act(cfg, states[a].procs[i], steps[a].a)
    ensures InFlight(states[b], pk)
  {
    hide Act, Enabled;
    StaysInFlight(cfg, states, steps, i, pk, a + 1, b);
  }

  /** The Ping of the period that process `i` begins in step `a`. */
  ghost function PingOf(cfg: Config, p: Proc, target: NodeID, now: int): Message {
    var log := Live(p.core.log, now);
    Message(Ping, p.core.local, target, p.core.own, p.seqNum + 1, log[..Min(5, |log|)])
  }

  /** A direct probe from end to end: process `i` begins a period (step `a`); its Ping reaches its target, process `j`
      (step `b`); the target's Ack comes back to `i` while the ping loop still waits (step `e`), whether for the direct
      answer or for a proxy's; and `i` ends the period without suspecting anybody. */
  lemma DirectProbe(cfg: Config, states: seq<State>, steps: seq<Step>, a: nat, i: nat, target: NodeID, now: int, b: nat, j: nat,
                    e: nat)
    requires Path(cfg, states, steps) && a < b < e < |steps|
    requires Does(states[a], steps[a], i, Begin(target, now))
    requires var p := states[a].procs[i];
      Handles(states[b], steps[b], j, PingOf(cfg, p, target, now)) && states[b].procs[j].core.local == target
    ensures var p := states[a].procs[i];
      var ack := Message(Ack, target, p.core.local, states[b].procs[j].core.own, p.seqNum + 1, []);
      && InFlight(states[b], Packet(PingOf(cfg, p, target, now), target.Address()))
      && InFlight(states[e], Packet(ack, p.core.local.Address()))
      && (Handles(states[e], steps[e], i, ack) && Waiting(states[e].procs[i], p.seqNum + 1, target) ==>
            && i in states[e + 1].procs && Enabled(cfg, states[e + 1].procs[i], Acked)
            && Act(cfg, states[e + 1].procs[i], Acked).phase.Idle?
            && Act(cfg, states[e + 1].procs[i], Acked).core == states[e + 1].procs[i].core)
  {
    hide Act, Enabled, Live, InFlight, Waiting;
    var p := states[a].procs[i];
    ProbeSent(cfg, p, steps[a].a);
    SentInFlight(cfg, states, steps, a, i, b, Packet(PingOf(cfg, p, target, now), target.Address()));
    PingAnswered(cfg, states[b].procs[j], steps[b].a);
    var ack := Message(Ack, target, p.core.local, states[b].procs[j].core.own, p.seqNum + 1, []);
    SentInFlight(cfg, states, steps, b, j, e, Packet(ack, p.core.local.Address()));
    if Handles(states[e], steps[e], i, ack) && Waiting(states[e].procs[i], p.seqNum + 1, target) {
      AnswerEndsPeriod(cfg, states[e].procs[i], steps[e].a, p.seqNum + 1, target);
    }
  }

  // ----- an indirect probe

  /** Process `y`'s proxy `w` is neither answered for nor given up from step `b` up to step `d`. */
  ghost predicate ProxyRuns(steps: seq<Step>, y: nat, w: nat, b: nat, d: nat)
    requires d <= |steps|
  {
    forall t :: b <= t < d ==> steps[t] != Do(y, Action.ForwardAck(w)) && steps[t] != Do(y, ProxyTimeout(w))
  }

  /** What the proxy has heard, once it has heard it, stays. */
  predicate SameProxy(w: Waiter, w': Waiter) {
    w' == w || (w.received.None? && w'.(received := None) == w)
  }

  lemma {:induction false} ProxyPersists(cfg: Config, states: seq<State>, steps: seq<Step>, y: nat, w: nat, b: nat, d: nat)
    requires Path(cfg, states, steps) && b <= d <= |steps| && ProxyRuns(steps, y, w, b, d)
    requires y in states[b].procs && w in states[b].procs[y].waiters
    ensures y in states[d].procs && w in states[d].procs[y].waiters
    ensures SameProxy(states[b].procs[y].waiters[w], states[d].procs[y].waiters[w])
    decreases d - b
  {
    hide Act, Enabled, InFlight;
    if b < d {
      ProxyPersists(cfg, states, steps, y, w, b, d - 1);
      var s, st := states[d - 1], steps[d - 1];
      if st.Do? && st.i == y {
        ProxyStays(cfg, s.procs[y], st.a, w);
      }
    }
  }

  function RequestOf(p: Proc): Message
    requires p.phase.Direct?
  {
    Message(IndirectPing, p.core.local, p.phase.target, p.core.own, p.phase.seqNum, p.phase.updates)
  }

  /** What the helper `p'` sends on having taken up the request. */
  function RelayOf(p': Proc, request: Message): Message {
    Message(Ping, p'.core.local, request.target, p'.core.own, request.seqNum, p'.core.log[..Min(5, |p'.core.log|)])
  }

  /** The way out: process `i` gets no answer and asks `h` (step `a`); the request reaches `y` (step `b`), whose Ping
      reaches the target, process `j` (step `c`); the target's Ack is on its way back to `y` (state `d`), where a
      proxy waits for it. */
  lemma RequestReachesTarget(cfg: Config, states: seq<State>, steps: seq<Step>, a: nat, i: nat, h: NodeID, b: nat, y: nat,
                             c: nat, j: nat, d: nat)
    requires Path(cfg, states, steps) && a < b < c < d < |states|
    requires steps[a].Do? && steps[a].i == i && i in states[a].procs && steps[a].a.NoDirectAck? && h in steps[a].a.helpers
    requires states[a].procs[i].phase.Direct? && Handles(states[b], steps[b], y, RequestOf(states[a].procs[i]))
    requires y in states[b + 1].procs
    requires Handles(states[c], steps[c], j, RelayOf(states[b + 1].procs[y], RequestOf(states[a].procs[i])))
    requires states[c].procs[j].core.local == states[a].procs[i].phase.target
    ensures var p, w := states[a].procs[i], steps[b].a.waiter;
      var helper := states[b + 1].procs[y];
      var ack := Message(Ack, p.phase.target, helper.core.local, states[c].procs[j].core.own, p.phase.seqNum, []);
      && InFlight(states[b], Packet(RequestOf(p), h.Address()))
      && w in helper.waiters && helper.waiters[w] == Waiter(p.core.local, p.phase.target, p.phase.seqNum, None)
      && Key(p.phase.seqNum, p.phase.target) in helper.handles && helper.handles[Key(p.phase.seqNum, p.phase.target)] == w
      && InFlight(states[c], Packet(RelayOf(helper, RequestOf(p)), p.phase.target.Address()))
      && InFlight(states[d], Packet(ack, helper.core.local.Address()))
  {
    hide Act, Enabled, InFlight;
    var p := states[a].procs[i];
    HelpersAsked(cfg, p, steps[a].a, h);
    SentInFlight(cfg, states, steps, a, i, b, Packet(RequestOf(p), h.Address()));
    RequestRelayed(cfg, states[b].procs[y], steps[b].a);
    var relay := RelayOf(Act(cfg, states[b].procs[y], steps[b].a), RequestOf(p));
    SentInFlight(cfg, states, steps, b, y, c, Packet(relay, p.phase.target.Address()));
    PingAnswered(cfg, states[c].procs[j], steps[c].a);
    var helper := states[b + 1].procs[y];
    var ack := Message(Ack, p.phase.target, helper.core.local, states[c].procs[j].core.own, p.phase.seqNum, []);
    SentInFlight(cfg, states, steps, c, j, d, Packet(ack, helper.core.local.Address()));
  }

  /** The way back: a proxy `w` of process `y` for `requester`, `target` and `n` runs from state `b` on; an Ack with
      that number from the target reaches it (step `d`) while the handle leads to it and it has heard nothing; it
      passes the answer on (step `e`); and when that reaches the process `i` that waits for it (step `f`), the
      period ends without suspicion. */
  lemma AnswerReachesRequester(cfg: Config, states: seq<State>, steps: seq<Step>, b: nat, y: nat, w: nat, d: nat, ack: Message,
                               e: nat, f: nat, i: nat)
    requires Path(cfg, states, steps) && b <= d < e < f < |steps| && ProxyRuns(steps, y, w, b, e)
    requires y in states[b].procs && w in states[b].procs[y].waiters && ack.kind.Ack?
    requires var wt := states[b].procs[y].waiters[w]; wt.seqNum == ack.seqNum && wt.target == ack.sender && wt.received.None?
    requires Handles(states[d], steps[d], y, ack)
    requires var p := states[d].procs[y];
      && Key(ack.seqNum, ack.sender) in p.handles && p.handles[Key(ack.seqNum, ack.sender)] == w
      && w in p.waiters && p.waiters[w].received.None?
    requires Does(states[e], steps[e], y, Action.ForwardAck(w))
    ensures var wt := states[b].procs[y].waiters[w];
      var answer := Message(IndirectAck, states[e].procs[y].core.local, wt.target, ack.inc, wt.seqNum, []);
      && InFlight(states[f], Packet(answer, wt.requester.Address()))
      && (Handles(states[f], steps[f], i, answer) && Waiting(states[f].procs[i], wt.seqNum, wt.target) ==>
            && i in states[f + 1].procs && Enabled(cfg, states[f + 1].procs[i], Acked)
            && Act(cfg, states[f + 1].procs[i], Acked).phase.Idle?
            && Act(cfg, states[f + 1].procs[i], Acked).core == states[f + 1].procs[i].core)
  {
    hide Act, Enabled, InFlight, Waiting;
    var wt := states[b].procs[y].waiters[w];
    ProxyPersists(cfg, states, steps, y, w, b, d);
    ProxyHears(cfg, states[d].procs[y], steps[d].a, w);
    ProxyPersists(cfg, states, steps, y, w, d + 1, e);
    AnswerForwarded(cfg, states[e].procs[y], w);
    var answer := Message(IndirectAck, states[e].procs[y].core.local, wt.target, ack.inc, wt.seqNum, []);
    SentInFlight(cfg, states, steps, e, y, f, Packet(answer, wt.requester.Address()));
    if Handles(states[f], steps[f], i, answer) && Waiting(states[f].procs[i], wt.seqNum, wt.target) {
      AnswerEndsPeriod(cfg, states[f].procs[i], steps[f].a, wt.seqNum, wt.target);
    }
  }

  /** An indirect probe from end to end. Whoever asks through a helper that the target answers, and still waits when
      the proxy's word arrives, ends its period without suspecting the target. */
  lemma IndirectProbe(cfg: Config, states: seq<State>, steps: seq<Step>, a: nat, i: nat, h: NodeID, b: nat, y: nat, c: nat, j: nat,
                      d: nat, e: nat, f: nat)
    requires Path(cfg, states, steps) && a < b < c < d < e < f < |steps|
    requires steps[a].Do? && steps[a].i == i && i in states[a].procs && steps[a].a.NoDirectAck? && h in steps[a].a.helpers
    requires states[a].procs[i].phase.Direct? && Handles(states[b], steps[b], y, RequestOf(states[a].procs[i]))
    requires y in states[b + 1].procs
    requires Handles(states[c], steps[c], j, RelayOf(states[b + 1].procs[y], RequestOf(states[a].procs[i])))
    requires states[c].procs[j].core.local == states[a].procs[i].phase.target
    requires var p, helper, w := states[a].procs[i], states[b + 1].procs[y], steps[b].a.waiter;
      var n, target := p.phase.seqNum, p.phase.target;
      && ProxyRuns(steps, y, w, b + 1, e)
      && Handles(states[d], steps[d], y, Message(Ack, target, helper.core.local, states[c].procs[j].core.own, n, []))
      && Key(n, target) in states[d].procs[y].handles && states[d].procs[y].handles[Key(n, target)] == w
      && w in states[d].procs[y].waiters && states[d].procs[y].waiters[w].received.None?
      && Does(states[e], steps[e], y, Action.ForwardAck(w))
    ensures var p := states[a].procs[i];
      var n, target := p.phase.seqNum, p.phase.target;
      var answer := Message(IndirectAck, states[e].procs[y].core.local, target, states[c].procs[j].core.own, n, []);
      && InFlight(states[f], Packet(answer, p.core.local.Address()))
      && (Handles(states[f], steps[f], i, answer) && Waiting(states[f].procs[i], n, target) ==>
            && i in states[f + 1].procs && Enabled(cfg, states[f + 1].procs[i], Acked)
            && Act(cfg, states[f + 1].procs[i], Acked).phase.Idle?
            && Act(cfg, states[f + 1].procs[i], Acked).core == states[f + 1].procs[i].core)
  {
    hide Guard, After, Act, Enabled, InFlight, Waiting, ProxyRuns;
    var p, helper := states[a].procs[i], states[b + 1].procs[y];
    RequestReachesTarget(cfg, states, steps, a, i, h, b, y, c, j, d);
    var ack := Message(Ack, p.phase.target, helper.core.local, states[c].procs[j].core.own, p.phase.seqNum, []);
    AnswerReachesRequester(cfg, states, steps, b + 1, y, steps[b].a.waiter, d, ack, e, f, i);
  }
}
