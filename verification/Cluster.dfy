/** The cluster as a transition system: any number of processes, a network that loses, duplicates and
    reorders packets, and callbacks that run late. One step is one handler, timer tick or callback. */
module Cluster {
  import opened Types
  import opened SuspicionSpec
  import opened DetectorSpec
  import opened PingAckSpec
  import opened GossipSpec
  import opened CallbackSpec

  datatype Config = Config(opts: Options, ts: Timeouts)

  /** What a process may do next. Every choice the code leaves open is an argument: the clock reading,
      whether suspicion is enabled, the order of a map traversal, the outcome of a random selection. */
  datatype Action =
    | Receive(msg: Message, susp: bool, now: int, displaced: seq<NodeID>, listing: seq<NodeID>, waiter: nat)
    | ManagerTick(now: int)
    | PingTick(now: int, order: seq<NodeID>)
    | GossipTick(susp: bool, now: int, silent: seq<NodeID>, removed: seq<NodeID>)
    | Round(targets: seq<NodeID>, extras: seq<NodeID>, now: int)
    | Begin(target: NodeID, now: int)
    | Acked
    | NoDirectAck(susp: bool, helpers: seq<NodeID>, now: int)
    | NoIndirectAck(susp: bool, now: int)
    | ForwardAck(w: nat)
    | ProxyTimeout(w: nat)
    | Callback(task: Task, now: int)
    | Reidentify(id: NodeID, dest: Addr, now: int)
    | Depart

  ghost predicate ReceiveEnabled(p: Proc, a: Action)
    requires a.Receive?
  {
    && (a.msg.kind.Join? ==>
          && Enumerates(a.displaced, Displaced(p.core.table, a.msg.sender))
          && Enumerates(a.listing, JoinedTable(p.core, a.msg.sender, a.msg.inc, a.now).Keys))
    && (a.msg.kind.IndirectPing? ==> a.waiter !in p.waiters)
  }

  ghost predicate Enabled(cfg: Config, p: Proc, a: Action) {
    var c := p.core;
    match a
    case Receive(_, _, _, _, _, _) => ReceiveEnabled(p, a)
    case ManagerTick(_) => true
    case PingTick(now, order) => Enumerates(order, OverdueSet(c, cfg.ts, now))
    case GossipTick(susp, now, silent, removed) =>
      && Enumerates(silent, SilentSet(c, cfg.ts, susp, now))
      && Enumerates(removed, RemovableSet(c, cfg.ts, susp, now))
    case Round(targets, extras, _) =>
      && Selection(c.table, c.local, {c.local}, FANOUT, targets)
      && Selection(c.table, c.local, {c.local}, 2, extras)
      && targets != []
    case Begin(target, _) => p.phase.Idle? && Selection(c.table, c.local, {c.local}, 1, [target])
    case Acked => !p.phase.Idle? && Signalled(p, p.phase.seqNum)
    case NoDirectAck(_, helpers, _) =>
      p.phase.Direct? && Selection(c.table, c.local, {c.local, p.phase.target}, K, helpers)
    case NoIndirectAck(_, _) => p.phase.Indirect?
    case ForwardAck(w) => w in p.waiters && p.waiters[w].received.Some?
    case ProxyTimeout(w) => w in p.waiters
    case Callback(task, _) => task in c.tasks
    case Reidentify(id, _, _) => id.Address() == c.local.Address()
    case Depart => true
  }

  ghost function Handle(cfg: Config, p: Proc, a: Action): Proc
    requires a.Receive? && ReceiveEnabled(p, a)
  {
    var Receive(msg, susp, now, displaced, listing, w) := a;
    match msg.kind
    case Heartbeat => p.(core := HandleHeartbeat(p.core, cfg.opts, susp, msg, now))
    case Ping => HandlePing(p, cfg.opts, susp, msg, now)
    case Ack => HandleAck(p, msg, now)
    case IndirectPing => HandleIndirectPing(p, cfg.opts, susp, msg, w, now)
    case IndirectAck => HandleIndirectAck(p, msg, now)
    case Join => p.(core := HandleJoin(p.core, msg.sender, msg.inc, now, displaced, listing))
    case JoinResponse => p.(core := HandleJoinResponse(p.core, msg.members, now))
    case Leave => p.(core := HandleLeave(p.core, msg.sender, now))
    case Suspect =>
      p.(core := if susp then ProcessSuspicion(p.core, cfg.opts, msg.sender, msg.target, msg.inc, now) else p.core)
    case AliveMsg => p.(core := HandleAlive(p.core, msg.sender, msg.inc, now))
    case Confirm => p.(core := HandleConfirm(p.core, msg.target, msg.inc, now))
  }

  ghost function Act(cfg: Config, p: Proc, a: Action): Proc
    requires Enabled(cfg, p, a)
  {
    match a
    case Receive(_, _, _, _, _, _) => Handle(cfg, p, a)
    case ManagerTick(now) => p.(core := Check(p.core, cfg.opts, now))
    case PingTick(now, order) => p.(core := PingCheck(p.core, cfg.ts, now, order))
    case GossipTick(susp, now, silent, removed) =>
      p.(core := GossipCheck(p.core, cfg.opts, cfg.ts, susp, now, silent, removed))
    case Round(targets, extras, now) => p.(core := GossipRound(p.core, targets, extras, now))
    case Begin(target, now) => BeginPeriod(p, target, now)
    case Acked => EndPeriod(p)
    case NoDirectAck(susp, helpers, now) => DirectTimeout(p, cfg.opts, susp, helpers, now)
    case NoIndirectAck(susp, now) => IndirectTimeout(p, cfg.opts, susp, now)
    case ForwardAck(w) => Forward(p, w)
    case ProxyTimeout(w) => Retire(p, w)
    case Callback(task, now) => p.(core := RunTask(p.core, task, now))
    case Reidentify(id, dest, now) => p.(core := Rejoin(p.core, id, dest, now))
    case Depart => p.(core := LeaveGroup(p.core))
  }

  /** `owner` remembers which process each identity was given to; `refutations` counts the
      self-refutations of the whole run. */
  datatype State = State(procs: map<nat, Proc>, owner: map<NodeID, nat>, refutations: int)

  function Boot(id: NodeID, now: int): Proc {
    Proc(Core(id, map[id := Rec(0, Alive, At(now), Zero)], 0, [], map[], {}, multiset{}, 0),
         0, map[], Idle, map[], map[])
  }

  datatype Step = Start(i: nat, id: NodeID, now: int) | Do(i: nat, a: Action)

  predicate InFlight(s: State, pk: Packet) {
    exists q :: q in s.procs && pk in s.procs[q].core.out
  }

  ghost predicate Guard(cfg: Config, s: State, st: Step) {
    match st
    case Start(i, id, _) => i !in s.procs && id !in s.owner
    case Do(i, a) =>
      && i in s.procs
      && Enabled(cfg, s.procs[i], a)
      && (a.Receive? ==> InFlight(s, Packet(a.msg, s.procs[i].core.local.Address())))
      && (a.Reidentify? && a.id in s.owner ==> s.owner[a.id] == i)
  }

  ghost function After(cfg: Config, s: State, st: Step): State
    requires Guard(cfg, s, st)
  {
    match st
    case Start(i, id, now) => s.(procs := s.procs[i := Boot(id, now)], owner := s.owner[id := i])
    case Do(i, a) =>
      var p' := Act(cfg, s.procs[i], a);
      State(s.procs[i := p'],
            if a.Reidentify? then s.owner[a.id := i] else s.owner,
            s.refutations + p'.core.refutations - s.procs[i].core.refutations)
  }

  const EMPTY := State(map[], map[], 0)

  /** `states` are the states passed through by taking `steps` one after the other. */
  ghost predicate Path(cfg: Config, states: seq<State>, steps: seq<Step>) {
    && |states| == |steps| + 1
    && forall j :: 0 <= j < |steps| ==> Guard(cfg, states[j], steps[j]) && states[j + 1] == After(cfg, states[j], steps[j])
  }

  /** A path from the empty cluster. */
  ghost predicate Run(cfg: Config, states: seq<State>, steps: seq<Step>) {
    Path(cfg, states, steps) && states[0] == EMPTY
  }

  /** The run without its last step. */
  lemma RunPrefix(cfg: Config, states: seq<State>, steps: seq<Step>)
    requires Run(cfg, states, steps) && steps != []
    ensures var n := |steps| - 1;
      && Run(cfg, states[..n + 1], steps[..n])
      && states[..n + 1][n] == states[n]
      && Guard(cfg, states[n], steps[n]) && states[n + 1] == After(cfg, states[n], steps[n])
  {
  }

  // ----- the transition behind each kind of step

  lemma ReceiveActs(cfg: Config, p: Proc, a: Action)
    requires Enabled(cfg, p, a) && a.Receive?
    ensures ReceiveEnabled(p, a) && Act(cfg, p, a) == Handle(cfg, p, a)
  {
    hide Handle, ReceiveEnabled, DeclareSuspicion, GossipCheck, Check, GossipRound, RunTask;
  }

  lemma CallbackActs(cfg: Config, p: Proc, a: Action)
    requires Enabled(cfg, p, a) && a.Callback?
    ensures Act(cfg, p, a) == p.(core := RunTask(p.core, a.task, a.now)) && a.task in p.core.tasks
    ensures RunTask(p.core, a.task, a.now).refutations == p.core.refutations
  {
    hide Handle, DeclareSuspicion, GossipCheck, Broadcast;
  }

  lemma ReidentifyActs(cfg: Config, p: Proc, a: Action)
    requires Enabled(cfg, p, a) && a.Reidentify?
    ensures Act(cfg, p, a) == p.(core := Rejoin(p.core, a.id, a.dest, a.now))
  {
    hide Handle, DeclareSuspicion, GossipCheck;
  }
}
