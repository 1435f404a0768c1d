/** The ping/ack detector: probes, proxy probes and its own timer (detectors/pingack.go). */
module PingAckSpec {
  import opened Types
  import opened SuspicionSpec
  import opened UpdateLogSpec
  import opened DetectorSpec

  /** How many proxies one indirect probe asks. */
  const K := 3

  /** A probe waiting for an acknowledgement; `signalled` is the one-slot channel of the ping loop. */
  datatype Probe = Probe(target: NodeID, startTime: int, directAck: bool, indirectAcks: set<NodeID>, signalled: bool)

  /** A proxy goroutine waiting for the target's acknowledgement; `received` is its one-slot channel. */
  datatype Waiter = Waiter(requester: NodeID, target: NodeID, seqNum: nat, received: Option<int>)

  /** Where the ping loop is inside one protocol period. */
  datatype Phase =
    | Idle
    | Direct(target: NodeID, seqNum: nat, updates: seq<Update>)
    | Indirect(target: NodeID, seqNum: nat)

  datatype Key = Key(seqNum: nat, node: NodeID)

  /** One process. `waiters` are the proxy goroutines still running, `handles` the table through which
      an acknowledgement finds the latest of them. */
  datatype Proc = Proc(
    core: Core,
    seqNum: nat,
    probes: map<nat, Probe>,
    phase: Phase,
    waiters: map<nat, Waiter>,
    handles: map<Key, nat>)

  /** Every handle leads to a running waiter for that very sequence number and target. */
  ghost predicate Linked(p: Proc) {
    forall key :: key in p.handles ==>
      && p.handles[key] in p.waiters
      && p.waiters[p.handles[key]].seqNum == key.seqNum
      && p.waiters[p.handles[key]].target == key.node
  }

  function Send(c: Core, msg: Message, dest: Addr): Core {
    c.(out := c.out + {Packet(msg, dest)})
  }

  function DeclareSuspicion(c: Core, o: Options, susp: bool, id: NodeID, now: int): Core {
    if susp then
      var c' :=
        if id !in c.table then PutLogged(c, id, Rec(0, Suspected, At(now), At(now)), now)
        else if !c.table[id].status.Suspected? then
          PutLogged(c, id, c.table[id].(status := Suspected, since := At(now)), now)
        else c;
      ProcessSuspicion(c', o, c.local, id, c'.table[id].inc, now)
    else if id in c.table then
      Append(c.(table := c.table - {id}), Update(id, c.table[id].inc, Failed, now))
    else
      c
  }

  // ----- the ping loop

  /** A period that probes `target`. */
  function BeginPeriod(p: Proc, target: NodeID, now: int): Proc {
    var n := p.seqNum + 1;
    var c := Expire(p.core, now);
    var updates := Prefix(c.log, 5);
    var ping := Message(Ping, c.local, target, c.own, n, updates);
    p.(core := Send(c, ping, target.Address()),
       seqNum := n,
       probes := p.probes[n := Probe(target, now, false, {}, false)],
       phase := Direct(target, n, updates))
  }

  predicate Signalled(p: Proc, n: nat) {
    n in p.probes && p.probes[n].signalled
  }

  function EndPeriod(p: Proc): Proc
    requires !p.phase.Idle?
  {
    p.(probes := p.probes - {p.phase.seqNum}, phase := Idle)
  }

  /** The packets that ask `helpers` to probe `target`. */
  function PingRequests(c: Core, target: NodeID, n: nat, updates: seq<Update>, helpers: seq<NodeID>): set<Packet> {
    set h | h in helpers :: Packet(Message(IndirectPing, c.local, target, c.own, n, updates), h.Address())
  }

  /** No direct acknowledgement in time: ask `helpers`, or give up when there are none. */
  function DirectTimeout(p: Proc, o: Options, susp: bool, helpers: seq<NodeID>, now: int): Proc
    requires p.phase.Direct?
  {
    var Direct(target, n, updates) := p.phase;
    if helpers == [] then
      EndPeriod(p).(core := DeclareSuspicion(p.core, o, susp, target, now))
    else
      p.(core := p.core.(out := p.core.out + PingRequests(p.core, target, n, updates, helpers)),
         phase := Indirect(target, n))
  }

  function IndirectTimeout(p: Proc, o: Options, susp: bool, now: int): Proc
    requires p.phase.Indirect?
  {
    EndPeriod(p).(core := DeclareSuspicion(p.core, o, susp, p.phase.target, now))
  }

  // ----- handlers

  function HandlePing(p: Proc, o: Options, susp: bool, msg: Message, now: int): Proc {
    var ack := Message(Ack, p.core.local, msg.sender, p.core.own, msg.seqNum, []);
    var c := Touch(Send(p.core, ack, msg.sender.Address()), msg.sender, msg.inc, now);
    p.(core := ProcessUpdates(c, o, susp, msg.members, msg.sender, now))
  }

  function SignalDirect(probes: map<nat, Probe>, n: nat, sender: NodeID): map<nat, Probe> {
    if n in probes && probes[n].target == sender then
      probes[n := probes[n].(directAck := true, signalled := true)]
    else
      probes
  }

  function SignalIndirect(probes: map<nat, Probe>, n: nat, target: NodeID, sender: NodeID): map<nat, Probe> {
    if n in probes && probes[n].target == target then
      probes[n := probes[n].(indirectAcks := probes[n].indirectAcks + {sender}, signalled := true)]
    else
      probes
  }

  /** The waiter the key leads to takes `inc`, unless its channel is already full. */
  function Notify(p: Proc, key: Key, inc: int): map<nat, Waiter> {
    if key in p.handles && p.handles[key] in p.waiters && p.waiters[p.handles[key]].received.None? then
      p.waiters[p.handles[key] := p.waiters[p.handles[key]].(received := Some(inc))]
    else
      p.waiters
  }

  function HandleAck(p: Proc, msg: Message, now: int): Proc {
    p.(core := ClearSuspect(Touch(p.core, msg.sender, msg.inc, now), msg.sender, msg.inc),
       probes := SignalDirect(p.probes, msg.seqNum, msg.sender),
       waiters := Notify(p, Key(msg.seqNum, msg.sender), msg.inc))
  }

  /** The requester's heartbeat is refreshed, and nothing else of its record. */
  function Refresh(c: Core, id: NodeID, inc: int, now: int): Core {
    if id in c.table && inc >= c.table[id].inc then
      c.(table := c.table[id := c.table[id].(heartbeat := At(now))])
    else
      c
  }

  /** `w` names the new proxy goroutine. */
  function HandleIndirectPing(p: Proc, o: Options, susp: bool, msg: Message, w: nat, now: int): Proc {
    var c := ProcessUpdates(Refresh(p.core, msg.sender, msg.inc, now), o, susp, msg.members, msg.sender, now);
    var c' := Expire(c, now);
    var ping := Message(Ping, c'.local, msg.target, c'.own, msg.seqNum, Prefix(c'.log, 5));
    p.(core := Send(c', ping, msg.target.Address()),
       waiters := p.waiters[w := Waiter(msg.sender, msg.target, msg.seqNum, None)],
       handles := p.handles[Key(msg.seqNum, msg.target) := w])
  }

  function Reported(c: Core, target: NodeID, inc: int, now: int): Core {
    if target in c.table && inc >= c.table[target].inc then
      var r := c.table[target];
      if r.status.Alive? then
        c.(table := c.table[target := r.(inc := inc, heartbeat := At(now))])
      else
        PutLogged(c, target, Rec(inc, Alive, At(now), Zero), now)
    else
      c
  }

  function HandleIndirectAck(p: Proc, msg: Message, now: int): Proc {
    p.(core := ClearSuspect(Reported(p.core, msg.target, msg.inc, now), msg.target, msg.inc),
       probes := SignalIndirect(p.probes, msg.seqNum, msg.target, msg.sender))
  }

  // ----- proxy goroutines

  function Retire(p: Proc, w: nat): Proc
    requires w in p.waiters
  {
    p.(waiters := p.waiters - {w}, handles := p.handles - {Key(p.waiters[w].seqNum, p.waiters[w].target)})
  }

  function Forward(p: Proc, w: nat): Proc
    requires w in p.waiters && p.waiters[w].received.Some?
  {
    var wt := p.waiters[w];
    var ack := Message(IndirectAck, p.core.local, wt.target, wt.received.value, wt.seqNum, []);
    Retire(p, w).(core := Send(p.core, ack, wt.requester.Address()))
  }

  // ----- the detector's own failure check

  predicate Overdue(r: Rec, ts: Timeouts, now: int) {
    r.status.Suspected? && Elapsed(now, r.since) > ts.suspicion
  }

  function OverdueSet(c: Core, ts: Timeouts, now: int): set<NodeID> {
    set k | k in c.table && k != c.local && Overdue(c.table[k], ts, now)
  }

  function PingCheck(c: Core, ts: Timeouts, now: int, order: seq<NodeID>): Core {
    c.(table := c.table - OverdueSet(c, ts, now), log := c.log + FailedRecords(order, c.table, now))
  }
}
