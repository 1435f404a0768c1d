/** The ping/ack detector as an object (detectors/pingack.go). What the code does between two waits is one
    method here; `phase` holds where the ping loop is inside a protocol period and what it remembers. */
module PingAckManagers {
  import opened Types
  import opened SuspicionSpec
  import opened UpdateLogSpec
  import opened DetectorSpec
  import opened PingAckSpec
  import opened MembershipLists
  import opened SuspicionManagers
  import opened Detectors
  import Spec = PingAckSpec

  class PendingPing {
    const target: NodeID
    const seqNum: nat
    const startTime: int
    var directAck: bool
    var indirectAcks: set<NodeID>
    var ackReceived: bool

    constructor (target: NodeID, seqNum: nat, startTime: int)
      ensures this.seqNum == seqNum && Value() == Probe(target, startTime, false, {}, false)
    {
      this.target, this.seqNum, this.startTime := target, seqNum, startTime;
      directAck, indirectAcks, ackReceived := false, {}, false;
    }

    function Value(): Probe
      reads this
    {
      Probe(target, startTime, directAck, indirectAcks, ackReceived)
    }
  }

  /** A proxy goroutine and its channel. `name` tells the goroutines apart. */
  class IndirectPingWaiter {
    const name: nat
    const requester: NodeID
    const target: NodeID
    const seqNum: nat
    var ch: Option<int>

    constructor (name: nat, requester: NodeID, target: NodeID, seqNum: nat)
      ensures this.name == name && Value() == Waiter(requester, target, seqNum, None)
    {
      this.name, this.requester, this.target, this.seqNum := name, requester, target, seqNum;
      ch := None;
    }

    function Value(): Waiter
      reads this
    {
      Waiter(requester, target, seqNum, ch)
    }
  }

  class PingAckManager {
    const base: Detector
    const membership: MembershipList
    const network: NetworkLayer
    const timeouts: Timeouts
    var seqNum: nat
    var pendingAcks: map<nat, PendingPing>
    var pendingIndirect: map<Key, IndirectPingWaiter>
    /** The proxy goroutines that have not ended. */
    var running: map<nat, IndirectPingWaiter>
    /** How many proxy goroutines have been started. */
    var spawned: nat
    var phase: Phase

    /** Each probe is filed under its own number; the handle of a proxy leads to a running goroutine, and
        to one for that very request. */
    ghost predicate Wired()
      reads this`pendingAcks, this`pendingIndirect, this`running, this`spawned
    {
      && (forall n :: n in pendingAcks ==> pendingAcks[n].seqNum == n)
      && (forall w :: w in running ==> running[w].name == w < spawned)
      && (forall key :: key in pendingIndirect ==>
            var w := pendingIndirect[key];
            w.name in running && running[w.name] == w && w.seqNum == key.seqNum && w.target == key.node)
    }

    ghost predicate Valid()
      reads this`pendingAcks, this`pendingIndirect, this`running, this`spawned, base.mgr`entries, membership`members,
            membership.members.Values, base.membership`members, base.membership.members.Values, base.mgr.entries.Values
    {
      base.membership == membership && base.network == network && base.Valid() && Wired()
    }

    ghost function Footprint(): set<object>
      reads this, base.mgr, base.membership, base.mgr.membership
    {
      {this} + base.Footprint() + pendingAcks.Values + running.Values + pendingIndirect.Values
    }

    ghost function Probes(): map<nat, Probe>
      reads this`pendingAcks, pendingAcks.Values
    {
      map n | n in pendingAcks :: pendingAcks[n].Value()
    }

    ghost function Waiters(): map<nat, Waiter>
      reads this`running, running.Values
    {
      map w | w in running :: running[w].Value()
    }

    ghost function Handles(): map<Key, nat>
      reads this`pendingIndirect
    {
      map key | key in pendingIndirect :: pendingIndirect[key].name
    }

    /** The state of the process as a value. */
    ghost function View(): Proc
      requires base.mgr.membership == base.membership && base.mgr.network == base.network
      reads this, base.mgr, base.membership, base.membership.members.Values, base.mgr.entries.Values, base.network,
            pendingAcks.Values, running.Values
    {
      Proc(base.View(), seqNum, Probes(), phase, Waiters(), Handles())
    }

    constructor (mgr: SuspicionManager, timeouts: Timeouts)
      requires mgr.Valid()
      ensures Valid() && base.mgr == mgr && this.timeouts == timeouts
      ensures View() == Proc(mgr.View(), 0, map[], Idle, map[], map[])
    {
      var d := new Detector(mgr, true);
      base, membership, network, this.timeouts := d, d.membership, d.network, timeouts;
      seqNum, pendingAcks, pendingIndirect, running, spawned, phase := 0, map[], map[], map[], 0, Idle;
    }

    lemma SameKeys()
      ensures Probes().Keys == pendingAcks.Keys && Waiters().Keys == running.Keys && Handles().Keys == pendingIndirect.Keys
    {
    }

    /** A waiter's handle, the goroutine behind it, and both as values. */
    lemma HandleOf(key: Key)
      requires Wired()
      ensures key in pendingIndirect <==> key in Handles()
      ensures key in pendingIndirect ==>
        && Handles()[key] == pendingIndirect[key].name && Handles()[key] in Waiters()
        && Waiters()[Handles()[key]] == pendingIndirect[key].Value()
    {
    }

    /** The values are linked as the objects are. */
    lemma Links()
      requires Valid()
      ensures Linked(View())
    {
      forall key | key in Handles()
        ensures Handles()[key] in Waiters()
        ensures Waiters()[Handles()[key]].seqNum == key.seqNum && Waiters()[Handles()[key]].target == key.node
      {
        HandleOf(key);
      }
    }

    // ----- the ping loop

    /** Starts a protocol period, if there is anyone to probe. */
    method BeginPeriod(now: int) returns (began: bool)
      requires Valid() && phase.Idle?
      modifies this`seqNum, this`pendingAcks, this`phase, membership`log, network
      ensures Valid() && fresh(pendingAcks.Values - old(pendingAcks.Values))
      ensures var c := old(View()).core;
        if began then
          && phase.Direct? && Selection(c.table, c.local, {c.local}, 1, [phase.target])
          && View() == Spec.BeginPeriod(old(View()), phase.target, now)
        else
          View() == old(View()) && Selection(c.table, c.local, {c.local}, 1, [])
    {
      var targets := membership.GetRandomMembers(1, {membership.local});
      if |targets| == 0 {
        assert Ids(targets) == [];
        return false;
      }
      var target := targets[0].id;
      assert Ids(targets) == [target];
      StartProbe(target, now);
      return true;
    }

    method StartProbe(target: NodeID, now: int)
      requires Valid() && phase.Idle?
      modifies this`seqNum, this`pendingAcks, this`phase, membership`log, network
      ensures Valid() && fresh(pendingAcks.Values - old(pendingAcks.Values))
      ensures phase.Direct? && phase.target == target
      ensures View() == Spec.BeginPeriod(old(View()), target, now)
    {
      hide SuspicionManager.View, PingAckManager.Probes, PingAckManager.Waiters, PingAckManager.Handles, Expire, Prefix,
           SuspicionManager.Valid, PingAckManager.Wired;
      seqNum := seqNum + 1;
      Track(target, now);
      var updates := base.SendPing(target, seqNum, now);
      phase := Direct(target, seqNum, updates);
    }

    /** Waits for the acknowledgement of the latest probe. */
    method Track(target: NodeID, now: int)
      requires Wired()
      modifies this`pendingAcks
      ensures Wired() && fresh(pendingAcks.Values - old(pendingAcks.Values))
      ensures Probes() == old(Probes())[seqNum := Probe(target, now, false, {}, false)]
    {
      var pending := new PendingPing(target, seqNum, now);
      pendingAcks := pendingAcks[seqNum := pending];
      SameKeys();
    }

    /** The wait is over, one way or the other: the probe is forgotten. */
    method EndPeriod()
      requires Valid() && !phase.Idle?
      modifies this`pendingAcks, this`phase
      ensures Valid() && pendingAcks.Values <= old(pendingAcks.Values)
      ensures View() == Spec.EndPeriod(old(View()))
    {
      hide SuspicionManager.View, PingAckManager.Waiters, PingAckManager.Handles;
      pendingAcks := pendingAcks - {phase.seqNum};
      phase := Idle;
    }

    /** Has the probe of the period been acknowledged? If so the period is over. */
    method AwaitAck() returns (acked: bool)
      requires Valid() && !phase.Idle?
      modifies this`pendingAcks, this`phase
      ensures Valid() && pendingAcks.Values <= old(pendingAcks.Values)
      ensures acked <==> Signalled(old(View()), old(phase).seqNum)
      ensures View() == if acked then Spec.EndPeriod(old(View())) else old(View())
    {
      hide SuspicionManager.View, PingAckManager.Waiters, PingAckManager.Handles;
      SameKeys();
      acked := phase.seqNum in pendingAcks && pendingAcks[phase.seqNum].ackReceived;
      if acked {
        EndPeriod();
      }
    }

    /** Nothing the shared part changes belongs to the probes and proxies. */
    lemma Apart()
      requires Valid()
      ensures this !in base.Footprint() && base !in base.Footprint()
      ensures pendingAcks.Values !! base.Footprint() && running.Values !! base.Footprint()
      ensures pendingIndirect.Values !! base.Footprint()
    {
    }

    // ----- suspecting a node

    /** The table part: `id` is suspected, as a new member if need be. Returns the recorded incarnation. */
    method MarkSuspect(id: NodeID, now: int) returns (inc: int)
      requires Valid()
      modifies membership`members, membership`log, membership.members.Values
      ensures Valid() && fresh(membership.members.Values - old(membership.members.Values))
      ensures var c := old(base.View());
        base.View() ==
          if id !in c.table then PutLogged(c, id, Rec(0, Suspected, At(now), At(now)), now)
          else if !c.table[id].status.Suspected? then
            PutLogged(c, id, c.table[id].(status := Suspected, since := At(now)), now)
          else c
      ensures id in base.View().table && base.View().table[id].inc == inc
    {
      hide SuspicionManager.View, PingAckManager.Wired;
      base.Sees(id);
      if id !in membership.members {
        base.File(id, Rec(0, Suspected, At(now), At(now)), now);
        return 0;
      }
      var r := membership.members[id].Record();
      if !r.status.Suspected? {
        base.File(id, r.(status := Suspected, since := At(now)), now);
      }
      return r.inc;
    }

    method DeclareSuspicion(id: NodeID, now: int)
      requires Valid()
      modifies base.Footprint()
      ensures Valid() && fresh(base.Footprint() - old(base.Footprint()))
      ensures base.View() == Spec.DeclareSuspicion(old(base.View()), base.mgr.opts, base.enableSuspicion, id, now)
    {
      hide SuspicionManager.View, ProcessSuspicion, PutLogged, PingAckManager.Wired, SuspicionManager.Valid;
      Apart();
      base.Sees(id);
      if base.enableSuspicion {
        var inc := MarkSuspect(id, now);
        base.Report(membership.local, id, inc, now);
      } else {
        base.Remove(id, now);
      }
    }

    /** Ends the period with a suspicion of its target. */
    method GiveUp(now: int)
      requires Valid() && !phase.Idle?
      modifies this`pendingAcks, this`phase, base.Footprint()
      ensures Valid() && fresh(base.Footprint() - old(base.Footprint())) && pendingAcks.Values <= old(pendingAcks.Values)
      ensures var p := old(View());
        View() == Spec.EndPeriod(p).(core :=
          Spec.DeclareSuspicion(p.core, base.mgr.opts, base.enableSuspicion, p.phase.target, now))
    {
      hide SuspicionManager.View, Spec.DeclareSuspicion, PingAckManager.Wired, PingAckManager.Probes, PingAckManager.Waiters,
           PingAckManager.Handles;
      var target := phase.target;
      Apart();
      EndPeriod();
      DeclareSuspicion(target, now);
    }

    /** No direct acknowledgement in time. */
    method DirectTimeout(now: int) returns (ghost helpers: seq<NodeID>)
      requires Valid() && phase.Direct?
      modifies this`pendingAcks, this`phase, base.Footprint()
      ensures Valid() && fresh(base.Footprint() - old(base.Footprint())) && pendingAcks.Values <= old(pendingAcks.Values)
      ensures var c, target := old(View()).core, old(phase).target;
        Selection(c.table, c.local, {c.local, target}, K, helpers)
      ensures View() == Spec.DirectTimeout(old(View()), base.mgr.opts, base.enableSuspicion, helpers, now)
    {
      hide SuspicionManager.View, Spec.DeclareSuspicion, PingAckManager.Wired, Selection, PingAckManager.Probes,
           PingAckManager.Waiters, PingAckManager.Handles, SuspicionManager.Valid, PingRequests;
      var chosen := Helpers(phase.target);
      helpers := Ids(chosen);
      if |chosen| == 0 {
        GiveUp(now);
      } else {
        AskAround(chosen);
      }
    }

    /** The members asked to probe `target` instead. */
    method Helpers(target: NodeID) returns (chosen: seq<Member>)
      requires Valid()
      ensures var c := base.View(); Selection(c.table, c.local, {c.local, target}, K, Ids(chosen))
    {
      hide SuspicionManager.View, PingAckManager.Wired, Selection;
      base.Sees(target);
      chosen := membership.GetRandomMembers(K, {membership.local, target});
    }

    /** Goes on to the indirect phase with the help of `chosen`. */
    method AskAround(chosen: seq<Member>)
      requires Valid() && phase.Direct?
      modifies this`phase, network
      ensures Valid()
      ensures var p, was := old(View()), old(phase);
        View() == p.(core := p.core.(out := p.core.out + PingRequests(p.core, was.target, was.seqNum, was.updates, Ids(chosen))),
                     phase := Indirect(was.target, was.seqNum))
    {
      hide SuspicionManager.View, PingAckManager.Wired, PingAckManager.Probes, PingAckManager.Waiters, PingAckManager.Handles,
           SuspicionManager.Valid;
      var Direct(target, n, updates) := phase;
      AskHelpers(chosen, target, n, updates);
      phase := Indirect(target, n);
    }

    method AskHelpers(chosen: seq<Member>, target: NodeID, n: nat, updates: seq<Update>)
      requires Valid()
      modifies network
      ensures Valid() && base.View() == old(base.View()).(out := old(base.View()).out
                + PingRequests(old(base.View()), target, n, updates, Ids(chosen)))
    {
      hide SuspicionManager.View, PingAckManager.Wired, SuspicionManager.Valid;
      ghost var c := base.View();
      for i := 0 to |chosen|
        invariant Valid() && base.View() == c.(out := c.out + PingRequests(c, target, n, updates, Ids(chosen)[..i]))
      {
        base.Sees(target);
        assert Ids(chosen)[..i + 1] == Ids(chosen)[..i] + [chosen[i].id];
        base.Send(Message(IndirectPing, membership.local, target, membership.own, n, updates), chosen[i].id.Address());
      }
      assert Ids(chosen)[..|chosen|] == Ids(chosen);
    }

    /** No acknowledgement through a proxy either. */
    method IndirectTimeout(now: int)
      requires Valid() && phase.Indirect?
      modifies this`pendingAcks, this`phase, base.Footprint()
      ensures Valid() && fresh(base.Footprint() - old(base.Footprint())) && pendingAcks.Values <= old(pendingAcks.Values)
      ensures View() == Spec.IndirectTimeout(old(View()), base.mgr.opts, base.enableSuspicion, now)
    {
      GiveUp(now);
    }

    // ----- handlers

    method HandlePing(msg: Message, now: int)
      requires Valid()
      modifies base.Footprint()
      ensures Valid() && fresh(base.Footprint() - old(base.Footprint()))
      ensures View() == if base.active
        then Spec.HandlePing(old(View()), base.mgr.opts, base.enableSuspicion, msg, now) else old(View())
    {
      hide SuspicionManager.View, ProcessUpdates, Touch, PingAckManager.Wired, PingAckManager.Probes, PingAckManager.Waiters,
           PingAckManager.Handles, SuspicionManager.Valid;
      if base.active {
        Apart();
        Answer(msg, now);
      }
    }

    /** Acknowledges a ping and takes it for a sign of life. */
    method SendAck(msg: Message, now: int)
      requires Valid()
      modifies membership`members, membership`log, membership.members.Values, network
      ensures Valid() && fresh(membership.members.Values - old(membership.members.Values))
      ensures var c := old(base.View());
        base.View() == Touch(Send(c, Message(Ack, c.local, msg.sender, c.own, msg.seqNum, []), msg.sender.Address()),
                             msg.sender, msg.inc, now)
    {
      hide SuspicionManager.View, Touch, PingAckManager.Wired, SuspicionManager.Valid;
      base.Sees(msg.sender);
      base.Send(Message(Ack, membership.local, msg.sender, membership.own, msg.seqNum, []), msg.sender.Address());
      base.Touch(msg.sender, msg.inc, now);
    }

    method Answer(msg: Message, now: int)
      requires Valid()
      modifies base.Footprint()
      ensures Valid() && fresh(base.Footprint() - old(base.Footprint()))
      ensures var c := old(base.View());
        var acked := Send(c, Message(Ack, c.local, msg.sender, c.own, msg.seqNum, []), msg.sender.Address());
        base.View() == ProcessUpdates(Touch(acked, msg.sender, msg.inc, now), base.mgr.opts, base.enableSuspicion,
                                      msg.members, msg.sender, now)
    {
      hide SuspicionManager.View, ProcessUpdates, Touch, PingAckManager.Wired, SuspicionManager.Valid;
      Apart();
      SendAck(msg, now);
      base.ProcessUpdates(msg.members, msg.sender, now);
    }

    /** Passes a direct acknowledgement to the probe it answers. */
    method SignalDirect(n: nat, sender: NodeID)
      requires Valid()
      modifies pendingAcks.Values
      ensures Valid() && Probes() == Spec.SignalDirect(old(Probes()), n, sender)
    {
      SameKeys();
      if n in pendingAcks && pendingAcks[n].target == sender {
        pendingAcks[n].directAck, pendingAcks[n].ackReceived := true, true;
      }
    }

    /** The waiter behind `key` takes `inc`, unless its channel is full. */
    method Notify(key: Key, inc: int)
      requires Valid()
      modifies pendingIndirect.Values
      ensures Valid() && Waiters() == Spec.Notify(old(View()), key, inc)
    {
      hide SuspicionManager.View, PingAckManager.Probes;
      HandleOf(key);
      SameKeys();
      if key in pendingIndirect {
        var waiter := pendingIndirect[key];
        if waiter.ch.None? {
          waiter.ch := Some(inc);
        }
      }
    }

    /** Whoever waits for this acknowledgement is told. */
    method Signal(n: nat, sender: NodeID, inc: int)
      requires Valid()
      modifies pendingAcks.Values, pendingIndirect.Values
      ensures Valid()
      ensures var p := old(View());
        View() == p.(probes := Spec.SignalDirect(p.probes, n, sender), waiters := Spec.Notify(p, Key(n, sender), inc))
    {
      hide SuspicionManager.View, PingAckManager.Wired, PingAckManager.Probes, PingAckManager.Waiters,
           PingAckManager.Handles, SuspicionManager.Valid, Spec.SignalDirect;
      SignalDirect(n, sender);
      Notify(Key(n, sender), inc);
    }

    method HandleAck(msg: Message, now: int)
      requires Valid()
      modifies base.Footprint(), pendingAcks.Values, pendingIndirect.Values
      ensures Valid() && fresh(base.Footprint() - old(base.Footprint()))
      ensures View() == if base.active then Spec.HandleAck(old(View()), msg, now) else old(View())
    {
      hide SuspicionManager.View, Touch, ClearSuspect, PingAckManager.Wired, PingAckManager.Probes, PingAckManager.Waiters,
           PingAckManager.Handles, SuspicionManager.Valid, Spec.Notify, Spec.SignalDirect;
      if base.active {
        Apart();
        NotifyIgnoresCore(View(), Key(msg.seqNum, msg.sender), msg.inc);
        Believe(msg.sender, msg.inc, now);
        Signal(msg.seqNum, msg.sender, msg.inc);
      }
    }

    static lemma NotifyIgnoresCore(p: Proc, key: Key, inc: int)
      ensures forall c :: Spec.Notify(p.(core := c), key, inc) == Spec.Notify(p, key, inc)
    {
    }

    /** An acknowledgement is a sign of life and clears a suspicion. */
    method Believe(sender: NodeID, inc: int, now: int)
      requires Valid()
      modifies base.Footprint()
      ensures Valid() && fresh(base.Footprint() - old(base.Footprint()))
      ensures base.View() == ClearSuspect(Touch(old(base.View()), sender, inc, now), sender, inc)
    {
      hide SuspicionManager.View, Touch, ClearSuspect, PingAckManager.Wired, SuspicionManager.Valid;
      Apart();
      base.Touch(sender, inc, now);
      base.Clear(sender, inc);
    }

    /** Starts a proxy goroutine. */
    method Go(requester: NodeID, target: NodeID, n: nat) returns (w: IndirectPingWaiter)
      requires Wired()
      modifies this`running, this`spawned
      ensures Wired() && spawned == old(spawned) + 1 && old(spawned) !in old(running)
      ensures fresh(w) && w.seqNum == n && w.target == target && running == old(running)[old(spawned) := w]
      ensures Waiters() == old(Waiters())[old(spawned) := Waiter(requester, target, n, None)]
    {
      w := new IndirectPingWaiter(spawned, requester, target, n);
      running, spawned := running[spawned := w], spawned + 1;
      SameKeys();
    }

    /** Makes a running goroutine the one its acknowledgement will find. */
    method Register(w: IndirectPingWaiter)
      requires Wired() && w in running.Values
      modifies this`pendingIndirect
      ensures Wired() && pendingIndirect == old(pendingIndirect)[Key(w.seqNum, w.target) := w]
      ensures Handles() == old(Handles())[Key(w.seqNum, w.target) := w.name]
    {
      pendingIndirect := pendingIndirect[Key(w.seqNum, w.target) := w];
    }

    /** Starts one that its acknowledgement will find; nothing else changes. */
    method Enlist(requester: NodeID, target: NodeID, n: nat)
      requires Valid()
      modifies this`pendingIndirect, this`running, this`spawned
      ensures Wired() && spawned == old(spawned) + 1 && old(spawned) !in old(running)
      ensures fresh(running.Values - old(running.Values)) && fresh(pendingIndirect.Values - old(pendingIndirect.Values))
      ensures Waiters() == old(Waiters())[old(spawned) := Waiter(requester, target, n, None)]
      ensures Handles() == old(Handles())[Key(n, target) := old(spawned)]
    {
      hide PingAckManager.Waiters, PingAckManager.Handles;
      var w := Go(requester, target, n);
      assert running[old(spawned)] == w;
      Register(w);
    }

    method Spawn(requester: NodeID, target: NodeID, n: nat)
      requires Valid()
      modifies this`pendingIndirect, this`running, this`spawned
      ensures Valid() && old(spawned) !in old(View()).waiters
      ensures fresh(running.Values - old(running.Values)) && fresh(pendingIndirect.Values - old(pendingIndirect.Values))
      ensures View() == old(View()).(waiters := old(View()).waiters[old(spawned) := Waiter(requester, target, n, None)],
                                     handles := old(View()).handles[Key(n, target) := old(spawned)])
    {
      hide SuspicionManager.View, PingAckManager.Probes, PingAckManager.Waiters, PingAckManager.Handles, SuspicionManager.Valid,
           PingAckManager.Wired;
      SameKeys();
      Enlist(requester, target, n);
      assert base.View() == old(base.View()) && Probes() == old(Probes());
    }

    /** Learns what an indirect ping tells and passes the ping on. */
    method Relay(msg: Message, now: int)
      requires Valid()
      modifies base.Footprint()
      ensures Valid() && fresh(base.Footprint() - old(base.Footprint()))
      ensures var c := ProcessUpdates(Refresh(old(base.View()), msg.sender, msg.inc, now), base.mgr.opts,
                                      base.enableSuspicion, msg.members, msg.sender, now);
        var c' := Expire(c, now);
        base.View() == Send(c', Message(Ping, c'.local, msg.target, c'.own, msg.seqNum, Prefix(c'.log, 5)), msg.target.Address())
    {
      hide SuspicionManager.View, ProcessUpdates, Prefix, Expire, Refresh, PingAckManager.Wired, SuspicionManager.Valid;
      Apart();
      Renew(msg.sender, msg.inc, now);
      base.ProcessUpdates(msg.members, msg.sender, now);
      var updates := base.SendPing(msg.target, msg.seqNum, now);
    }

    method Renew(id: NodeID, inc: int, now: int)
      requires Valid()
      modifies membership.members.Values
      ensures Valid() && base.View() == Refresh(old(base.View()), id, inc, now)
    {
      hide SuspicionManager.View, PingAckManager.Wired;
      base.Sees(id);
      if id in membership.members {
        var r := membership.members[id].Record();
        if inc >= r.inc {
          base.Overwrite(id, r.(heartbeat := At(now)));
        }
      }
    }

    method HandleIndirectPing(msg: Message, now: int)
      requires Valid()
      modifies this`pendingIndirect, this`running, this`spawned, base.Footprint()
      ensures Valid() && fresh(base.Footprint() - old(base.Footprint()))
      ensures fresh(running.Values - old(running.Values)) && fresh(pendingIndirect.Values - old(pendingIndirect.Values))
      ensures base.active ==> old(spawned) !in old(View()).waiters
      ensures View() == if base.active
        then Spec.HandleIndirectPing(old(View()), base.mgr.opts, base.enableSuspicion, msg, old(spawned), now)
        else old(View())
    {
      hide SuspicionManager.View, ProcessUpdates, Prefix, Expire, Refresh, PingAckManager.Wired, SuspicionManager.Valid,
           PingAckManager.Probes, PingAckManager.Waiters, PingAckManager.Handles;
      if base.active {
        Spawn(msg.sender, msg.target, msg.seqNum);
        assert base.View() == old(base.View());
        Apart();
        Relay(msg, now);
      }
    }

    /** Passes an indirect acknowledgement to the probe it answers. */
    method SignalIndirect(n: nat, target: NodeID, sender: NodeID)
      requires Valid()
      modifies pendingAcks.Values
      ensures Valid() && Probes() == Spec.SignalIndirect(old(Probes()), n, target, sender)
    {
      SameKeys();
      if n in pendingAcks && pendingAcks[n].target == target {
        var pending := pendingAcks[n];
        pending.indirectAcks, pending.ackReceived := pending.indirectAcks + {sender}, true;
      }
    }

    /** What a proxy says about `target` is taken over. */
    method Accept(target: NodeID, inc: int, now: int)
      requires Valid()
      modifies membership`members, membership`log, membership.members.Values
      ensures Valid() && fresh(membership.members.Values - old(membership.members.Values))
      ensures base.View() == Reported(old(base.View()), target, inc, now)
    {
      hide SuspicionManager.View, PingAckManager.Wired, PutLogged;
      base.Sees(target);
      if target in membership.members {
        var r := membership.members[target].Record();
        if inc >= r.inc {
          if r.status.Alive? {
            base.Overwrite(target, r.(inc := inc, heartbeat := At(now)));
          } else {
            base.File(target, r.(inc := inc, heartbeat := At(now), status := Alive, since := Zero), now);
          }
        }
      }
    }

    method BelieveProxy(target: NodeID, inc: int, now: int)
      requires Valid()
      modifies base.Footprint()
      ensures Valid() && fresh(base.Footprint() - old(base.Footprint()))
      ensures base.View() == ClearSuspect(Reported(old(base.View()), target, inc, now), target, inc)
    {
      hide SuspicionManager.View, Reported, ClearSuspect, PingAckManager.Wired, SuspicionManager.Valid;
      Apart();
      Accept(target, inc, now);
      base.Clear(target, inc);
    }

    method HandleIndirectAck(msg: Message, now: int)
      requires Valid()
      modifies base.Footprint(), pendingAcks.Values
      ensures Valid() && fresh(base.Footprint() - old(base.Footprint()))
      ensures View() == if base.active then Spec.HandleIndirectAck(old(View()), msg, now) else old(View())
    {
      hide SuspicionManager.View, Reported, ClearSuspect, PingAckManager.Wired, PingAckManager.Probes, PingAckManager.Waiters,
           PingAckManager.Handles, SuspicionManager.Valid, Spec.SignalIndirect;
      if base.active {
        Apart();
        SignalIndirect(msg.seqNum, msg.target, msg.sender);
        BelieveProxy(msg.target, msg.inc, now);
      }
    }

    // ----- proxy goroutines

    /** Takes the handle of a goroutine's request away. */
    method Unregister(w: nat)
      requires Wired() && w in running
      modifies this`pendingIndirect
      ensures var key := Key(running[w].seqNum, running[w].target);
        pendingIndirect == old(pendingIndirect) - {key} && Handles() == old(Handles()) - {key}
      ensures Wired() && forall key :: key in pendingIndirect ==> pendingIndirect[key].name != w
    {
      pendingIndirect := pendingIndirect - {Key(running[w].seqNum, running[w].target)};
    }

    method Finish(w: nat)
      requires Wired() && forall key :: key in pendingIndirect ==> pendingIndirect[key].name != w
      modifies this`running
      ensures Wired() && running == old(running) - {w} && Waiters() == old(Waiters()) - {w}
    {
      SameKeys();
      running := running - {w};
      SameKeys();
    }

    /** A proxy goroutine ends and takes the handle with it, even if that leads to another by now. */
    method Retire(w: nat)
      requires Valid() && w in running
      modifies this`pendingIndirect, this`running
      ensures Valid() && View() == Spec.Retire(old(View()), w)
      ensures running.Values <= old(running.Values) && pendingIndirect.Values <= old(pendingIndirect.Values)
    {
      hide SuspicionManager.View, PingAckManager.Probes, PingAckManager.Handles, PingAckManager.Waiters,
           PingAckManager.Wired, SuspicionManager.Valid;
      ValueOf(w);
      Unregister(w);
      Finish(w);
    }

    lemma ValueOf(w: nat)
      ensures w in running <==> w in Waiters()
      ensures w in running ==> Waiters()[w] == running[w].Value()
    {
    }

    /** The target has answered: its incarnation goes to the requester. */
    method ForwardAck(w: nat)
      requires Valid() && w in running && running[w].ch.Some?
      modifies this`pendingIndirect, this`running, network
      ensures Valid() && w in old(View()).waiters && old(View()).waiters[w].received.Some?
      ensures View() == Spec.Forward(old(View()), w)
    {
      hide SuspicionManager.View, PingAckManager.Probes, PingAckManager.Handles, PingAckManager.Waiters,
           PingAckManager.Wired, SuspicionManager.Valid;
      ValueOf(w);
      var waiter := running[w];
      base.Sees(waiter.target);
      var ack := Message(IndirectAck, membership.local, waiter.target, waiter.ch.value, waiter.seqNum, []);
      base.Send(ack, waiter.requester.Address());
      Retire(w);
    }

    // ----- the detector's own failure check

    method FindOverdue(now: int) returns (ids: seq<NodeID>)
      requires Valid()
      ensures Enumerates(ids, OverdueSet(base.View(), timeouts, now))
    {
      hide SuspicionManager.EntryTable;
      ids := [];
      ghost var c := base.View();
      var todo := membership.members.Keys;
      while todo != {}
        invariant todo <= membership.members.Keys
        invariant forall k :: k in ids ==> k in membership.members.Keys - todo && k in OverdueSet(c, timeouts, now)
        invariant forall k :: k in OverdueSet(c, timeouts, now) ==> k in ids || k in todo
        invariant forall i, j :: 0 <= i < j < |ids| ==> ids[i] != ids[j]
        decreases todo
      {
        var id :| id in todo;
        todo := todo - {id};
        var m := membership.members[id];
        membership.RecordOf(id);
        if id != membership.local && m.status.Suspected? && Elapsed(now, m.since) > timeouts.suspicion {
          ids := ids + [id];
        }
      }
    }

    /** Members that have been suspected for too long are deleted and reported failed. */
    method CheckFailures(now: int) returns (ghost order: seq<NodeID>)
      requires Valid()
      modifies membership`members, membership`log
      ensures Valid() && membership.members.Values <= old(membership.members.Values)
      ensures Enumerates(order, OverdueSet(old(base.View()), timeouts, now))
      ensures View() == old(View()).(core := PingCheck(old(base.View()), timeouts, now, order))
    {
      hide MembershipList.Table, SuspicionManager.EntryTable, FailedRecords, PingAckManager.Probes, PingAckManager.Waiters,
           PingAckManager.Handles, PingAckManager.Wired;
      var toRemove := FindOverdue(now);
      order := toRemove;
      assert (set k | k in toRemove) == OverdueSet(base.View(), timeouts, now);
      base.InTable(toRemove);
      var failed := base.Drop(toRemove, now);
      base.NoteAll(failed);
    }
  }
}
