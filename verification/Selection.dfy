/** What random selection means for the probes and the gossip of one node. */
module Selections {
  import opened Types
  import opened UpdateLogSpec
  import opened DetectorSpec
  import opened PingAckSpec
  import opened GossipSpec
  import opened UpdateLog
  import opened Cluster

  /** The members of a selection: as many as asked for or as there are, and all there are when that is not
      more than was asked for. */
  lemma SelectionSet(table: map<NodeID, Rec>, local: NodeID, exclude: set<NodeID>, n: nat, chosen: seq<NodeID>)
    requires Selection(table, local, exclude, n, chosen)
    ensures var picked, eligible := (set k | k in chosen), EligibleSet(table, local, exclude);
      && picked <= eligible && |picked| == |chosen| == Min(n, |eligible|)
      && (|eligible| <= n ==> picked == eligible)
      && local !in picked && picked !! exclude
  {
    var picked, eligible := (set k | k in chosen), EligibleSet(table, local, exclude);
    EnumerationLength(chosen, picked);
    assert local !in eligible && eligible !! exclude by {
      NeverExcluded(table, local, exclude);
    }
    assert picked <= eligible;
    if |eligible| <= n {
      SameSize(picked, eligible);
    }
  }

  lemma NeverExcluded(table: map<NodeID, Rec>, local: NodeID, exclude: set<NodeID>)
    ensures var eligible := EligibleSet(table, local, exclude); local !in eligible && eligible !! exclude
  {
  }

  /** A subset that is as large as the whole is the whole. */
  lemma SameSize<T>(a: set<T>, b: set<T>)
    requires a <= b && |a| >= |b|
    ensures a == b
  {
    assert b == (b - a) + a;
    assert |b - a| == 0;
    assert b - a == {};
  }

  /** Sending one message to each of `ids` takes at most as many packets. */
  lemma {:induction false} PacketsBounded(ids: seq<NodeID>, msg: Message)
    ensures var all := set k | k in ids :: Packet(msg, k.Address()); |all| <= |ids|
  {
    var all := set k | k in ids :: Packet(msg, k.Address());
    if ids == [] {
      assert all == {};
    } else {
      var n := |ids| - 1;
      PacketsBounded(ids[..n], msg);
      assert ids == ids[..n] + [ids[n]];
      var fewer := set k | k in ids[..n] :: Packet(msg, k.Address());
      assert all == fewer + {Packet(msg, ids[n].Address())};
    }
  }

  /** A period never probes the node itself, and probes only a member it believes alive. A period that finds
      nobody to probe has nobody to probe. */
  lemma ProbesOthers(cfg: Config, p: Proc, target: NodeID, now: int)
    requires Enabled(cfg, p, Begin(target, now))
    ensures target != p.core.local && target in p.core.table && p.core.table[target].status.Alive?
    ensures var p' := Act(cfg, p, Begin(target, now));
      && p'.phase.Direct? && p'.phase.target == target
      && forall pk :: pk in p'.core.out - p.core.out ==> pk.dest == target.Address() && pk.msg.kind.Ping? && pk.msg.target == target
  {
    hide Handle, DeclareSuspicion, GossipCheck, Live, Prefix;
    assert target in [target];
  }

  /** What asking `helpers` sends. */
  lemma Asked(cfg: Config, p: Proc, susp: bool, helpers: seq<NodeID>, now: int)
    requires Enabled(cfg, p, NoDirectAck(susp, helpers, now)) && helpers != []
    ensures p.phase.Direct?
    ensures Act(cfg, p, NoDirectAck(susp, helpers, now)).core.out
         == p.core.out + PingRequests(p.core, p.phase.target, p.phase.seqNum, p.phase.updates, helpers)
    ensures Selection(p.core.table, p.core.local, {p.core.local, p.phase.target}, K, helpers)
  {
    hide Handle, DeclareSuspicion, GossipCheck, Selection;
  }

  /** An indirect probe goes to at most three members, none of them the target or the node itself and all of
      them believed alive; if it goes to fewer, it goes to every member it could go to. */
  lemma HelpersExact(cfg: Config, p: Proc, susp: bool, helpers: seq<NodeID>, now: int)
    requires Enabled(cfg, p, NoDirectAck(susp, helpers, now)) && helpers != []
    ensures var asked := Act(cfg, p, NoDirectAck(susp, helpers, now)).core.out - p.core.out;
      var eligible := EligibleSet(p.core.table, p.core.local, {p.core.local, p.phase.target});
      && |asked| <= 3
      && p.phase.target !in eligible && p.core.local !in eligible
      && (forall pk :: pk in asked ==> pk.msg.kind.IndirectPing? && exists h :: h in eligible && pk.dest == h.Address())
  {
    hide Enabled, Act, Eligible, Selection, EligibleSet;
    Asked(cfg, p, susp, helpers, now);
    var c, target := p.core, p.phase.target;
    SelectionSet(c.table, c.local, {c.local, target}, K, helpers);
    NeverExcluded(c.table, c.local, {c.local, target});
    PacketsBounded(helpers, Message(IndirectPing, c.local, target, c.own, p.phase.seqNum, p.phase.updates));
    var requests := PingRequests(c, target, p.phase.seqNum, p.phase.updates, helpers);
    Fewer(Act(cfg, p, NoDirectAck(susp, helpers, now)).core.out - c.out, requests);
    var picked := set k | k in helpers;
    forall pk | pk in requests
      ensures exists h :: h in EligibleSet(c.table, c.local, {c.local, target}) && pk.dest == h.Address()
    {
      var h :| h in helpers && pk.dest == h.Address();
      assert h in picked;
    }
  }

  /** When there are no more than K candidates, every one of them is asked. */
  lemma HelpersComplete(cfg: Config, p: Proc, susp: bool, helpers: seq<NodeID>, now: int, h: NodeID)
    requires Enabled(cfg, p, NoDirectAck(susp, helpers, now)) && helpers != []
    requires h in EligibleSet(p.core.table, p.core.local, {p.core.local, p.phase.target})
    requires |EligibleSet(p.core.table, p.core.local, {p.core.local, p.phase.target})| <= K
    ensures exists pk ::
      && pk in Act(cfg, p, NoDirectAck(susp, helpers, now)).core.out
      && pk.msg.kind.IndirectPing? && pk.msg.target == p.phase.target && pk.dest == h.Address()
  {
    hide Enabled, Act, Eligible, Selection, EligibleSet;
    Asked(cfg, p, susp, helpers, now);
    var c, target := p.core, p.phase.target;
    SelectionSet(c.table, c.local, {c.local, target}, K, helpers);
    var picked := set k | k in helpers;
    assert h in picked;
    var pk := Packet(Message(IndirectPing, c.local, target, c.own, p.phase.seqNum, p.phase.updates), h.Address());
    assert pk in PingRequests(c, target, p.phase.seqNum, p.phase.updates, helpers);
  }

  lemma Fewer<T>(a: set<T>, b: set<T>)
    requires a <= b
    ensures |a| <= |b|
  {
    assert b == (b - a) + a;
  }

  /** A direct timeout with nobody to ask means that no other member is believed alive. */
  lemma AloneGivesUp(cfg: Config, p: Proc, susp: bool, now: int, k: NodeID)
    requires Enabled(cfg, p, NoDirectAck(susp, [], now)) && k in p.core.table && k != p.core.local && k != p.phase.target
    ensures !p.core.table[k].status.Alive?
  {
    hide Handle, DeclareSuspicion, GossipCheck;
    var exclude := {p.core.local, p.phase.target};
    SelectionSet(p.core.table, p.core.local, exclude, K, []);
    assert EligibleSet(p.core.table, p.core.local, exclude) == {};
    assert k !in EligibleSet(p.core.table, p.core.local, exclude);
  }

  /** A gossip round reaches at most three members, never the node itself. */
  lemma RoundsBounded(cfg: Config, p: Proc, targets: seq<NodeID>, extras: seq<NodeID>, now: int)
    requires Enabled(cfg, p, Round(targets, extras, now))
    ensures var p' := Act(cfg, p, Round(targets, extras, now));
      var sent := p'.core.out - p.core.out;
      && |sent| <= 3
      && (forall pk :: pk in sent ==> pk.msg.kind.Heartbeat?)
      && (forall pk :: pk in sent ==> exists t :: t in p.core.table && t != p.core.local && p.core.table[t].status.Alive? && pk.dest == t.Address())
  {
    hide Handle, DeclareSuspicion, GossipCheck, Live, Prefix, Listing;
    var c := p.core;
    SelectionSet(c.table, c.local, {c.local}, FANOUT, targets);
    var p' := Act(cfg, p, Round(targets, extras, now));
    var self := if c.local in c.table then [c.local] else [];
    var c' := Expire(c.(log := c.log + Listing(self + targets + extras, c.table, now)), now);
    var msg := Message(Heartbeat, c.local, NO_NODE, c.own, 0, Prefix(c'.log, 10));
    PacketsBounded(targets, msg);
    var requests := set k | k in targets :: Packet(msg, k.Address());
    assert p'.core.out == c.out + requests;
    Fewer(p'.core.out - c.out, requests);
  }

  /** What has just been logged has not expired. */
  lemma {:induction false} JustListed(ids: seq<NodeID>, table: map<NodeID, Rec>, now: int)
    requires forall k :: k in ids ==> k in table
    ensures Live(Listing(ids, table, now), now) == Listing(ids, table, now)
  {
    if ids != [] {
      var n := |ids| - 1;
      assert Listing(ids, table, now)[..n] == Listing(ids[..n], table, now);
      JustListed(ids[..n], table, now);
    }
  }

  /** A gossip round reaches every one of its targets, of which there are min(3, eligible). The node puts its own
      record, the targets' and two more members' in its log, in this order, and sends every target one and the same
      heartbeat with its counter and the first ten records that have not expired. */
  lemma RoundsReach(cfg: Config, p: Proc, targets: seq<NodeID>, extras: seq<NodeID>, now: int)
    requires Enabled(cfg, p, Round(targets, extras, now))
    ensures var c, c' := p.core, Act(cfg, p, Round(targets, extras, now)).core;
      var shown := (if c.local in c.table then [c.local] else []) + targets + extras;
      var heartbeat := Message(Heartbeat, c.local, NO_NODE, c.own, 0, c'.log[..Min(10, |c'.log|)]);
      && 0 < |targets| == Min(3, |EligibleSet(c.table, c.local, {c.local})|)
      && |extras| == Min(2, |EligibleSet(c.table, c.local, {c.local})|)
      && |c'.log| == |Live(c.log, now)| + |shown| && c'.log[..|Live(c.log, now)|] == Live(c.log, now)
      && (forall i :: 0 <= i < |shown| ==>
            && shown[i] in c.table
            && c'.log[|Live(c.log, now)| + i] == Update(shown[i], c.table[shown[i]].inc, c.table[shown[i]].status, now))
      && (forall t :: t in targets ==> Packet(heartbeat, t.Address()) in c'.out)
      && (forall pk :: pk in c'.out && pk !in c.out ==> pk.msg == heartbeat)
      && c'.(log := c.log, out := c.out) == c
  {
    hide Handle, DeclareSuspicion, GossipCheck, Live;
    var c := p.core;
    var shown := (if c.local in c.table then [c.local] else []) + targets + extras;
    LiveConcat(c.log, Listing(shown, c.table, now), now);
    JustListed(shown, c.table, now);
  }
}
