/** The gossip detector as an object (detectors/gossip.go). */
module GossipManagers {
  import opened Types
  import opened SuspicionSpec
  import opened UpdateLogSpec
  import opened DetectorSpec
  import opened GossipSpec
  import opened MembershipLists
  import opened SuspicionManagers
  import opened Detectors
  import Spec = GossipSpec

  class GossipManager {
    const base: Detector
    const membership: MembershipList
    const network: NetworkLayer
    const timeouts: Timeouts

    ghost predicate Valid()
      reads base.mgr`entries, membership`members, membership.members.Values, base.membership`members,
            base.membership.members.Values, base.mgr.entries.Values
    {
      base.membership == membership && base.network == network && base.Valid()
    }

    constructor (mgr: SuspicionManager, timeouts: Timeouts)
      requires mgr.Valid()
      ensures Valid() && base.mgr == mgr && this.timeouts == timeouts && !base.active
    {
      var d := new Detector(mgr, false);
      base, membership, network, this.timeouts := d, d.membership, d.network, timeouts;
    }

    // ----- handlers

    method HandleHeartbeat(msg: Message, now: int)
      requires Valid()
      modifies base.Footprint()
      ensures Valid() && fresh(base.Footprint() - old(base.Footprint()))
      ensures base.View() == if base.active
        then Spec.HandleHeartbeat(old(base.View()), base.mgr.opts, base.enableSuspicion, msg, now) else old(base.View())
    {
      hide SuspicionManager.View, Touch, ProcessUpdates, SuspicionManager.Valid;
      base.Sees(msg.sender);
      if !base.active {
        return;
      }
      base.Touch(msg.sender, msg.inc, now);
      base.ProcessUpdates(msg.members, msg.sender, now);
    }

    method HandleConfirm(msg: Message, now: int)
      requires Valid()
      modifies membership`members, membership`log, membership.members.Values
      ensures Valid() && fresh(membership.members.Values - old(membership.members.Values))
      ensures base.View() == if base.active
        then Spec.HandleConfirm(old(base.View()), msg.target, msg.inc, now) else old(base.View())
    {
      hide SuspicionManager.View, PutLogged;
      if !base.active {
        return;
      }
      base.Sees(msg.target);
      if msg.target in membership.members {
        var r := membership.members[msg.target].Record();
        if msg.inc >= r.inc {
          base.File(msg.target, r.(status := Failed, inc := msg.inc), now);
        }
      }
    }

    // ----- the failure check

    /** The table once the members among `done` have been looked at and none has been deleted yet. */
    static function SuspectedIn(c: Core, ts: Timeouts, susp: bool, now: int, done: set<NodeID>): map<NodeID, Rec> {
      map k | k in c.table ::
        if k in done && k in SilentSet(c, ts, susp, now) then c.table[k].(status := Suspected, since := At(now)) else c.table[k]
    }

    static lemma NoneSuspected(c: Core, ts: Timeouts, susp: bool, now: int)
      ensures SuspectedIn(c, ts, susp, now, {}) == c.table
    {
    }

    static lemma AllSwept(c: Core, ts: Timeouts, susp: bool, now: int)
      ensures SuspectedIn(c, ts, susp, now, c.table.Keys) - RemovableSet(c, ts, susp, now) == Swept(c, ts, susp, now).table
    {
    }

    static lemma OneMoreSuspected(c: Core, ts: Timeouts, susp: bool, now: int, done: set<NodeID>, k: NodeID)
      requires k in c.table && k !in done
      ensures SuspectedIn(c, ts, susp, now, done).Keys == c.table.Keys && SuspectedIn(c, ts, susp, now, done)[k] == c.table[k]
      ensures SuspectedIn(c, ts, susp, now, done + {k}) ==
        if k in SilentSet(c, ts, susp, now)
        then SuspectedIn(c, ts, susp, now, done)[k := c.table[k].(status := Suspected, since := At(now))]
        else SuspectedIn(c, ts, susp, now, done)
    {
      hide SilentSet;
    }

    method Judge(m: Member, now: int) returns (silent: bool, removable: bool)
      ensures silent <==> base.enableSuspicion && Silent(m.Record(), timeouts, now)
      ensures removable <==> Removable(m.Record(), timeouts, base.enableSuspicion, now)
    {
      var suspectThreshold := if timeouts.failure <= 0 then 3 * SECOND else timeouts.failure;
      var confirmThreshold := suspectThreshold + timeouts.cleanup;
      if confirmThreshold <= suspectThreshold {
        confirmThreshold := suspectThreshold + SECOND;
      }
      silent, removable := false, false;
      match m.status
      case Alive =>
        if suspectThreshold > 0 && Elapsed(now, m.heartbeat) >= suspectThreshold {
          if base.enableSuspicion {
            silent := true;
          } else {
            removable := true;
          }
        }
      case Suspected =>
        removable := Elapsed(now, m.since) >= confirmThreshold;
      case Failed =>
        removable := timeouts.cleanup > 0 && Elapsed(now, m.heartbeat) >= timeouts.cleanup;
    }

    /** `order` lists the members of `s` among `done`, each once. */
    static ghost predicate Collected(order: seq<NodeID>, s: set<NodeID>, done: set<NodeID>) {
      && (forall k :: k in order <==> k in s && k in done)
      && (forall i, j :: 0 <= i < j < |order| ==> order[i] != order[j])
    }

    static lemma OneMoreCollected(order: seq<NodeID>, s: set<NodeID>, done: set<NodeID>, k: NodeID)
      requires Collected(order, s, done) && k !in done
      ensures Collected(if k in s then order + [k] else order, s, done + {k})
    {
    }

    static lemma AllCollected(order: seq<NodeID>, s: set<NodeID>, done: set<NodeID>)
      requires Collected(order, s, done) && s <= done
      ensures Enumerates(order, s) && s == set k | k in order
    {
    }

    /** What is said about each of `ids`, found silent. */
    static function SuspectRecords(ids: seq<NodeID>, table: map<NodeID, Rec>, now: int): seq<Update> {
      seq(|ids|, i requires 0 <= i < |ids| => Update(ids[i], RecordedInc(table, ids[i]), Suspected, now))
    }

    static lemma OneMoreRecord(ids: seq<NodeID>, table: map<NodeID, Rec>, now: int, k: NodeID)
      ensures SuspectRecords(ids + [k], table, now) == SuspectRecords(ids, table, now) + [Update(k, RecordedInc(table, k), Suspected, now)]
      ensures FailedRecords(ids + [k], table, now) == FailedRecords(ids, table, now) + [Update(k, RecordedInc(table, k), Failed, now)]
    {
    }

    /** Suspects a silent member in place. */
    method Visit(id: NodeID, now: int, ghost c: Core, ghost done: set<NodeID>) returns (silent: bool, removable: bool)
      requires Valid() && id in c.table && id !in done && c.local == membership.local
      requires membership.Table() == SuspectedIn(c, timeouts, base.enableSuspicion, now, done)
      modifies membership.members.Values
      ensures Valid() && membership.Table() == SuspectedIn(c, timeouts, base.enableSuspicion, now, done + {id})
      ensures id in membership.members && membership.members[id].inc == RecordedInc(c.table, id)
      ensures silent <==> id in SilentSet(c, timeouts, base.enableSuspicion, now)
      ensures removable <==> id in RemovableSet(c, timeouts, base.enableSuspicion, now)
    {
      hide MembershipList.Table, SuspectedIn, Silent, Removable;
      OneMoreSuspected(c, timeouts, base.enableSuspicion, now, done, id);
      membership.RecordOf(id);
      silent, removable := false, false;
      if id != membership.local {
        var m := membership.members[id];
        silent, removable := Judge(m, now);
        if silent {
          membership.Suspect(id, now);
          membership.RecordOf(id);
        }
      }
    }

    /** The pass over the table: silent members are suspected in place, removable ones are deleted. */
    method Sweep(now: int)
      returns (silent: seq<Update>, removed: seq<Update>, ghost suspects: seq<NodeID>, ghost gone: seq<NodeID>)
      requires Valid()
      modifies membership`members, membership.members.Values
      ensures Valid() && membership.members.Values <= old(membership.members.Values)
      ensures var c, susp := old(base.View()), base.enableSuspicion;
        && Enumerates(suspects, SilentSet(c, timeouts, susp, now)) && silent == SuspectRecords(suspects, c.table, now)
        && Enumerates(gone, RemovableSet(c, timeouts, susp, now)) && removed == FailedRecords(gone, c.table, now)
        && base.View() == Swept(c, timeouts, susp, now)
    {
      hide MembershipList.Table, SuspicionManager.EntryTable, SuspectedIn, SilentSet, RemovableSet, Collected, SuspectRecords,
           FailedRecords;
      ghost var c, susp := base.View(), base.enableSuspicion;
      silent, removed, suspects, gone := [], [], [], [];
      var toRemove: set<NodeID> := {};
      NoneSuspected(c, timeouts, susp, now);
      NoneCollected(c.table, now);
      TableKeys();
      var todo := membership.members.Keys;
      ghost var done: set<NodeID> := {};
      while todo != {}
        invariant Valid() && todo <= c.table.Keys && done == c.table.Keys - todo
        invariant membership.members == old(membership.members)
        invariant membership.Table() == SuspectedIn(c, timeouts, susp, now, done)
        invariant Collected(suspects, SilentSet(c, timeouts, susp, now), done)
        invariant Collected(gone, RemovableSet(c, timeouts, susp, now), done)
        invariant silent == SuspectRecords(suspects, c.table, now) && removed == FailedRecords(gone, c.table, now)
        invariant toRemove == set k | k in gone
        decreases todo
      {
        var id :| id in todo;
        todo := todo - {id};
        OneMoreCollected(suspects, SilentSet(c, timeouts, susp, now), done, id);
        OneMoreCollected(gone, RemovableSet(c, timeouts, susp, now), done, id);
        OneMoreRecord(suspects, c.table, now, id);
        OneMoreRecord(gone, c.table, now, id);
        var isSilent, isRemovable := Visit(id, now, c, done);
        done := done + {id};
        var inc := membership.members[id].inc;
        if isSilent {
          silent, suspects := silent + [Update(id, inc, Suspected, now)], suspects + [id];
        }
        if isRemovable {
          removed, gone, toRemove := removed + [Update(id, inc, Failed, now)], gone + [id], toRemove + {id};
        }
      }
      assert done == c.table.Keys;
      Listed(suspects, gone, c, susp, now);
      AllSwept(c, timeouts, susp, now);
      DeleteAll(toRemove);
    }

    static lemma NoneCollected(table: map<NodeID, Rec>, now: int)
      ensures forall s :: Collected([], s, {})
      ensures SuspectRecords([], table, now) == [] && FailedRecords([], table, now) == []
    {
    }

    lemma TableKeys()
      ensures membership.Table().Keys == membership.members.Keys
    {
    }

    lemma Listed(suspects: seq<NodeID>, gone: seq<NodeID>, c: Core, susp: bool, now: int)
      requires Collected(suspects, SilentSet(c, timeouts, susp, now), c.table.Keys)
      requires Collected(gone, RemovableSet(c, timeouts, susp, now), c.table.Keys)
      ensures Enumerates(suspects, SilentSet(c, timeouts, susp, now))
      ensures Enumerates(gone, RemovableSet(c, timeouts, susp, now))
      ensures (set k | k in gone) == RemovableSet(c, timeouts, susp, now)
    {
      hide Silent, Removable;
      AllCollected(suspects, SilentSet(c, timeouts, susp, now), c.table.Keys);
      AllCollected(gone, RemovableSet(c, timeouts, susp, now), c.table.Keys);
    }

    method DeleteAll(ids: set<NodeID>)
      requires Valid()
      modifies membership`members
      ensures Valid() && membership.members.Values <= old(membership.members.Values)
      ensures membership.Table() == old(membership.Table()) - ids
    {
      membership.members := membership.members - ids;
    }

    /** Notes and reports a member found silent. */
    method ReportOne(u: Update, now: int)
      requires Valid()
      modifies base.Footprint()
      ensures Valid() && fresh(base.Footprint() - old(base.Footprint())) && membership.local == old(membership.local)
      ensures base.View() == ProcessSuspicion(Append(old(base.View()), u), base.mgr.opts, membership.local, u.id, u.inc, now)
      ensures base.enableSuspicion == old(base.enableSuspicion)
    {
      hide SuspicionManager.View, SuspicionManager.Valid, ProcessSuspicion;
      base.Sees(u.id);
      LocalKept(Append(base.View(), u), base.mgr.opts, membership.local, u, now);
      base.Note(u);
      base.Report(membership.local, u.id, u.inc, now);
      base.Sees(u.id);
    }

    static lemma LocalKept(c: Core, o: Options, reporter: NodeID, u: Update, now: int)
      ensures ProcessSuspicion(c, o, reporter, u.id, u.inc, now).local == c.local
    {
    }

    static lemma ReportSilentNext(c: Core, o: Options, ids: seq<NodeID>, i: nat, table: map<NodeID, Rec>, now: int)
      requires i < |ids|
      ensures ReportSilent(c, o, ids[..i + 1], table, now)
           == ProcessSuspicion(Append(ReportSilent(c, o, ids[..i], table, now), SuspectRecords(ids, table, now)[i]), o, c.local,
                               ids[i], SuspectRecords(ids, table, now)[i].inc, now)
    {
      hide ProcessSuspicion;
      assert ids[..i + 1][..i] == ids[..i];
    }

    method ReportEach(silent: seq<Update>, ghost suspects: seq<NodeID>, ghost table: map<NodeID, Rec>, now: int)
      requires Valid() && silent == SuspectRecords(suspects, table, now)
      modifies base.Footprint()
      ensures Valid() && fresh(base.Footprint() - old(base.Footprint()))
      ensures base.View() == ReportSilent(old(base.View()), base.mgr.opts, suspects, table, now)
    {
      hide SuspicionManager.View, SuspicionManager.Valid, ProcessSuspicion, ReportSilent;
      base.Sees(membership.local);
      assert ReportSilent(base.View(), base.mgr.opts, suspects[..0], table, now) == base.View() by {
        NoneReported(base.View(), base.mgr.opts, table, now);
      }
      for i := 0 to |silent|
        invariant Valid() && fresh(base.Footprint() - old(base.Footprint())) && membership.local == old(base.View()).local
        invariant base.View() == ReportSilent(old(base.View()), base.mgr.opts, suspects[..i], table, now)
      {
        ReportSilentNext(old(base.View()), base.mgr.opts, suspects, i, table, now);
        ReportOne(silent[i], now);
      }
      assert suspects[..|suspects|] == suspects;
    }

    static lemma NoneReported(c: Core, o: Options, table: map<NodeID, Rec>, now: int)
      ensures ReportSilent(c, o, [], table, now) == c
    {
    }

    method CheckFailures(now: int) returns (ghost suspects: seq<NodeID>, ghost gone: seq<NodeID>)
      requires Valid()
      modifies base.Footprint()
      ensures Valid() && fresh(base.Footprint() - old(base.Footprint()))
      ensures var c, susp := old(base.View()), base.enableSuspicion;
        && Enumerates(suspects, SilentSet(c, timeouts, susp, now))
        && Enumerates(gone, RemovableSet(c, timeouts, susp, now))
        && base.View() == GossipCheck(c, base.mgr.opts, timeouts, susp, now, suspects, gone)
    {
      hide SuspicionManager.View, SuspicionManager.Valid, Swept, ReportSilent, SilentSet, RemovableSet, FailedRecords,
           SuspectRecords, Enumerates;
      base.Sees(membership.local);
      var silent, removed;
      silent, removed, suspects, gone := Sweep(now);
      ReportEach(silent, suspects, old(base.View()).table, now);
      base.NoteAll(removed);
    }

    // ----- a gossip round

    /** Notes the current records of some members. */
    method Advertise(ms: seq<Member>, now: int)
      requires Valid() && forall m :: m in ms ==> m.id in membership.members && membership.members[m.id] == m
      modifies membership`log
      ensures Valid() && forall k :: k in Ids(ms) ==> k in old(base.View()).table
      ensures var c := old(base.View()); base.View() == c.(log := c.log + Listing(Ids(ms), c.table, now))
    {
      hide SuspicionManager.View, SuspicionManager.Valid;
      ghost var c := base.View();
      Tabled(ms, now);
      for i := 0 to |ms|
        invariant Valid() && base.View() == c.(log := c.log + Listing(Ids(ms), c.table, now)[..i])
      {
        assert ms[i] in ms;
        base.Sees(ms[i].id);
        base.Note(Update(ms[i].id, ms[i].inc, ms[i].status, now));
      }
    }

    lemma Tabled(ms: seq<Member>, now: int)
      requires Valid() && forall m :: m in ms ==> m.id in membership.members && membership.members[m.id] == m
      ensures forall k :: k in Ids(ms) ==> k in base.View().table
      ensures forall i :: 0 <= i < |ms| ==>
        Listing(Ids(ms), base.View().table, now)[i] == Update(ms[i].id, ms[i].inc, ms[i].status, now)
    {
      hide SuspicionManager.View, SuspicionManager.Valid, MembershipList.Valid;
      InIds(ms);
      forall i | 0 <= i < |ms|
        ensures ms[i].id in base.View().table && base.View().table[ms[i].id] == ms[i].Record()
      {
        assert ms[i] in ms;
        base.Sees(ms[i].id);
      }
    }

    /** Sends the recent updates to `targets`. */
    method Gossip(targets: seq<Member>, now: int)
      requires Valid()
      modifies membership`log, network
      ensures Valid()
      ensures var c := Expire(old(base.View()), now);
        var msg := Message(Heartbeat, c.local, NO_NODE, c.own, 0, Prefix(c.log, 10));
        base.View() == c.(out := c.out + set t | t in Ids(targets) :: Packet(msg, t.Address()))
    {
      hide SuspicionManager.View, SuspicionManager.Valid, Prefix, Live;
      var updates := base.RecentUpdates(10, now);
      ghost var c := base.View();
      base.Sees(membership.local);
      var msg := Message(Heartbeat, membership.local, NO_NODE, membership.own, 0, updates);
      for i := 0 to |targets|
        invariant Valid() && base.View() == c.(out := c.out + set t | t in Ids(targets)[..i] :: Packet(msg, t.Address()))
      {
        assert Ids(targets)[..i + 1] == Ids(targets)[..i] + [targets[i].id];
        base.Send(msg, targets[i].id.Address());
      }
      assert Ids(targets)[..|targets|] == Ids(targets);
    }

    static lemma ListingAppends(a: seq<NodeID>, b: seq<NodeID>, table: map<NodeID, Rec>, now: int)
      requires forall k :: k in a || k in b ==> k in table
      ensures Listing(a + b, table, now) == Listing(a, table, now) + Listing(b, table, now)
    {
    }

    /** Notes the node's own record, its targets' and its extra peers'. */
    method AdvertiseAll(targets: seq<Member>, extras: seq<Member>, now: int)
      requires Valid() && forall m :: m in targets || m in extras ==> m.id in membership.members && membership.members[m.id] == m
      modifies membership`log
      ensures Valid()
      ensures var c := old(base.View());
        var self := if c.local in c.table then [c.local] else [];
        var order := self + Ids(targets) + Ids(extras);
        && (forall k :: k in order ==> k in c.table)
        && base.View() == c.(log := c.log + Listing(order, c.table, now))
    {
      hide SuspicionManager.View, SuspicionManager.Valid, Listing;
      ghost var c := base.View();
      ghost var self := if c.local in c.table then [c.local] else [];
      base.Sees(membership.local);
      var selves := if membership.local in membership.members then [membership.members[membership.local]] else [];
      OwnIdentity();
      assert Ids(selves) == self;
      Advertise(selves, now);
      AdvertiseOthers(targets, extras, now);
      assert self + Ids(targets) + Ids(extras) == self + (Ids(targets) + Ids(extras));
      ListingAppends(self, Ids(targets) + Ids(extras), c.table, now);
    }

    method AdvertiseOthers(targets: seq<Member>, extras: seq<Member>, now: int)
      requires Valid() && forall m :: m in targets || m in extras ==> m.id in membership.members && membership.members[m.id] == m
      modifies membership`log
      ensures Valid() && forall k :: k in Ids(targets) + Ids(extras) ==> k in old(base.View()).table
      ensures var c := old(base.View());
        base.View() == c.(log := c.log + Listing(Ids(targets) + Ids(extras), c.table, now))
    {
      hide SuspicionManager.View, SuspicionManager.Valid, Listing;
      ghost var c := base.View();
      Advertise(targets, now);
      Advertise(extras, now);
      ListingAppends(Ids(targets), Ids(extras), c.table, now);
    }

    lemma OwnIdentity()
      requires Valid()
      ensures membership.local in membership.members ==> membership.members[membership.local].id == membership.local
    {
    }

    /** One round. Without anyone to gossip to nothing happens. */
    method PerformRound(now: int) returns (ghost targets: seq<NodeID>, ghost extras: seq<NodeID>)
      requires Valid()
      modifies membership`log, network
      ensures Valid()
      ensures var c := old(base.View());
        && Selection(c.table, c.local, {c.local}, FANOUT, targets)
        && (targets == [] ==> base.View() == c)
        && (targets != [] ==>
              Selection(c.table, c.local, {c.local}, 2, extras) && base.View() == GossipRound(c, targets, extras, now))
    {
      hide SuspicionManager.View, MembershipList.Table, Listing, Prefix, Live;
      base.Sees(membership.local);
      var chosen := membership.GetRandomMembers(FANOUT, {membership.local});
      targets, extras := Ids(chosen), [];
      if |chosen| == 0 {
        return;
      }
      var peers := membership.GetRandomMembers(2, {membership.local});
      extras := Ids(peers);
      AdvertiseAll(chosen, peers, now);
      Gossip(chosen, now);
    }
  }
}
