/** The part the two failure detectors have in common, as an object working on the membership list, the
    suspicion manager and the network in place (detectors/pingack.go, detectors/gossip.go). */
module Detectors {
  import opened Types
  import opened SuspicionSpec
  import opened UpdateLogSpec
  import opened DetectorSpec
  import opened MembershipLists
  import opened SuspicionManagers
  import Spec = DetectorSpec

  class Detector {
    const mgr: SuspicionManager
    const membership: MembershipList
    const network: NetworkLayer
    var enableSuspicion: bool
    var active: bool

    ghost predicate Valid()
      reads mgr`entries, membership`members, membership.members.Values, mgr.entries.Values
    {
      mgr.membership == membership && mgr.network == network && mgr.Valid()
    }

    ghost function Footprint(): set<object>
      reads mgr, membership, mgr.membership
    {
      mgr.Footprint()
    }

    ghost function View(): Core
      requires mgr.membership == membership && mgr.network == network
      reads mgr, membership, membership.members.Values, mgr.entries.Values, network
    {
      mgr.View()
    }

    constructor (mgr: SuspicionManager, active: bool)
      requires mgr.Valid()
      ensures Valid() && this.mgr == mgr && membership == mgr.membership && network == mgr.network
      ensures this.active == active && !enableSuspicion
    {
      this.mgr, membership, network := mgr, mgr.membership, mgr.network;
      this.active, enableSuspicion := active, false;
    }

    /** What the view says about one node and about the node itself. */
    lemma Sees(id: NodeID)
      requires Valid()
      ensures View().local == membership.local && View().table == membership.Table() && View().own == membership.own
      ensures id in membership.members <==> id in View().table
      ensures id in membership.members ==> View().table[id] == membership.members[id].Record()
      ensures this !in Footprint()
    {
      membership.RecordOf(id);
    }

    // ----- records

    /** Writes the record of `id`, in place when there is one, and notes it in the update log. */
    method File(id: NodeID, r: Rec, now: int)
      requires Valid()
      modifies membership`members, membership`log, membership.members.Values
      ensures Valid() && fresh(membership.members.Values - old(membership.members.Values))
      ensures View() == PutLogged(old(View()), id, r, now)
    {
      hide MembershipList.Table, SuspicionManager.EntryTable;
      if id in membership.members {
        membership.Write(id, r);
      } else {
        membership.Put(id, r);
      }
      membership.AddRecentUpdate(id, r.inc, r.status, now);
    }

    /** Writes the record of a member in place and does not tell anyone. */
    method Overwrite(id: NodeID, r: Rec)
      requires Valid() && id in membership.members
      modifies membership.members[id]
      ensures Valid() && View() == old(View()).(table := old(View()).table[id := r])
    {
      hide MembershipList.Table, SuspicionManager.EntryTable;
      membership.Write(id, r);
    }

    /** Deletes a member and notes its failure. */
    method Remove(id: NodeID, now: int)
      requires Valid()
      modifies membership`members, membership`log
      ensures Valid() && membership.members.Values <= old(membership.members.Values)
      ensures View() == Spec.HandleLeave(old(View()), id, now)
    {
      hide MembershipList.Table, SuspicionManager.EntryTable;
      membership.RecordOf(id);
      if id in membership.members {
        var inc := membership.members[id].inc;
        membership.Delete(id);
        membership.AddRecentUpdate(id, inc, Failed, now);
      }
    }

    // ----- the network and the update log

    method Send(msg: Message, dest: Addr)
      requires Valid()
      modifies network
      ensures Valid() && View() == old(View()).(out := old(View()).out + {Packet(msg, dest)})
    {
      hide MembershipList.Table, SuspicionManager.EntryTable;
      network.Send(msg, dest);
    }

    /** Up to `limit` recent updates to piggyback. */
    method RecentUpdates(limit: nat, now: int) returns (updates: seq<Update>)
      requires Valid()
      modifies membership`log
      ensures Valid() && View() == Expire(old(View()), now) && updates == Prefix(View().log, limit)
    {
      hide MembershipList.Table, SuspicionManager.EntryTable, Live;
      updates := membership.GetRecentUpdates(limit, now);
    }

    /** Pings `target` with number `n` and the recent updates. */
    method SendPing(target: NodeID, n: nat, now: int) returns (updates: seq<Update>)
      requires Valid()
      modifies membership`log, network
      ensures Valid()
      ensures var c := Expire(old(View()), now);
        && updates == Prefix(c.log, 5)
        && View() == c.(out := c.out + {Packet(Message(Ping, c.local, target, c.own, n, updates), target.Address())})
    {
      hide SuspicionManager.View, Live, Prefix, SuspicionManager.Valid;
      updates := RecentUpdates(5, now);
      Sees(target);
      Send(Message(Ping, membership.local, target, membership.own, n, updates), target.Address());
    }

    method Note(u: Update)
      requires Valid()
      modifies membership`log
      ensures Valid() && View() == Append(old(View()), u)
    {
      hide MembershipList.Table, SuspicionManager.EntryTable;
      membership.AddRecentUpdate(u.id, u.inc, u.status, u.stamp);
    }

    method NoteAll(us: seq<Update>)
      requires Valid()
      modifies membership`log
      ensures Valid() && View() == old(View()).(log := old(View()).log + us)
    {
      hide SuspicionManager.View, SuspicionManager.Valid;
      ghost var c := View();
      for i := 0 to |us|
        invariant Valid() && View() == c.(log := c.log + us[..i])
      {
        assert us[..i + 1] == us[..i] + [us[i]];
        assert c.log + us[..i] + [us[i]] == c.log + us[..i + 1];
        Note(us[i]);
      }
      assert us[..|us|] == us;
    }

    // ----- the suspicion manager

    method Report(reporter: NodeID, target: NodeID, inc: int, now: int)
      requires Valid()
      modifies Footprint()
      ensures Valid() && fresh(Footprint() - old(Footprint()))
      ensures View() == ProcessSuspicion(old(View()), mgr.opts, reporter, target, inc, now)
    {
      hide SuspicionManager.View, ProcessSuspicion;
      mgr.ProcessSuspicion(reporter, target, inc, now);
    }

    method Clear(target: NodeID, inc: int)
      requires Valid()
      modifies Footprint()
      ensures Valid() && fresh(Footprint() - old(Footprint()))
      ensures View() == ClearSuspect(old(View()), target, inc)
    {
      hide SuspicionManager.View, ClearSuspect;
      mgr.ClearSuspect(target, inc);
    }

    // ----- piggybacked updates

    method Tell(u: Update, reporter: NodeID, now: int)
      requires Valid()
      modifies Footprint()
      ensures Valid() && fresh(Footprint() - old(Footprint()))
      ensures View() == Escalate(old(View()), mgr.opts, enableSuspicion, u, reporter, now)
    {
      hide SuspicionManager.View, ProcessSuspicion, ClearSuspect, SuspicionManager.Valid;
      if u.status.Suspected? && enableSuspicion {
        Report(reporter, u.id, u.inc, now);
      } else if u.status.Alive? {
        Clear(u.id, u.inc);
      }
    }

    /** What is remembered of `u`, news about a member in the table. */
    method Merge(u: Update, now: int)
      requires Valid() && u.id in membership.members
      modifies membership`members, membership`log, membership.members.Values
      ensures Valid() && fresh(membership.members.Values - old(membership.members.Values))
      ensures u.id in old(View()).table && View() == MergeRecord(old(View()), enableSuspicion, u, now)
    {
      hide MembershipList.Table, SuspicionManager.EntryTable, PutLogged;
      membership.RecordOf(u.id);
      var r := membership.members[u.id].Record();
      if u.inc > r.inc {
        r := r.(inc := u.inc, status := u.status);
        if u.status.Alive? {
          r := r.(heartbeat := At(now), since := Zero);
        } else if u.status.Suspected? && enableSuspicion {
          r := r.(since := At(now));
        }
        File(u.id, r, now);
      } else if u.inc == r.inc {
        if u.status.Alive? && r.status.Suspected? {
          File(u.id, r.(status := Alive, heartbeat := At(now), since := Zero), now);
        } else if u.status.Suspected? && r.status.Alive? {
          File(u.id, r.(status := Suspected, since := At(now)), now);
        }
      }
    }

    method ProcessUpdate(u: Update, reporter: NodeID, now: int)
      requires Valid()
      modifies Footprint()
      ensures Valid() && fresh(Footprint() - old(Footprint()))
      ensures View() == Spec.ProcessUpdate(old(View()), mgr.opts, enableSuspicion, u, reporter, now)
    {
      hide SuspicionManager.View, Escalate, MergeRecord, PutLogged, Learned;
      Sees(u.id);
      if u.id == membership.local {
        Tell(u, reporter, now);
        return;
      }
      if u.id !in membership.members {
        File(u.id, Learned(u, now), now);
        return;
      }
      Merge(u, now);
      Tell(u, reporter, now);
    }

    method ProcessUpdates(us: seq<Update>, reporter: NodeID, now: int)
      requires Valid()
      modifies Footprint()
      ensures Valid() && fresh(Footprint() - old(Footprint()))
      ensures View() == Spec.ProcessUpdates(old(View()), mgr.opts, enableSuspicion, us, reporter, now)
    {
      hide SuspicionManager.View, Spec.ProcessUpdate, SuspicionManager.Valid;
      Sees(reporter);
      for i := 0 to |us|
        invariant Valid() && fresh(Footprint() - old(Footprint()))
        invariant View() == Spec.ProcessUpdates(old(View()), mgr.opts, enableSuspicion, us[..i], reporter, now)
      {
        assert us[..i + 1][..i] == us[..i];
        ProcessUpdate(us[i], reporter, now);
      }
      assert us[..|us|] == us;
    }

    // ----- handlers

    /** A direct sign of life. */
    method Touch(sender: NodeID, inc: int, now: int)
      requires Valid()
      modifies membership`members, membership`log, membership.members.Values
      ensures Valid() && fresh(membership.members.Values - old(membership.members.Values))
      ensures View() == Spec.Touch(old(View()), sender, inc, now)
    {
      hide MembershipList.Table, SuspicionManager.EntryTable, PutLogged;
      membership.RecordOf(sender);
      if sender !in membership.members {
        File(sender, Rec(inc, Alive, At(now), Zero), now);
        return;
      }
      var r := membership.members[sender].Record();
      if inc > r.inc {
        File(sender, Rec(inc, Alive, At(now), Zero), now);
      } else if inc == r.inc {
        if r.status.Suspected? {
          File(sender, r.(status := Alive, heartbeat := At(now), since := Zero), now);
        } else {
          Overwrite(sender, r.(heartbeat := At(now)));
        }
      }
    }

    method HandleAlive(msg: Message, now: int)
      requires Valid()
      modifies Footprint()
      ensures Valid() && fresh(Footprint() - old(Footprint()))
      ensures View() == if active then Spec.HandleAlive(old(View()), msg.sender, msg.inc, now) else old(View())
    {
      hide SuspicionManager.View, ClearSuspect, Spec.HandleAlive, SuspicionManager.Valid, MembershipList.Table;
      if !active {
        return;
      }
      HearAlive(msg.sender, msg.inc, now);
      Clear(msg.sender, msg.inc);
    }

    /** The table part of an alive message. */
    method HearAlive(sender: NodeID, inc: int, now: int)
      requires Valid()
      modifies membership`members, membership`log, membership.members.Values
      ensures Valid() && fresh(membership.members.Values - old(membership.members.Values))
      ensures ClearSuspect(View(), sender, inc) == Spec.HandleAlive(old(View()), sender, inc, now)
    {
      hide SuspicionManager.View, PutLogged, ClearSuspect;
      Sees(sender);
      if sender in membership.members && inc >= membership.members[sender].inc {
        var m := membership.members[sender];
        if !m.status.Alive? || inc > m.inc {
          File(sender, Rec(inc, Alive, At(now), Zero), now);
        }
      }
    }

    method HandleSuspect(msg: Message, now: int)
      requires Valid()
      modifies Footprint()
      ensures Valid() && fresh(Footprint() - old(Footprint()))
      ensures View() == if enableSuspicion && active
        then ProcessSuspicion(old(View()), mgr.opts, msg.sender, msg.target, msg.inc, now) else old(View())
    {
      hide SuspicionManager.View, ProcessSuspicion;
      if !enableSuspicion {
        return;
      }
      if !active {
        return;
      }
      Report(msg.sender, msg.target, msg.inc, now);
    }

    /** A node that has left the group itself still takes notice of others that leave. */
    method HandleLeave(msg: Message, now: int)
      requires Valid()
      modifies Footprint()
      ensures Valid() && fresh(Footprint() - old(Footprint()))
      ensures View() == Spec.HandleLeave(old(View()), msg.sender, now)
    {
      hide SuspicionManager.View, Spec.HandleLeave;
      Remove(msg.sender, now);
    }

    // ----- joining and leaving

    /** The keys under which the table lists the address of `joiner` with another timestamp. */
    method Superseded(joiner: NodeID) returns (ids: seq<NodeID>)
      requires Valid()
      ensures Enumerates(ids, Displaced(membership.Table(), joiner))
    {
      ids := [];
      var todo := membership.members.Keys;
      while todo != {}
        invariant todo <= membership.members.Keys
        invariant forall k :: k in ids <==> k in membership.members.Keys - todo && Displaces(joiner, k)
        invariant forall i, j :: 0 <= i < j < |ids| ==> ids[i] != ids[j]
        decreases todo
      {
        var id :| id in todo;
        assert id !in ids;
        todo := todo - {id};
        if id.Address() == joiner.Address() && id.timestamp != joiner.timestamp {
          ids := ids + [id];
        }
      }
    }

    /** The whole table as a list of updates. */
    method ListMembers(now: int) returns (updates: seq<Update>, ghost order: seq<NodeID>)
      requires Valid()
      ensures Enumerates(order, membership.Table().Keys)
      ensures updates == Listing(order, membership.Table(), now)
    {
      updates, order := [], [];
      var todo := membership.members.Keys;
      while todo != {}
        invariant todo <= membership.members.Keys
        invariant forall k :: k in order <==> k in membership.members.Keys - todo
        invariant forall i, j :: 0 <= i < j < |order| ==> order[i] != order[j]
        invariant updates == Listing(order, membership.Table(), now)
        decreases todo
      {
        var id :| id in todo;
        assert id !in order;
        todo := todo - {id};
        var m := membership.members[id];
        updates, order := updates + [Update(m.id, m.inc, m.status, now)], order + [id];
      }
    }

    /** Deletes members and returns what is to be said about each. */
    method Drop(ids: seq<NodeID>, now: int) returns (failed: seq<Update>)
      requires Valid() && forall k :: k in ids ==> k in membership.members
      requires forall i, j :: 0 <= i < j < |ids| ==> ids[i] != ids[j]
      modifies membership`members
      ensures Valid() && membership.members == old(membership.members) - set k | k in ids
      ensures failed == FailedRecords(ids, old(membership.Table()), now)
      ensures membership.Table() == old(membership.Table()) - set k | k in ids
    {
      failed := [];
      for i := 0 to |ids|
        invariant Valid() && membership.members == old(membership.members) - set k | k in ids[..i]
        invariant failed == FailedRecords(ids[..i], old(membership.Table()), now)
      {
        assert ids[i] in ids && ids[i] !in ids[..i];
        var m := membership.members[ids[i]];
        membership.Delete(ids[i]);
        failed := failed + [Update(m.id, m.inc, Failed, now)];
      }
      assert ids[..|ids|] == ids;
    }

    /** The table part of a join: the joiner takes the place of whoever had its address. */
    method Admit(sender: NodeID, inc: int, now: int) returns (failed: seq<Update>, ghost displaced: seq<NodeID>)
      requires Valid()
      modifies membership`members
      ensures Valid() && fresh(membership.members.Values - old(membership.members.Values))
      ensures Enumerates(displaced, Displaced(old(membership.Table()), sender))
      ensures failed == FailedRecords(displaced, old(membership.Table()), now)
      ensures View() == old(View()).(table := JoinedTable(old(View()), sender, inc, now))
    {
      hide MembershipList.Table, SuspicionManager.EntryTable, FailedRecords;
      var superseded := Superseded(sender);
      displaced := superseded;
      assert (set k | k in superseded) == Displaced(membership.Table(), sender);
      InTable(superseded);
      failed := Drop(superseded, now);
      membership.Put(sender, Rec(inc, Alive, At(now), Zero));
    }

    lemma InTable(ids: seq<NodeID>)
      ensures (forall k :: k in ids ==> k in membership.members) <==> (forall k :: k in ids ==> k in membership.Table())
    {
    }

    method HandleJoin(msg: Message, now: int) returns (ghost displaced: seq<NodeID>, ghost listing: seq<NodeID>)
      requires Valid()
      modifies Footprint()
      ensures Valid() && fresh(Footprint() - old(Footprint()))
      ensures !active ==> View() == old(View())
      ensures active ==>
        && Enumerates(displaced, Displaced(old(View()).table, msg.sender))
        && Enumerates(listing, JoinedTable(old(View()), msg.sender, msg.inc, now).Keys)
        && View() == Spec.HandleJoin(old(View()), msg.sender, msg.inc, now, displaced, listing)
    {
      hide SuspicionManager.View, FailedRecords, Listing, JoinedTable, Enumerates, Displaced, SuspicionManager.EntryTable,
           MembershipList.Table;
      displaced, listing := [], [];
      if !active {
        return;
      }
      var failed, updates;
      Sees(msg.sender);
      failed, displaced := Admit(msg.sender, msg.inc, now);
      Sees(msg.sender);
      updates, listing := ListMembers(now);
      Welcome(msg.sender, msg.inc, failed, updates, now);
    }

    /** Notes who joined and who was displaced, and answers the joiner with the table. */
    method Welcome(sender: NodeID, inc: int, failed: seq<Update>, updates: seq<Update>, now: int)
      requires Valid()
      modifies membership`log, network
      ensures Valid()
      ensures var c := old(View());
        View() == c.(log := c.log + failed + [Update(sender, inc, Alive, now)],
                     out := c.out + {Packet(Message(JoinResponse, c.local, NO_NODE, c.own, 0, updates), sender.Address())})
    {
      hide SuspicionManager.View, SuspicionManager.Valid;
      NoteAll(failed);
      Note(Update(sender, inc, Alive, now));
      Sees(sender);
      Send(Message(JoinResponse, membership.local, NO_NODE, membership.own, 0, updates), sender.Address());
    }

    /** Takes one record of a join response over; says whether it was news of a living member. */
    method Absorb(u: Update, now: int) returns (clear: bool)
      requires Valid()
      modifies membership`members, membership`log, membership.members.Values
      ensures Valid() && fresh(membership.members.Values - old(membership.members.Values))
      ensures View() == Spec.Absorb(old(View()), u, now)
      ensures clear <==> News(old(View()), u) && u.status.Alive?
    {
      hide MembershipList.Table, SuspicionManager.EntryTable, PutLogged;
      clear := false;
      membership.RecordOf(u.id);
      if u.id == membership.local {
        return;
      }
      if u.id !in membership.members {
        File(u.id, Learned(u, now), now);
        clear := u.status.Alive?;
      } else if u.inc > membership.members[u.id].inc {
        var r := Rec(u.inc, u.status, At(now), membership.members[u.id].since);
        if u.status.Suspected? {
          r := r.(since := At(now));
        } else if u.status.Alive? {
          r := r.(since := Zero);
        }
        File(u.id, r, now);
        clear := u.status.Alive?;
      }
    }

    method HandleJoinResponse(msg: Message, now: int)
      requires Valid()
      modifies Footprint()
      ensures Valid() && fresh(Footprint() - old(Footprint()))
      ensures View() == if active then Spec.HandleJoinResponse(old(View()), msg.members, now) else old(View())
    {
      hide SuspicionManager.View, Spec.Absorb, News, ClearSuspect, SuspicionManager.Valid, AbsorbAll, Clears, ClearAll;
      if !active {
        return;
      }
      var clears := AbsorbEach(msg.members, now);
      ClearEach(clears);
    }

    /** Takes a join response over; returns the part that was news of living members. */
    method AbsorbEach(us: seq<Update>, now: int) returns (clears: seq<Update>)
      requires Valid()
      modifies membership`members, membership`log, membership.members.Values
      ensures Valid() && fresh(membership.members.Values - old(membership.members.Values))
      ensures View() == AbsorbAll(old(View()), us, now) && clears == Clears(old(View()), us, now)
    {
      hide SuspicionManager.View, Spec.Absorb, News, SuspicionManager.Valid;
      clears := [];
      for i := 0 to |us|
        invariant Valid() && fresh(membership.members.Values - old(membership.members.Values))
        invariant View() == AbsorbAll(old(View()), us[..i], now) && clears == Clears(old(View()), us[..i], now)
      {
        assert us[..i + 1][..i] == us[..i];
        var clear := Absorb(us[i], now);
        if clear {
          clears := clears + [us[i]];
        }
      }
      assert us[..|us|] == us;
    }

    method ClearEach(us: seq<Update>)
      requires Valid()
      modifies Footprint()
      ensures Valid() && fresh(Footprint() - old(Footprint()))
      ensures View() == ClearAll(old(View()), us)
    {
      hide SuspicionManager.View, ClearSuspect, SuspicionManager.Valid;
      for i := 0 to |us|
        invariant Valid() && fresh(Footprint() - old(Footprint()))
        invariant View() == ClearAll(old(View()), us[..i])
      {
        assert us[..i + 1][..i] == us[..i];
        Clear(us[i].id, us[i].inc);
      }
      assert us[..|us|] == us;
    }

    /** Joins, or joins again, under a fresh identity. Without an introducer nothing happens. */
    method JoinGroup(introducer: Option<Addr>, timestamp: int, now: int)
      requires Valid()
      modifies this`active, Footprint()
      ensures Valid() && fresh(Footprint() - old(Footprint()))
      ensures introducer.None? ==> View() == old(View()) && active == old(active)
      ensures introducer.Some? ==>
        && active
        && View() == Rejoin(old(View()), old(View()).local.(timestamp := timestamp), introducer.value, now)
    {
      hide MembershipList.Table, SuspicionManager.EntryTable;
      if introducer.None? {
        return;
      }
      active := true;
      membership.RefreshLocalNode(timestamp, now);
      network.Send(Message(Join, membership.local, NO_NODE, membership.own, 0, []), introducer.value);
    }

    method LeaveGroup()
      requires Valid()
      modifies this`active, network
      ensures Valid() && !active && View() == Spec.LeaveGroup(old(View()))
    {
      hide MembershipList.Table, SuspicionManager.EntryTable, Broadcast;
      mgr.Spread(Message(Leave, membership.local, NO_NODE, membership.own, 0, []), {membership.local});
      active := false;
    }
  }
}
