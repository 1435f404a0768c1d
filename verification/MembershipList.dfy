/** The membership list of one node, updated in place (utils/membership.go). */
module MembershipLists {
  import opened Types
  import opened SuspicionSpec
  import opened UpdateLogSpec
  import opened DetectorSpec

  /** One record of the table. Other objects may hold on to it, so it is changed in place. */
  class Member {
    const id: NodeID
    var inc: int
    var status: Status
    var heartbeat: Instant
    var since: Instant

    constructor (id: NodeID, r: Rec)
      ensures this.id == id && Record() == r
    {
      this.id := id;
      inc, status, heartbeat, since := r.inc, r.status, r.heartbeat, r.since;
    }

    function Record(): Rec
      reads this
    {
      Rec(inc, status, heartbeat, since)
    }
  }

  /** The identities of a list of members. */
  function Ids(ms: seq<Member>): seq<NodeID> {
    seq(|ms|, i requires 0 <= i < |ms| => ms[i].id)
  }

  lemma InIds(ms: seq<Member>)
    ensures forall m :: m in ms ==> m.id in Ids(ms)
    ensures forall k :: k in Ids(ms) ==> exists m :: m in ms && m.id == k
  {
    forall m | m in ms ensures m.id in Ids(ms) {
      var i :| 0 <= i < |ms| && ms[i] == m;
      assert Ids(ms)[i] == m.id;
    }
  }

  class MembershipList {
    var local: NodeID
    var members: map<NodeID, Member>
    var own: int
    var log: seq<Update>

    /** Every record is filed under its own identity, so no two keys lead to one record. */
    ghost predicate Valid()
      reads this`members, members.Values
    {
      forall k :: k in members ==> members[k].id == k
    }

    /** The table as a value. */
    ghost function Table(): map<NodeID, Rec>
      reads this`members, members.Values
    {
      map k | k in members :: members[k].Record()
    }

    constructor (id: NodeID, now: int)
      ensures Valid() && fresh(members.Values)
      ensures local == id && own == 0 && log == []
      ensures Table() == map[id := Rec(0, Alive, At(now), Zero)]
    {
      local, own, log := id, 0, [];
      var m := new Member(id, Rec(0, Alive, At(now), Zero));
      members := map[id := m];
    }

    /** The record of one node, in the table and as a value. */
    lemma RecordOf(id: NodeID)
      ensures id in members <==> id in Table()
      ensures id in members ==> Table()[id] == members[id].Record()
    {
    }

    /** The status and time part of a suspicion that has reached its threshold. */
    method Suspect(id: NodeID, now: int)
      requires Valid()
      modifies members.Values
      ensures Valid() && Table() == MarkSuspected(old(Table()), id, now)
    {
      if id in members {
        var m := members[id];
        m.status, m.since := Suspected, At(now);
      }
    }

    /** A suspicion cleared at `inc`. */
    method Revive(id: NodeID, inc: int)
      requires Valid()
      modifies members.Values
      ensures Valid() && Table() == MarkAlive(old(Table()), id, inc)
    {
      if id in members {
        var m := members[id];
        if inc >= m.inc {
          m.status, m.inc := Alive, inc;
        }
      }
    }

    method Fail(id: NodeID)
      requires Valid() && id in members
      modifies members[id]
      ensures Valid() && Table() == old(Table())[id := old(Table())[id].(status := Failed)]
    {
      members[id].status := Failed;
    }

    /** Files a new record. */
    method Put(id: NodeID, r: Rec)
      requires Valid()
      modifies this`members
      ensures Valid() && Table() == old(Table())[id := r]
      ensures id in members && fresh(members[id]) && members == old(members)[id := members[id]]
    {
      var m := new Member(id, r);
      members := members[id := m];
    }

    /** Changes the record of a member in place. */
    method Write(id: NodeID, r: Rec)
      requires Valid() && id in members
      modifies members[id]
      ensures Valid() && Table() == old(Table())[id := r]
    {
      var m := members[id];
      m.inc, m.status, m.heartbeat, m.since := r.inc, r.status, r.heartbeat, r.since;
    }

    method Delete(id: NodeID)
      requires Valid()
      modifies this`members
      ensures Valid() && Table() == old(Table()) - {id} && members == old(members) - {id}
    {
      members := members - {id};
    }

    method AddRecentUpdate(id: NodeID, inc: int, status: Status, now: int)
      modifies this`log
      ensures log == old(log) + [Update(id, inc, status, now)]
    {
      log := log + [Update(id, inc, status, now)];
    }

    /** A new member replaces an existing record only if it is strictly newer. */
    method AddMember(id: NodeID, r: Rec, now: int)
      requires Valid()
      modifies this
      ensures Valid() && local == old(local) && own == old(own)
      ensures if id in old(Table()) && r.inc <= old(Table())[id].inc
              then Table() == old(Table()) && log == old(log)
              else Table() == old(Table())[id := r] && log == old(log) + [Update(id, r.inc, r.status, now)]
      ensures fresh(members.Values - old(members.Values))
    {
      if id !in members || r.inc > members[id].inc {
        Put(id, r);
        AddRecentUpdate(id, r.inc, r.status, now);
      }
    }

    /** An update at the recorded incarnation or above is taken over; an older one is ignored. */
    method UpdateMember(id: NodeID, status: Status, inc: int, now: int)
      requires Valid()
      modifies this, members.Values
      ensures Valid() && local == old(local) && own == old(own) && members == old(members)
      ensures if id in old(Table()) && inc >= old(Table())[id].inc
              then
                var r := old(Table())[id];
                && log == old(log) + [Update(id, inc, status, now)]
                && Table() == old(Table())[id :=
                     Rec(inc, status,
                         if status.Alive? then At(now) else r.heartbeat,
                         if status.Suspected? && r.status.Alive? then At(now) else r.since)]
              else Table() == old(Table()) && log == old(log)
    {
      if id in members && inc >= members[id].inc {
        var r := members[id].Record();
        Write(id, Rec(inc, status,
                      if status.Alive? then At(now) else r.heartbeat,
                      if status.Suspected? && r.status.Alive? then At(now) else r.since));
        AddRecentUpdate(id, inc, status, now);
      }
    }

    method RemoveMember(id: NodeID, now: int)
      requires Valid()
      modifies this, members.Values
      ensures Valid() && local == old(local) && own == old(own)
      ensures Table() == old(Table()) - {id}
      ensures log == if id in old(Table()) then old(log) + [Update(id, old(Table())[id].inc, Failed, now)] else old(log)
    {
      if id in members {
        Fail(id);
        AddRecentUpdate(id, members[id].inc, members[id].status, now);
        Delete(id);
      }
    }

    /** The members selected by any outcome of the shuffle: alive, not the local node, not excluded, no two
        the same, and as many of them as asked for or available. */
    method GetRandomMembers(n: nat, exclude: set<NodeID>) returns (chosen: seq<Member>)
      requires Valid()
      ensures Selection(Table(), local, exclude, n, Ids(chosen))
      ensures forall m :: m in chosen ==> m in members.Values && m.id in members && members[m.id] == m
    {
      var candidates: seq<Member> := [];
      var todo := members.Keys;
      while todo != {}
        invariant todo <= members.Keys
        invariant forall m :: m in candidates ==> m.id in members && members[m.id] == m
        invariant forall k :: k in Ids(candidates) <==> k in members.Keys - todo && Eligible(Table(), local, exclude, k)
        invariant forall i, j :: 0 <= i < j < |candidates| ==> candidates[i] != candidates[j]
        decreases todo
      {
        var id :| id in todo;
        todo := todo - {id};
        var m := members[id];
        if id !in exclude && m.status.Alive? && id != local {
          ghost var before := Ids(candidates);
          InIds(candidates);
          candidates := candidates + [m];
          assert Ids(candidates) == before + [id];
        }
      }
      ghost var eligible := EligibleSet(Table(), local, exclude);
      Distinct(candidates);
      InIds(candidates);
      EnumerationLength(Ids(candidates), eligible);
      var i := |candidates| - 1;
      while i > 0
        invariant i < |candidates| || candidates == []
        invariant |candidates| == |eligible|
        invariant forall m :: m in candidates ==> m.id in members && members[m.id] == m
        invariant forall m :: m in candidates ==> m.id in eligible
        invariant forall i, j :: 0 <= i < j < |candidates| ==> candidates[i] != candidates[j]
        decreases i
      {
        var j :| 0 <= j <= i;
        candidates := candidates[i := candidates[j]][j := candidates[i]];
        i := i - 1;
      }
      var count := if n > |candidates| then |candidates| else n;
      chosen := candidates[..count];
      Distinct(chosen);
    }

    /** Different records have different identities. */
    lemma Distinct(ms: seq<Member>)
      requires Valid() && forall m :: m in ms ==> m.id in members && members[m.id] == m
      requires forall i, j :: 0 <= i < j < |ms| ==> ms[i] != ms[j]
      ensures forall i, j :: 0 <= i < j < |Ids(ms)| ==> Ids(ms)[i] != Ids(ms)[j]
    {
      forall i, j | 0 <= i < j < |ms| ensures ms[i].id != ms[j].id {
        assert ms[i] in ms && ms[j] in ms;
      }
    }

    /** Drops the expired records and returns the first `limit` of the rest. */
    method GetRecentUpdates(limit: nat, now: int) returns (updates: seq<Update>)
      modifies this`log
      ensures log == Live(old(log), now) && updates == Prefix(log, limit)
    {
      var filtered: seq<Update> := [];
      for i := 0 to |log|
        invariant filtered == Live(log[..i], now)
      {
        assert log[..i + 1][..i] == log[..i];
        if log[i].stamp > now - WINDOW {
          filtered := filtered + [log[i]];
        }
      }
      assert log[..|log|] == log;
      log := filtered;
      updates := filtered[..if limit > |filtered| then |filtered| else limit];
    }

    /** The addresses of all members outside `except`. */
    method Recipients(except: set<NodeID>) returns (addrs: seq<Addr>)
      requires Valid()
      ensures forall a :: a in addrs <==> exists k :: k in members && k !in except && k.Address() == a
    {
      addrs := [];
      var todo := members.Keys;
      while todo != {}
        invariant todo <= members.Keys
        invariant forall a :: a in addrs <==> exists k :: k in members.Keys - todo && k !in except && k.Address() == a
        decreases todo
      {
        var id :| id in todo;
        todo := todo - {id};
        if id !in except {
          addrs := addrs + [members[id].id.Address()];
        }
      }
    }

    /** A fresh identity for the local node: the old own record goes, the new one carries the counter. */
    method RefreshLocalNode(timestamp: int, now: int)
      requires Valid()
      modifies this
      ensures Valid() && own == old(own) && log == old(log)
      ensures local == NodeID(old(local).ip, old(local).port, timestamp)
      ensures Table() == (old(Table()) - {old(local)})[local := Rec(own, Alive, At(now), Zero)]
      ensures fresh(members.Values - old(members.Values))
    {
      Delete(local);
      local := NodeID(local.ip, local.port, timestamp);
      Put(local, Rec(own, Alive, At(now), Zero));
    }
  }
}
