/** Joining a group transfers the introducer's view. */
module JoinHandshake {
  import opened Types
  import opened SuspicionSpec
  import opened UpdateLogSpec
  import opened DetectorSpec
  import opened PingAckSpec
  import opened Cluster
  import opened Monotone
  import opened Merge
  import opened Refutation

  /** Record `i` of `us` is the only one about its node. */
  predicate OnlyOneAbout(us: seq<Update>, i: nat)
    requires i < |us|
  {
    forall j :: 0 <= j < |us| && us[j].id == us[i].id ==> j == i
  }

  /** After handleJoin exactly one entry has the joiner's address, every other address is as it was, and
      the log has gained one Failed record for each displaced identity and one Alive record of the joiner. */
  lemma JoinReplaces(c: Core, sender: NodeID, inc: int, now: int, displaced: seq<NodeID>, listing: seq<NodeID>)
    requires Enumerates(displaced, Displaced(c.table, sender))
    requires Enumerates(listing, JoinedTable(c, sender, inc, now).Keys)
    ensures var c' := HandleJoin(c, sender, inc, now, displaced, listing);
      && (forall k :: k in c'.table && k.Address() == sender.Address() <==> k == sender)
      && c'.table[sender] == Rec(inc, Alive, At(now), Zero)
      && (forall k: NodeID :: k.Address() != sender.Address() ==>
            (k in c'.table <==> k in c.table) && (k in c.table ==> c'.table[k] == c.table[k]))
    ensures var c' := HandleJoin(c, sender, inc, now, displaced, listing);
      var added := c'.log[|c.log|..];
      && c'.log[..|c.log|] == c.log
      && |added| == |displaced| + 1 && added[|displaced|] == Update(sender, inc, Alive, now)
      && (forall k :: k in c.table && Displaces(sender, k) ==>
            exists i :: 0 <= i < |displaced| && added[i] == Update(k, c.table[k].inc, Failed, now))
      && (forall i :: 0 <= i < |displaced| ==>
            && added[i].id in c.table && Displaces(sender, added[i].id)
            && OnlyOneAbout(added, i))
  {
    var c' := HandleJoin(c, sender, inc, now, displaced, listing);
    var added := c'.log[|c.log|..];
    assert added == FailedRecords(displaced, c.table, now) + [Update(sender, inc, Alive, now)];
    forall k | k in c.table && Displaces(sender, k)
      ensures exists i :: 0 <= i < |displaced| && added[i] == Update(k, c.table[k].inc, Failed, now)
    {
      assert k in displaced;
      var i :| 0 <= i < |displaced| && displaced[i] == k;
      assert added[i] == Update(k, c.table[k].inc, Failed, now);
    }
    forall i | 0 <= i < |displaced|
      ensures added[i].id in c.table && Displaces(sender, added[i].id) && OnlyOneAbout(added, i)
    {
      assert displaced[i] in displaced;
      assert added[i].id == displaced[i];
    }
  }

  /** The response lists each entry of the new table exactly once. */
  lemma ResponseLists(c: Core, sender: NodeID, inc: int, now: int, displaced: seq<NodeID>, listing: seq<NodeID>)
    requires Enumerates(displaced, Displaced(c.table, sender))
    requires Enumerates(listing, JoinedTable(c, sender, inc, now).Keys)
    ensures var c' := HandleJoin(c, sender, inc, now, displaced, listing);
      var us := Listing(listing, c'.table, now);
      && Packet(Message(JoinResponse, c.local, NO_NODE, c.own, 0, us), sender.Address()) in c'.out
      && (forall k :: k in c'.table ==> Update(k, c'.table[k].inc, c'.table[k].status, now) in us)
      && (forall i :: 0 <= i < |us| ==> us[i].id in c'.table && OnlyOneAbout(us, i))
  {
    var c' := HandleJoin(c, sender, inc, now, displaced, listing);
    var us := Listing(listing, c'.table, now);
    forall k | k in c'.table ensures Update(k, c'.table[k].inc, c'.table[k].status, now) in us {
      assert k in listing;
      var i :| 0 <= i < |listing| && listing[i] == k;
      assert us[i] == Update(k, c'.table[k].inc, c'.table[k].status, now);
    }
    forall i | 0 <= i < |us| ensures us[i].id in c'.table && OnlyOneAbout(us, i) {
      assert listing[i] in listing;
    }
  }

  // ----- the joiner's side

  lemma AbsorbJoins(c: Core, u: Update, now: int, k: NodeID)
    requires k != c.local
    ensures var c' := Absorb(c, u, now);
      && c'.local == c.local
      && (k in c'.table <==> k in c.table || u.id == k)
      && (k in c'.table ==>
            c'.table[k].inc == if u.id != k then c.table[k].inc
                               else if k in c.table then Max(c.table[k].inc, u.inc) else u.inc)
  {
  }

  lemma {:induction false} AbsorbAllJoins(c: Core, us: seq<Update>, now: int, k: NodeID)
    requires k != c.local
    ensures var c' := AbsorbAll(c, us, now);
      c'.local == c.local && Joined(c, us, c', k)
  {
    if us != [] {
      var n := |us| - 1;
      var c1 := AbsorbAll(c, us[..n], now);
      AbsorbAllJoins(c, us[..n], now, k);
      AbsorbJoins(c1, us[n], now, k);
      JoinedSnoc(c, us, c1, AbsorbAll(c, us, now), k);
    }
  }

  lemma {:induction false} ClearsFromBatch(c: Core, us: seq<Update>, now: int)
    ensures forall u :: u in Clears(c, us, now) ==> u in us && u.id != c.local && u.status.Alive?
    ensures AbsorbAll(c, us, now).local == c.local
  {
    if us != [] {
      ClearsFromBatch(c, us[..|us| - 1], now);
    }
  }

  lemma ClearSame(c: Core, id: NodeID, inc: int)
    requires id != c.local && id in c.table && inc <= c.table[id].inc
    ensures SameIncs(c, ClearSuspect(c, id, inc))
    ensures c.local in c.table ==> ClearSuspect(c, id, inc).table[c.local] == c.table[c.local]
  {
  }

  /** Clearing at recorded incarnations or below changes none. */
  lemma {:induction false} ClearAllSame(c: Core, us: seq<Update>)
    requires forall u :: u in us ==> u.id != c.local && u.id in c.table && u.inc <= c.table[u.id].inc
    ensures SameIncs(c, ClearAll(c, us))
    ensures c.local in c.table ==> ClearAll(c, us).table[c.local] == c.table[c.local]
  {
    hide ClearSuspect;
    if us != [] {
      var n := |us| - 1;
      ClearAllSame(c, us[..n]);
      ClearSame(ClearAll(c, us[..n]), us[n].id, us[n].inc);
    }
  }

  lemma {:induction false} AbsorbAllSpares(c: Core, us: seq<Update>, now: int)
    ensures var c' := AbsorbAll(c, us, now);
      && c'.local == c.local
      && (c.local in c'.table <==> c.local in c.table)
      && (c.local in c.table ==> c'.table[c.local] == c.table[c.local])
  {
    if us != [] {
      AbsorbAllSpares(c, us[..|us| - 1], now);
    }
  }

  /** handleJoinResponse never changes the local entry, and takes the larger incarnation for everyone else. */
  lemma ResponseJoins(c: Core, us: seq<Update>, now: int)
    ensures var c' := HandleJoinResponse(c, us, now);
      && c'.local == c.local
      && (c.local in c'.table <==> c.local in c.table)
      && (c.local in c.table ==> c'.table[c.local] == c.table[c.local])
      && forall k :: k != c.local ==> Joined(c, us, c', k)
  {
    hide Joined, AbsorbAll, ClearAll, Clears;
    var c1 := AbsorbAll(c, us, now);
    var c' := HandleJoinResponse(c, us, now);
    AbsorbAllSpares(c, us, now);
    ClearsFromBatch(c, us, now);
    forall u | u in Clears(c, us, now) ensures u.id in c1.table && u.inc <= c1.table[u.id].inc {
      AbsorbAllJoins(c, us, now, u.id);
      JoinedMember(c, us, c1, u);
    }
    ClearAllSame(c1, Clears(c, us, now));
    forall k | k != c.local ensures Joined(c, us, c', k) {
      AbsorbAllJoins(c, us, now, k);
      JoinedSame(c, us, c1, c', k);
    }
  }

  // ----- statuses

  /** Update `i` is the first among those about `k` at the largest incarnation. */
  predicate Leads(us: seq<Update>, i: nat, k: NodeID) {
    && i < |us| && us[i].id == k
    && (forall j :: 0 <= j < |us| && us[j].id == k ==> us[j].inc <= us[i].inc)
    && (forall j :: 0 <= j < i && us[j].id == k ==> us[j].inc < us[i].inc)
  }

  predicate NotAbout(us: seq<Update>, k: NodeID) {
    forall u :: u in us ==> u.id != k
  }

  /** The record holds what the update says: its incarnation and status, a fresh heartbeat, and a suspicion clock
      that starts if it is Suspected. */
  predicate Holds(r: Rec, u: Update, now: int) {
    && r.inc == u.inc && r.status == u.status && r.heartbeat == At(now)
    && (u.status.Suspected? ==> r.since == At(now)) && (u.status.Alive? ==> r.since == Zero)
  }

  /** What the first updates of a response have made of `k`: the leading one decides, if it was news. */
  ghost predicate Decided(c: Core, us: seq<Update>, c': Core, k: NodeID, now: int) {
    && (NotAbout(us, k) ==> (k in c'.table <==> k in c.table) && (k in c.table ==> c'.table[k] == c.table[k]))
    && (forall i: nat :: i < |us| && Leads(us, i, k) ==>
          k in c'.table && if News(c, us[i]) then Holds(c'.table[k], us[i], now) else k in c.table && c'.table[k] == c.table[k])
  }

  /** Without the last update. */
  lemma LeadsBefore(us: seq<Update>, k: NodeID)
    requires us != []
    ensures var n := |us| - 1;
      forall i: nat :: Leads(us, i, k) ==> (i < n ==> Leads(us[..n], i, k)) && (i == n ==> us[n].id == k)
    ensures var n := |us| - 1;
      forall i: nat :: Leads(us[..n], i, k) && us[n].id == k && us[n].inc > us[i].inc ==> !Leads(us, i, k)
    ensures NotAbout(us, k) ==> NotAbout(us[..|us| - 1], k)
  {
  }

  lemma {:induction false} SomeoneLeads(us: seq<Update>, k: NodeID) returns (i: nat)
    requires !NotAbout(us, k)
    ensures Leads(us, i, k)
  {
    var n := |us| - 1;
    assert us == us[..n] + [us[n]];
    if NotAbout(us[..n], k) {
      i := n;
      assert forall j :: 0 <= j < n ==> us[..n][j] in us[..n];
    } else {
      i := SomeoneLeads(us[..n], k);
      if us[n].id == k && us[n].inc > us[i].inc {
        i := n;
      }
    }
  }

  lemma AbsorbDecides(c1: Core, u: Update, now: int, k: NodeID)
    requires k != c1.local
    ensures var c2 := Absorb(c1, u, now);
      if u.id == k && News(c1, u) then k in c2.table && Holds(c2.table[k], u, now)
      else (k in c2.table <==> k in c1.table) && (k in c1.table ==> c2.table[k] == c1.table[k])
  {
  }

  lemma LeadsAgain(us: seq<Update>, i: nat, j: nat, k: NodeID)
    requires Leads(us, i, k) && Leads(us, j, k)
    ensures i == j
  {
  }

  /** One more update. */
  lemma DecidesNext(c: Core, us: seq<Update>, c1: Core, c2: Core, k: NodeID, now: int)
    requires us != [] && k != c.local && c1.local == c.local
    requires var n := |us| - 1; Decided(c, us[..n], c1, k, now) && c2 == Absorb(c1, us[n], now)
    ensures Decided(c, us, c2, k, now)
  {
    hide Absorb, Leads, Holds;
    var n := |us| - 1;
    assert us == us[..n] + [us[n]];
    AbsorbDecides(c1, us[n], now, k);
    forall i: nat | i < |us| && Leads(us, i, k)
      ensures k in c2.table && if News(c, us[i]) then Holds(c2.table[k], us[i], now) else k in c.table && c2.table[k] == c.table[k]
    {
      if NotAbout(us[..n], k) {
        LeadsLast(us, i, k);
      } else {
        var m := SomeoneLeads(us[..n], k);
        LeadsNext(us, i, m, k);
        HoldsInc(c1, us[m], now, k);
      }
    }
  }

  lemma HoldsInc(c: Core, u: Update, now: int, k: NodeID)
    ensures k in c.table && Holds(c.table[k], u, now) ==> c.table[k].inc == u.inc
  {
  }

  lemma LeadsLast(us: seq<Update>, i: nat, k: NodeID)
    requires us != [] && NotAbout(us[..|us| - 1], k) && Leads(us, i, k)
    ensures i == |us| - 1 && us[i].id == k
  {
    var before := us[..|us| - 1];
    assert forall j :: 0 <= j < |before| ==> before[j] in before;
  }

  /** The last update takes the lead only from below. */
  lemma LeadsNext(us: seq<Update>, i: nat, m: nat, k: NodeID)
    requires us != [] && Leads(us, i, k) && Leads(us[..|us| - 1], m, k)
    ensures var n := |us| - 1;
      m < n && us[m].id == k && i == if us[n].id == k && us[n].inc > us[m].inc then n else m
    ensures us[i].id == k
  {
    var n := |us| - 1;
    if us[n].id == k && us[n].inc > us[m].inc {
      assert Leads(us, n, k);
      LeadsAgain(us, i, n, k);
    } else {
      assert Leads(us, m, k);
      LeadsAgain(us, i, m, k);
    }
  }

  lemma {:induction false} AbsorbAllDecides(c: Core, us: seq<Update>, now: int, k: NodeID)
    requires k != c.local
    ensures Decided(c, us, AbsorbAll(c, us, now), k, now) && AbsorbAll(c, us, now).local == c.local
  {
    hide Absorb, Leads, Holds;
    if us == [] {
      NobodyLeads(k);
    } else {
      var n := |us| - 1;
      var c1 := AbsorbAll(c, us[..n], now);
      AbsorbAllDecides(c, us[..n], now, k);
      AbsorbSpares(c1, us[n], now);
      DecidesNext(c, us, c1, Absorb(c1, us[n], now), k, now);
    }
  }

  lemma NobodyLeads(k: NodeID)
    ensures forall i: nat :: !Leads([], i, k)
  {
  }

  lemma AbsorbSpares(c: Core, u: Update, now: int)
    ensures Absorb(c, u, now).local == c.local
  {
  }

  /** A clear that a response gives rise to is below the record it leads to, or at it and then the record is Alive. */
  predicate ClearsAgree(c': Core, clears: seq<Update>, k: NodeID) {
    forall u :: u in clears && u.id == k ==>
      k in c'.table && (u.inc < c'.table[k].inc || (u.inc == c'.table[k].inc && c'.table[k].status.Alive?))
  }

  lemma AgreesNext(c1: Core, clears: seq<Update>, u: Update, now: int, k: NodeID)
    requires k != c1.local && ClearsAgree(c1, clears, k)
    ensures ClearsAgree(Absorb(c1, u, now), clears + if News(c1, u) && u.status.Alive? then [u] else [], k)
  {
    AbsorbDecides(c1, u, now, k);
    hide Absorb;
  }

  lemma {:induction false} ClearsAgreeing(c: Core, us: seq<Update>, now: int, k: NodeID)
    requires k != c.local
    ensures ClearsAgree(AbsorbAll(c, us, now), Clears(c, us, now), k) && AbsorbAll(c, us, now).local == c.local
  {
    hide Absorb, News;
    if us != [] {
      var n := |us| - 1;
      var c1 := AbsorbAll(c, us[..n], now);
      ClearsAgreeing(c, us[..n], now, k);
      AbsorbSpares(c1, us[n], now);
      AgreesNext(c1, Clears(c, us[..n], now), us[n], now, k);
    }
  }

  lemma ClearKept(c: Core, u: Update, k: NodeID)
    requires u.id == k && k in c.table ==> u.inc < c.table[k].inc || (u.inc == c.table[k].inc && c.table[k].status.Alive?)
    ensures var c' := ClearSuspect(c, u.id, u.inc);
      c'.local == c.local && (k in c'.table <==> k in c.table) && (k in c.table ==> c'.table[k] == c.table[k])
  {
  }

  lemma {:induction false} ClearAllKeeps(c: Core, us: seq<Update>, k: NodeID)
    requires ClearsAgree(c, us, k)
    ensures ClearAll(c, us).local == c.local
    ensures (k in ClearAll(c, us).table <==> k in c.table) && (k in c.table ==> ClearAll(c, us).table[k] == c.table[k])
  {
    hide ClearSuspect;
    if us != [] {
      var n := |us| - 1;
      ClearAllKeeps(c, us[..n], k);
      ClearKept(ClearAll(c, us[..n]), us[n], k);
    }
  }

  /** The status of `k` after a join response is that of the first update at the largest incarnation, if that was
      news, with a fresh heartbeat, and a suspicion clock if it is Suspected; otherwise the record is as it was. */
  lemma ResponseStatuses(c: Core, us: seq<Update>, now: int, k: NodeID)
    requires k != c.local
    ensures Decided(c, us, HandleJoinResponse(c, us, now), k, now)
  {
    hide AbsorbAll, ClearAll, Clears, Leads, Holds;
    AbsorbAllDecides(c, us, now, k);
    ClearsAgreeing(c, us, now, k);
    ClearAllKeeps(AbsorbAll(c, us, now), Clears(c, us, now), k);
  }

  lemma JoinedMember(c: Core, us: seq<Update>, c': Core, u: Update)
    requires Joined(c, us, c', u.id) && u in us
    ensures u.id in c'.table && u.inc <= c'.table[u.id].inc
  {
  }

  lemma JoinedSame(c: Core, us: seq<Update>, c1: Core, c2: Core, k: NodeID)
    requires Joined(c, us, c1, k) && SameIncs(c1, c2)
    ensures Joined(c, us, c2, k)
  {
  }

  /** A response that brings no news changes nothing. */
  lemma {:induction false} StaleResponse(c: Core, us: seq<Update>, now: int)
    requires forall u :: u in us ==> !News(c, u)
    ensures AbsorbAll(c, us, now) == c && Clears(c, us, now) == []
  {
    if us != [] {
      StaleResponse(c, us[..|us| - 1], now);
    }
  }

  /** A response handled twice, at whatever times, is as good as handled once. */
  lemma ReplayHarmless(c: Core, us: seq<Update>, now: int, later: int)
    ensures var c' := HandleJoinResponse(c, us, now);
      HandleJoinResponse(c', us, later) == c'
  {
    hide AbsorbAll, ClearAll, Clears, HandleJoinResponse, Joined;
    var c' := HandleJoinResponse(c, us, now);
    ResponseJoins(c, us, now);
    forall u | u in us ensures !News(c', u) {
      if u.id != c.local {
        JoinedMember(c, us, c', u);
      }
    }
    NoNews(c', us, later);
  }

  lemma NoNews(c: Core, us: seq<Update>, now: int)
    requires forall u :: u in us ==> !News(c, u)
    ensures HandleJoinResponse(c, us, now) == c
  {
    StaleResponse(c, us, now);
  }

  /** A list that has a table's record of `k`, and nothing else of `k`. */
  lemma TakenOver(c: Core, us: seq<Update>, later: int, k: NodeID, table: map<NodeID, Rec>, now: int)
    requires k != c.local
    requires k in table ==> Update(k, table[k].inc, table[k].status, now) in us
    requires forall i :: 0 <= i < |us| ==> us[i].id in table && OnlyOneAbout(us, i)
    ensures var c' := HandleJoinResponse(c, us, later);
      && (k in table && (k in c.table ==> c.table[k].inc < table[k].inc) ==>
            k in c'.table && Holds(c'.table[k], Update(k, table[k].inc, table[k].status, now), later))
      && (k in c.table && (k in table ==> table[k].inc <= c.table[k].inc) ==> k in c'.table && c'.table[k] == c.table[k])
  {
    hide HandleJoinResponse, Holds;
    ResponseStatuses(c, us, later, k);
    if k in table {
      var i :| 0 <= i < |us| && us[i] == Update(k, table[k].inc, table[k].status, now);
      assert OnlyOneAbout(us, i);
      assert Leads(us, i, k);
    }
  }

  /** The whole handshake: whoever the introducer knows after the join, the joiner knows after the
      response, at least as recently; and whoever it did not know, or knew less recently, it knows with the
      introducer's incarnation and status, as just heard of, and if Suspected then from now on. */
  lemma HandshakeTransfers(intro: Core, joiner: Core, inc: int, now: int, later: int,
                           displaced: seq<NodeID>, listing: seq<NodeID>, k: NodeID)
    requires Enumerates(displaced, Displaced(intro.table, joiner.local))
    requires Enumerates(listing, JoinedTable(intro, joiner.local, inc, now).Keys)
    requires k != joiner.local
    ensures var i' := HandleJoin(intro, joiner.local, inc, now, displaced, listing);
      var j' := HandleJoinResponse(joiner, Listing(listing, i'.table, now), later);
      && (k in j'.table <==> k in i'.table || k in joiner.table)
      && (k in i'.table ==>
            j'.table[k].inc == if k in joiner.table then Max(joiner.table[k].inc, i'.table[k].inc) else i'.table[k].inc)
      && (k in i'.table && (k in joiner.table ==> joiner.table[k].inc < i'.table[k].inc) ==>
            Holds(j'.table[k], Update(k, i'.table[k].inc, i'.table[k].status, now), later))
      && (k in joiner.table && (k in i'.table ==> i'.table[k].inc <= joiner.table[k].inc) ==> j'.table[k] == joiner.table[k])
  {
    hide HandleJoinResponse, Holds;
    var i' := HandleJoin(intro, joiner.local, inc, now, displaced, listing);
    var us := Listing(listing, i'.table, now);
    ResponseLists(intro, joiner.local, inc, now, displaced, listing);
    ResponseJoins(joiner, us, later);
    assert Joined(joiner, us, HandleJoinResponse(joiner, us, later), k);
    if k in i'.table {
      assert Update(k, i'.table[k].inc, i'.table[k].status, now) in us;
    }
    forall u | u in us ensures u.id in i'.table && u.inc == i'.table[u.id].inc {
    }
    TakenOver(joiner, us, later, k, i'.table, now);
  }

  // ----- over a path of the cluster

  /** What taking a new identity does: the old entry goes, the new one carries the counter, everybody else stays, and
      the introducer is told. */
  lemma Rejoins(cfg: Config, p: Proc, a: Action)
    requires Enabled(cfg, p, a) && a.Reidentify?
    ensures var c, c' := p.core, Act(cfg, p, a).core;
      && c'.local == a.id && c'.own == c.own && c'.entries == c.entries
      && a.id in c'.table && c'.table[a.id] == Rec(c.own, Alive, At(a.now), Zero)
      && (c.local != a.id ==> c.local !in c'.table)
      && (forall k :: k != a.id && k != c.local ==>
            (k in c'.table <==> k in c.table) && (k in c.table ==> c'.table[k] == c.table[k]))
      && Packet(Message(Join, a.id, NO_NODE, c.own, 0, []), a.dest) in c'.out
  {
    ReidentifyActs(cfg, p, a);
  }

  lemma JoinHandled(cfg: Config, p: Proc, a: Action)
    requires Enabled(cfg, p, a) && a.Receive? && a.msg.kind.Join?
    ensures var c, msg := p.core, a.msg;
      && Enumerates(a.displaced, Displaced(c.table, msg.sender))
      && Enumerates(a.listing, JoinedTable(c, msg.sender, msg.inc, a.now).Keys)
      && Act(cfg, p, a).core == HandleJoin(c, msg.sender, msg.inc, a.now, a.displaced, a.listing)
  {
    hide Handle, HandleJoin;
    ReceiveActs(cfg, p, a);
    HandleIsJoin(cfg, p, a);
  }

  lemma HandleIsJoin(cfg: Config, p: Proc, a: Action)
    requires a.Receive? && ReceiveEnabled(p, a) && a.msg.kind.Join?
    ensures Handle(cfg, p, a).core == HandleJoin(p.core, a.msg.sender, a.msg.inc, a.now, a.displaced, a.listing)
  {
    hide HandleJoin;
  }

  lemma ResponseHandled(cfg: Config, p: Proc, a: Action)
    requires Enabled(cfg, p, a) && a.Receive? && a.msg.kind.JoinResponse?
    ensures Act(cfg, p, a).core == HandleJoinResponse(p.core, a.msg.members, a.now)
  {
    hide HandleJoinResponse, ReceiveEnabled;
  }

  /** The answer of `y` to a Join that it handles at step `b`. */
  function Answer(s: State, s': State, y: nat, a: Action): Message
    requires y in s.procs && y in s'.procs && a.Receive?
    requires forall k :: k in a.listing ==> k in s'.procs[y].core.table
  {
    var c := s.procs[y].core;
    Message(JoinResponse, c.local, NO_NODE, c.own, 0, Listing(a.listing, s'.procs[y].core.table, a.now))
  }

  /** Process `i`, under the identity `id`, handles the answer. */
  predicate Answered(s: State, st: Step, i: nat, id: NodeID, answer: Message) {
    st.Do? && st.i == i && i in s.procs && s.procs[i].core.local == id && st.a.Receive? && st.a.msg == answer
  }

  /** Joining from end to end. Process `i` takes the identity `id` (step `a`); its Join reaches a process `y`
      (step `b`), which lists it as Alive from then on; the answer reaches `i` under that identity (step `e`), which
      afterwards knows of everyone else what the two of them knew, the introducer's word counting where it was news. */
  lemma JoinEndToEnd(cfg: Config, states: seq<State>, steps: seq<Step>, a: nat, i: nat, b: nat, y: nat, e: nat, k: NodeID)
    requires Path(cfg, states, steps) && a < b < e < |steps|
    requires steps[a].Do? && steps[a].i == i && steps[a].a.Reidentify?
    requires steps[b].Do? && steps[b].i == y && steps[b].a.Receive? && i in states[a].procs
    requires steps[b].a.msg == Message(Join, steps[a].a.id, NO_NODE, states[a].procs[i].core.own, 0, [])
    requires k != steps[a].a.id
    ensures InFlight(states[b], Packet(steps[b].a.msg, steps[a].a.dest))
    ensures y in states[b].procs && y in states[b + 1].procs
    ensures var id, now, table := steps[a].a.id, steps[b].a.now, states[b + 1].procs[y].core.table;
      && id in table && table[id] == Rec(states[a].procs[i].core.own, Alive, At(now), Zero)
      && (forall x :: x in steps[b].a.listing ==> x in table)
      && InFlight(states[e], Packet(Answer(states[b], states[b + 1], y, steps[b].a), id.Address()))
    ensures Answered(states[e], steps[e], i, steps[a].a.id, Answer(states[b], states[b + 1], y, steps[b].a)) ==>
      && i in states[e + 1].procs
      && var told := states[b + 1].procs[y].core.table;
      var before, after := states[e].procs[i].core.table, states[e + 1].procs[i].core.table;
      && (k in after <==> k in told || k in before)
      && (k in told && (k in before ==> before[k].inc < told[k].inc) ==>
            Holds(after[k], Update(k, told[k].inc, told[k].status, steps[b].a.now), steps[e].a.now))
      && (k in before && (k in told ==> told[k].inc <= before[k].inc) ==> after[k] == before[k])
  {
    hide Act, Enabled, HandleJoin, HandleJoinResponse, Holds, Enumerates;
    var A, B, E := steps[a].a, steps[b].a, steps[e];
    Rejoins(cfg, states[a].procs[i], A);
    StaysInFlight(cfg, states, steps, i, Packet(B.msg, A.dest), a + 1, b);
    JoinHandled(cfg, states[b].procs[y], B);
    var intro := states[b].procs[y].core;
    var now := B.now;
    JoinReplaces(intro, A.id, B.msg.inc, now, B.displaced, B.listing);
    ResponseLists(intro, A.id, B.msg.inc, now, B.displaced, B.listing);
    ListedKnown(intro, A.id, B.msg.inc, now, B.displaced, B.listing);
    StaysInFlight(cfg, states, steps, y, Packet(Answer(states[b], states[b + 1], y, B), A.id.Address()), b + 1, e);
    if Answered(states[e], E, i, A.id, Answer(states[b], states[b + 1], y, B)) {
      ResponseHandled(cfg, states[e].procs[i], E.a);
      HandshakeTransfers(intro, states[e].procs[i].core, B.msg.inc, now, E.a.now, B.displaced, B.listing, k);
    }
  }

  lemma ListedKnown(c: Core, sender: NodeID, inc: int, now: int, displaced: seq<NodeID>, listing: seq<NodeID>)
    requires Enumerates(listing, JoinedTable(c, sender, inc, now).Keys)
    ensures forall k :: k in listing ==> k in HandleJoin(c, sender, inc, now, displaced, listing).table
  {
  }
}
