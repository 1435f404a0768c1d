/** The message handlers that the ping/ack and the gossip detector define alike
    (detectors/pingack.go, detectors/gossip.go). */
module DetectorSpec {
  import opened Types
  import opened SuspicionSpec
  import opened UpdateLogSpec

  function Append(c: Core, u: Update): Core {
    c.(log := c.log + [u])
  }

  /** Writes a record to the table and to the update log. */
  function PutLogged(c: Core, id: NodeID, r: Rec, now: int): Core {
    c.(table := c.table[id := r], log := c.log + [Update(id, r.inc, r.status, now)])
  }

  function Learned(u: Update, now: int): Rec {
    Rec(u.inc, u.status, At(now), if u.status.Suspected? then At(now) else Zero)
  }

  /** An update about a member already in the table. */
  function MergeRecord(c: Core, susp: bool, u: Update, now: int): Core
    requires u.id in c.table
  {
    var r := c.table[u.id];
    if u.inc > r.inc then
      PutLogged(c, u.id,
                Rec(u.inc, u.status,
                    if u.status.Alive? then At(now) else r.heartbeat,
                    if u.status.Alive? then Zero else if u.status.Suspected? && susp then At(now) else r.since),
                now)
    else if u.inc == r.inc && u.status.Alive? && r.status.Suspected? then
      PutLogged(c, u.id, Rec(r.inc, Alive, At(now), Zero), now)
    else if u.inc == r.inc && u.status.Suspected? && r.status.Alive? then
      PutLogged(c, u.id, r.(status := Suspected, since := At(now)), now)
    else
      c
  }

  /** What a piggybacked update asks of the suspicion manager. */
  function Escalate(c: Core, o: Options, susp: bool, u: Update, reporter: NodeID, now: int): Core {
    if u.status.Suspected? && susp then ProcessSuspicion(c, o, reporter, u.id, u.inc, now)
    else if u.status.Alive? then ClearSuspect(c, u.id, u.inc)
    else c
  }

  function ProcessUpdate(c: Core, o: Options, susp: bool, u: Update, reporter: NodeID, now: int): Core {
    if u.id == c.local then
      Escalate(c, o, susp, u, reporter, now)
    else if u.id !in c.table then
      PutLogged(c, u.id, Learned(u, now), now)
    else
      Escalate(MergeRecord(c, susp, u, now), o, susp, u, reporter, now)
  }

  function ProcessUpdates(c: Core, o: Options, susp: bool, us: seq<Update>, reporter: NodeID, now: int): Core {
    if us == [] then c
    else
      var n := |us| - 1;
      ProcessUpdate(ProcessUpdates(c, o, susp, us[..n], reporter, now), o, susp, us[n], reporter, now)
  }

  /** A direct sign of life from `sender`: the table part of handlePing, handleHeartbeat and handleAck. */
  function Touch(c: Core, sender: NodeID, inc: int, now: int): Core {
    if sender !in c.table then
      PutLogged(c, sender, Rec(inc, Alive, At(now), Zero), now)
    else
      var r := c.table[sender];
      if inc > r.inc then
        PutLogged(c, sender, Rec(inc, Alive, At(now), Zero), now)
      else if inc == r.inc && r.status.Suspected? then
        PutLogged(c, sender, Rec(r.inc, Alive, At(now), Zero), now)
      else if inc == r.inc then
        c.(table := c.table[sender := r.(heartbeat := At(now))])
      else
        c
  }

  function HandleAlive(c: Core, sender: NodeID, inc: int, now: int): Core {
    var c' :=
      if sender in c.table && inc >= c.table[sender].inc
         && (!c.table[sender].status.Alive? || inc > c.table[sender].inc)
      then PutLogged(c, sender, Rec(inc, Alive, At(now), Zero), now)
      else c;
    ClearSuspect(c', sender, inc)
  }

  /** The entries a joiner displaces: its own address under another timestamp. */
  predicate Displaces(joiner: NodeID, id: NodeID) {
    id.Address() == joiner.Address() && id.timestamp != joiner.timestamp
  }

  function Displaced(table: map<NodeID, Rec>, joiner: NodeID): set<NodeID> {
    set k | k in table && Displaces(joiner, k)
  }

  /** One Failed record for each of `ids`, at the incarnations `table` holds for them. */
  function FailedRecords(ids: seq<NodeID>, table: map<NodeID, Rec>, now: int): seq<Update> {
    seq(|ids|, i requires 0 <= i < |ids| => Update(ids[i], RecordedInc(table, ids[i]), Failed, now))
  }

  /** The table as a list of updates, in the order of `ids`. */
  function Listing(ids: seq<NodeID>, table: map<NodeID, Rec>, now: int): seq<Update>
    requires forall k :: k in ids ==> k in table
  {
    seq(|ids|, i requires 0 <= i < |ids| => Update(ids[i], table[ids[i]].inc, table[ids[i]].status, now))
  }

  function JoinedTable(c: Core, sender: NodeID, inc: int, now: int): map<NodeID, Rec> {
    (c.table - Displaced(c.table, sender))[sender := Rec(inc, Alive, At(now), Zero)]
  }

  /** `displaced` and `listing` are the orders in which the handler ranges over the two maps. */
  function HandleJoin(c: Core, sender: NodeID, inc: int, now: int,
                      displaced: seq<NodeID>, listing: seq<NodeID>): Core
    requires forall k :: k in listing ==> k in JoinedTable(c, sender, inc, now)
  {
    var table := JoinedTable(c, sender, inc, now);
    var response := Message(JoinResponse, c.local, NO_NODE, c.own, 0, Listing(listing, table, now));
    c.(table := table,
       log := c.log + FailedRecords(displaced, c.table, now) + [Update(sender, inc, Alive, now)],
       out := c.out + {Packet(response, sender.Address())})
  }

  /** Does a join response tell `c` something new about `u.id`? */
  predicate News(c: Core, u: Update) {
    u.id != c.local && (u.id in c.table ==> u.inc > c.table[u.id].inc)
  }

  function Absorb(c: Core, u: Update, now: int): Core {
    if !News(c, u) then c
    else if u.id !in c.table then PutLogged(c, u.id, Learned(u, now), now)
    else
      PutLogged(c, u.id,
                Rec(u.inc, u.status, At(now),
                    if u.status.Suspected? then At(now)
                    else if u.status.Alive? then Zero
                    else c.table[u.id].since),
                now)
  }

  function AbsorbAll(c: Core, us: seq<Update>, now: int): Core {
    if us == [] then c else Absorb(AbsorbAll(c, us[..|us| - 1], now), us[|us| - 1], now)
  }

  /** The updates of a join response that were news of a living member. */
  function Clears(c: Core, us: seq<Update>, now: int): seq<Update> {
    if us == [] then []
    else
      var before, u := us[..|us| - 1], us[|us| - 1];
      Clears(c, before, now) + if News(AbsorbAll(c, before, now), u) && u.status.Alive? then [u] else []
  }

  function ClearAll(c: Core, us: seq<Update>): Core {
    if us == [] then c
    else ClearSuspect(ClearAll(c, us[..|us| - 1]), us[|us| - 1].id, us[|us| - 1].inc)
  }

  function HandleJoinResponse(c: Core, us: seq<Update>, now: int): Core {
    ClearAll(AbsorbAll(c, us, now), Clears(c, us, now))
  }

  function HandleLeave(c: Core, sender: NodeID, now: int): Core {
    if sender in c.table then
      Append(c.(table := c.table - {sender}), Update(sender, c.table[sender].inc, Failed, now))
    else
      c
  }

  /** Rejoining under the identity `id` (RefreshLocalNode and JoinGroup). */
  function Rejoin(c: Core, id: NodeID, dest: Addr, now: int): Core {
    c.(local := id,
       table := (c.table - {c.local})[id := Rec(c.own, Alive, At(now), Zero)],
       out := c.out + {Packet(Message(Join, id, NO_NODE, c.own, 0, []), dest)})
  }

  function LeaveGroup(c: Core): Core {
    c.(out := c.out + Broadcast(c.table, Message(Leave, c.local, NO_NODE, c.own, 0, []), {c.local}))
  }

  /** Drops expired records: the part of GetRecentUpdates that changes state. */
  function Expire(c: Core, now: int): Core {
    c.(log := Live(c.log, now))
  }

  /** A member that random selection may return. */
  predicate Eligible(table: map<NodeID, Rec>, local: NodeID, exclude: set<NodeID>, id: NodeID) {
    id in table && table[id].status.Alive? && id != local && id !in exclude
  }

  function EligibleSet(table: map<NodeID, Rec>, local: NodeID, exclude: set<NodeID>): set<NodeID> {
    set k | k in table && Eligible(table, local, exclude, k)
  }

  /** A possible outcome of GetRandomMembers. */
  ghost predicate Selection(table: map<NodeID, Rec>, local: NodeID, exclude: set<NodeID>, n: nat, chosen: seq<NodeID>) {
    && (forall i, j :: 0 <= i < j < |chosen| ==> chosen[i] != chosen[j])
    && (forall k :: k in chosen ==> Eligible(table, local, exclude, k))
    && |chosen| == Min(n, |EligibleSet(table, local, exclude)|)
  }
}
