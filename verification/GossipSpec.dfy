/** The gossip detector (detectors/gossip.go). */
module GossipSpec {
  import opened Types
  import opened SuspicionSpec
  import opened UpdateLogSpec
  import opened DetectorSpec

  const FANOUT := 3

  function SuspectThreshold(ts: Timeouts): int {
    if ts.failure <= 0 then 3 * SECOND else ts.failure
  }

  function ConfirmThreshold(ts: Timeouts): int {
    var f := SuspectThreshold(ts);
    if f + ts.cleanup <= f then f + SECOND else f + ts.cleanup
  }

  /** An Alive member that has been silent for too long. */
  predicate Silent(r: Rec, ts: Timeouts, now: int) {
    r.status.Alive? && Elapsed(now, r.heartbeat) >= SuspectThreshold(ts)
  }

  predicate Removable(r: Rec, ts: Timeouts, susp: bool, now: int) {
    match r.status
    case Alive => !susp && Silent(r, ts, now)
    case Suspected => Elapsed(now, r.since) >= ConfirmThreshold(ts)
    case Failed => ts.cleanup > 0 && Elapsed(now, r.heartbeat) >= ts.cleanup
  }

  function SilentSet(c: Core, ts: Timeouts, susp: bool, now: int): set<NodeID> {
    set k | k in c.table && k != c.local && susp && Silent(c.table[k], ts, now)
  }

  function RemovableSet(c: Core, ts: Timeouts, susp: bool, now: int): set<NodeID> {
    set k | k in c.table && k != c.local && Removable(c.table[k], ts, susp, now)
  }

  /** The pass over the table, under the membership lock. */
  function Swept(c: Core, ts: Timeouts, susp: bool, now: int): Core {
    c.(table := map k | k in c.table && !(k != c.local && Removable(c.table[k], ts, susp, now)) ::
         if k != c.local && susp && Silent(c.table[k], ts, now)
         then c.table[k].(status := Suspected, since := At(now))
         else c.table[k])
  }

  /** Logs and reports each of `ids`, found silent in `table`. */
  function ReportSilent(c: Core, o: Options, ids: seq<NodeID>, table: map<NodeID, Rec>, now: int): Core {
    if ids == [] then c
    else
      var n := |ids| - 1;
      var c' := ReportSilent(c, o, ids[..n], table, now);
      var inc := RecordedInc(table, ids[n]);
      ProcessSuspicion(Append(c', Update(ids[n], inc, Suspected, now)), o, c.local, ids[n], inc, now)
  }

  function GossipCheck(c: Core, o: Options, ts: Timeouts, susp: bool, now: int,
                       silent: seq<NodeID>, removed: seq<NodeID>): Core {
    var c' := ReportSilent(Swept(c, ts, susp, now), o, silent, c.table, now);
    c'.(log := c'.log + FailedRecords(removed, c.table, now))
  }

  function HandleHeartbeat(c: Core, o: Options, susp: bool, msg: Message, now: int): Core {
    ProcessUpdates(Touch(c, msg.sender, msg.inc, now), o, susp, msg.members, msg.sender, now)
  }

  function HandleConfirm(c: Core, target: NodeID, inc: int, now: int): Core {
    if target in c.table && inc >= c.table[target].inc then
      PutLogged(c, target, c.table[target].(status := Failed, inc := inc), now)
    else
      c
  }

  /** A round that gossips to `targets` and also advertises `extras`. */
  function GossipRound(c: Core, targets: seq<NodeID>, extras: seq<NodeID>, now: int): Core
    requires forall k :: k in targets || k in extras ==> k in c.table
  {
    var self := if c.local in c.table then [c.local] else [];
    var c' := Expire(c.(log := c.log + Listing(self + targets + extras, c.table, now)), now);
    var msg := Message(Heartbeat, c.local, NO_NODE, c.own, 0, Prefix(c'.log, 10));
    c'.(out := c'.out + set t | t in targets :: Packet(msg, t.Address()))
  }
}
