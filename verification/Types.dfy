/** Values shared by every part of the protocol (utils/types.go). */
module Types {

  /** An optional value. */
  datatype Option<+T> = None | Some(value: T)

  /** Where a datagram is sent: the printed form `ip:port` of a node, kept as its two parts. */
  datatype Addr = Addr(ip: string, port: int)

  datatype NodeID = NodeID(ip: string, port: int, timestamp: int) {
    function Address(): Addr {
      Addr(ip, port)
    }
  }

  /** The target of a message that names none (the zero NodeID). */
  const NO_NODE := NodeID("", 0, 0)

  datatype Status = Alive | Suspected | Failed

  /** A clock reading, or the zero time. */
  datatype Instant = Zero | At(t: int)

  /** The longest representable duration, which a subtraction from the zero time saturates to. */
  const MAX_DURATION := 0x7FFF_FFFF_FFFF_FFFF

  const SECOND := 1_000_000_000

  function Elapsed(now: int, since: Instant): int {
    match since
    case Zero => MAX_DURATION
    case At(t) => now - t
  }

  const MAX_INT32 := 0x7FFF_FFFF
  const MIN_INT32 := -0x8000_0000

  /** `x + 1` in 32-bit two's complement. */
  function Int32Succ(x: int): int {
    if x == MAX_INT32 then MIN_INT32 else x + 1
  }

  function Max(a: int, b: int): int {
    if a < b then b else a
  }

  function Min(a: int, b: int): int {
    if a < b then a else b
  }

  /** What a membership table holds about one member, its identity apart. */
  datatype Rec = Rec(inc: int, status: Status, heartbeat: Instant, since: Instant)

  /** One record of the update log, and one piggybacked update. */
  datatype Update = Update(id: NodeID, inc: int, status: Status, stamp: int)

  datatype Kind =
    | Heartbeat | Ping | Ack | IndirectPing | IndirectAck
    | Join | JoinResponse | Leave | Suspect | AliveMsg | Confirm

  datatype Message = Message(kind: Kind, sender: NodeID, target: NodeID, inc: int, seqNum: nat, members: seq<Update>)

  /** A message on its way to an address. */
  datatype Packet = Packet(msg: Message, dest: Addr)

  /** The timeouts the two detectors use, in nanoseconds. */
  datatype Timeouts = Timeouts(failure: int, cleanup: int, suspicion: int)

  /** `order` lists every element of `s` exactly once: one outcome of ranging over a Go map. */
  ghost predicate Enumerates<T(!new)>(order: seq<T>, s: set<T>) {
    && (forall x :: x in order <==> x in s)
    && (forall i, j :: 0 <= i < j < |order| ==> order[i] != order[j])
  }

  /** An enumeration is as long as the set is large. */
  lemma {:induction false} EnumerationLength<T>(order: seq<T>, s: set<T>)
    requires forall x :: x in order <==> x in s
    requires forall i, j :: 0 <= i < j < |order| ==> order[i] != order[j]
    ensures |order| == |s|
  {
    if order == [] {
      assert s == {};
    } else {
      var n := |order| - 1;
      var rest := s - {order[n]};
      forall x ensures x in order[..n] <==> x in rest {
      }
      EnumerationLength(order[..n], rest);
    }
  }
}
