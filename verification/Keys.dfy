/** The strings by which nodes, addresses and proxy waiters are keyed determine them, so that a map keyed
    by such strings behaves as one keyed by the values themselves. */
module Keys {
  import opened Types

  function Digit(d: nat): char
    requires d < 10
  {
    ('0' as int + d) as char
  }

  /** The decimal form of a number, as %d prints it. */
  function Decimal(n: nat): string {
    if n < 10 then [Digit(n)] else Decimal(n / 10) + [Digit(n % 10)]
  }

  function Printed(n: int): string {
    if n < 0 then ['-'] + Decimal(-n) else Decimal(n)
  }

  /** NodeID.Address */
  function AddressString(a: Addr): string {
    a.ip + ":" + Printed(a.port)
  }

  /** NodeID.String */
  function NodeString(id: NodeID): string {
    AddressString(id.Address()) + ":" + Printed(id.timestamp)
  }

  /** The key of a proxy waiter: sequence number and target. */
  function WaiterString(seqNum: nat, target: NodeID): string {
    Printed(seqNum) + "|" + NodeString(target)
  }

  // ----- numbers

  lemma {:induction false} DecimalPlain(n: nat)
    ensures |Decimal(n)| > 0 && forall c :: c in Decimal(n) ==> '0' <= c <= '9'
  {
    if n >= 10 {
      DecimalPlain(n / 10);
    }
  }

  lemma {:induction false} DecimalInjective(a: nat, b: nat)
    requires Decimal(a) == Decimal(b)
    ensures a == b
  {
    DecimalPlain(a / 10);
    DecimalPlain(b / 10);
    assert Decimal(a)[|Decimal(a)| - 1] == Digit(a % 10);
    assert Decimal(b)[|Decimal(b)| - 1] == Digit(b % 10);
    if a >= 10 && b >= 10 {
      assert Decimal(a / 10) == Decimal(a)[..|Decimal(a)| - 1] == Decimal(b / 10);
      DecimalInjective(a / 10, b / 10);
    }
  }

  lemma PrintedPlain(n: int, sep: char)
    requires sep == ':' || sep == '|'
    ensures sep !in Printed(n)
  {
    DecimalPlain(if n < 0 then -n else n);
  }

  lemma SignShows(n: int)
    ensures '-' in Printed(n) <==> n < 0
  {
    DecimalPlain(if n < 0 then -n else n);
  }

  lemma PrintedInjective(a: int, b: int)
    requires Printed(a) == Printed(b)
    ensures a == b
  {
    SignShows(a);
    SignShows(b);
    if a < 0 {
      assert Printed(a)[1..] == Decimal(-a) && Printed(b)[1..] == Decimal(-b);
      DecimalInjective(-a, -b);
    } else {
      DecimalInjective(a, b);
    }
  }

  // ----- separators

  /** Splitting at the last separator undoes the join, whatever the left part contains. */
  lemma SplitLast(a: string, b: string, a': string, b': string, sep: char)
    requires a + [sep] + b == a' + [sep] + b' && sep !in b && sep !in b'
    ensures a == a' && b == b'
  {
    var s := a + [sep] + b;
    assert s[|a|] == sep && (a' + [sep] + b')[|a'|] == sep;
    assert a == s[..|a|] && b == s[|a| + 1..];
    assert a' == (a' + [sep] + b')[..|a'|] && b' == (a' + [sep] + b')[|a'| + 1..];
  }

  /** Splitting at the first separator undoes the join, whatever the right part contains. */
  lemma SplitFirst(a: string, b: string, a': string, b': string, sep: char)
    requires a + [sep] + b == a' + [sep] + b' && sep !in a && sep !in a'
    ensures a == a' && b == b'
  {
    var s := a + [sep] + b;
    assert s[|a|] == sep && (a' + [sep] + b')[|a'|] == sep;
    assert a == s[..|a|] && b == s[|a| + 1..];
    assert a' == (a' + [sep] + b')[..|a'|] && b' == (a' + [sep] + b')[|a'| + 1..];
  }

  // ----- keys

  lemma AddressesDistinct(a: Addr, b: Addr)
    ensures AddressString(a) == AddressString(b) <==> a == b
  {
    if AddressString(a) == AddressString(b) {
      PrintedPlain(a.port, ':');
      PrintedPlain(b.port, ':');
      SplitLast(a.ip, Printed(a.port), b.ip, Printed(b.port), ':');
      PrintedInjective(a.port, b.port);
    }
  }

  /** NodeID.String is injective, for every IP string, colons included. */
  lemma NodesDistinct(a: NodeID, b: NodeID)
    ensures NodeString(a) == NodeString(b) <==> a == b
  {
    if NodeString(a) == NodeString(b) {
      PrintedPlain(a.timestamp, ':');
      PrintedPlain(b.timestamp, ':');
      SplitLast(AddressString(a.Address()), Printed(a.timestamp), AddressString(b.Address()), Printed(b.timestamp), ':');
      AddressesDistinct(a.Address(), b.Address());
      PrintedInjective(a.timestamp, b.timestamp);
    }
  }

  lemma WaitersDistinct(m: nat, a: NodeID, n: nat, b: NodeID)
    ensures WaiterString(m, a) == WaiterString(n, b) <==> m == n && a == b
  {
    if WaiterString(m, a) == WaiterString(n, b) {
      PrintedPlain(m, '|');
      PrintedPlain(n, '|');
      SplitFirst(Printed(m), NodeString(a), Printed(n), NodeString(b), '|');
      PrintedInjective(m, n);
      NodesDistinct(a, b);
    }
  }

  // ----- maps

  /** `byString` is the string-keyed form of `byNode`. */
  ghost predicate Represents<V>(byString: map<string, V>, byNode: map<NodeID, V>) {
    && (forall id :: id in byNode ==> NodeString(id) in byString && byString[NodeString(id)] == byNode[id])
    && (forall s :: s in byString ==> exists id :: id in byNode && NodeString(id) == s)
  }

  /** Lookups, insertions and deletions agree on the two forms, so nothing can tell them apart. */
  lemma StringMapsFaithful<V>(byString: map<string, V>, byNode: map<NodeID, V>, id: NodeID, v: V)
    requires Represents(byString, byNode)
    ensures NodeString(id) in byString <==> id in byNode
    ensures id in byNode ==> byString[NodeString(id)] == byNode[id]
    ensures Represents(byString[NodeString(id) := v], byNode[id := v])
    ensures Represents(byString - {NodeString(id)}, byNode - {id})
  {
    hide NodeString;
    forall k ensures NodeString(k) == NodeString(id) <==> k == id {
      NodesDistinct(k, id);
    }
    var more, fewer := byString[NodeString(id) := v], byString - {NodeString(id)};
    forall s | s in more ensures exists k :: k in byNode[id := v] && NodeString(k) == s {
      if s == NodeString(id) {
        assert id in byNode[id := v];
      } else {
        var k :| k in byNode && NodeString(k) == s;
        assert k in byNode[id := v];
      }
    }
    forall s | s in fewer ensures exists k :: k in byNode - {id} && NodeString(k) == s {
      var k :| k in byNode && NodeString(k) == s;
      assert k in byNode - {id};
    }
  }
}
