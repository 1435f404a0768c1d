/** The update log as a timed queue. */
module UpdateLog {
  import opened Types
  import opened UpdateLogSpec

  /** AddRecentUpdate, stamped with the clock, or GetRecentUpdates. */
  datatype LogOp = Add(u: Update) | Read(now: int, limit: nat) {
    function Time(): int {
      if Add? then u.stamp else now
    }
  }

  /** The log after `ops`, starting empty. */
  function LogAfter(ops: seq<LogOp>): seq<Update> {
    if ops == [] then []
    else
      var log := LogAfter(ops[..|ops| - 1]);
      match ops[|ops| - 1]
      case Add(u) => log + [u]
      case Read(now, _) => Live(log, now)
  }

  /** Everything ever added, in order. */
  function Added(ops: seq<LogOp>): seq<Update> {
    if ops == [] then []
    else Added(ops[..|ops| - 1]) + if ops[|ops| - 1].Add? then [ops[|ops| - 1].u] else []
  }

  predicate Monotone(ops: seq<LogOp>) {
    forall i, j :: 0 <= i <= j < |ops| ==> ops[i].Time() <= ops[j].Time()
  }

  predicate Sorted(log: seq<Update>) {
    forall i, j :: 0 <= i <= j < |log| ==> log[i].stamp <= log[j].stamp
  }

  // ----- filtering

  lemma {:induction false} LiveConcat(a: seq<Update>, b: seq<Update>, now: int)
    ensures Live(a + b, now) == Live(a, now) + Live(b, now)
  {
    if b == [] {
      assert a + b == a;
    } else {
      var n := |b| - 1;
      assert (a + b)[..|a + b| - 1] == a + b[..n];
      LiveConcat(a, b[..n], now);
    }
  }

  /** Filtering again at a later time forgets that it was filtered before. */
  lemma {:induction false} LiveTwice(log: seq<Update>, earlier: int, later: int)
    requires earlier <= later
    ensures Live(Live(log, earlier), later) == Live(log, later)
  {
    if log != [] {
      var n := |log| - 1;
      LiveTwice(log[..n], earlier, later);
      LiveConcat(Live(log[..n], earlier), [log[n]], later);
      assert Live([log[n]], later) == if log[n].stamp > later - WINDOW then [log[n]] else [] by {
        assert [log[n]][..0] == [];
      }
    }
  }

  /** On a log in clock order, filtering drops a prefix: exactly the expired records. */
  lemma {:induction false} LiveDropsPrefix(log: seq<Update>, now: int)
    requires Sorted(log)
    ensures var d := |log| - |Live(log, now)|;
      && d >= 0 && Live(log, now) == log[d..]
      && (forall i :: 0 <= i < d ==> log[i].stamp <= now - WINDOW)
      && (forall i :: d <= i < |log| ==> log[i].stamp > now - WINDOW)
  {
    if log != [] {
      var n := |log| - 1;
      LiveDropsPrefix(log[..n], now);
      var d := n - |Live(log[..n], now)|;
      assert log[..n][d..] + [log[n]] == log[d..];
      assert d < n ==> log[d].stamp <= log[n].stamp;
    }
  }

  // ----- any sequence of operations

  lemma {:induction false} AddedSorted(ops: seq<LogOp>)
    requires Monotone(ops)
    ensures Sorted(Added(ops))
    ensures ops != [] ==> forall u :: u in Added(ops) ==> u.stamp <= ops[|ops| - 1].Time()
  {
    if ops != [] {
      var n := |ops| - 1;
      AddedSorted(ops[..n]);
      forall u | u in Added(ops[..n]) ensures u.stamp <= ops[n].Time() {
        assert u.stamp <= ops[n - 1].Time() <= ops[n].Time();
      }
      var before := Added(ops[..n]);
      forall i, j | 0 <= i <= j < |Added(ops)| ensures Added(ops)[i].stamp <= Added(ops)[j].stamp {
        if j < |before| {
          assert before[i].stamp <= before[j].stamp;
        } else if i < |before| {
          assert before[i] in before;
        }
      }
    }
  }

  /** The last read, if there has been one. */
  predicate LastRead(ops: seq<LogOp>, last: Option<nat>) {
    match last
    case None => forall i :: 0 <= i < |ops| ==> ops[i].Add?
    case Some(r) => r < |ops| && ops[r].Read? && forall i :: r < i < |ops| ==> ops[i].Add?
  }

  lemma {:induction false} AddsAppend(ops: seq<LogOp>, r: nat)
    requires r <= |ops| && forall i :: r <= i < |ops| ==> ops[i].Add?
    ensures LogAfter(ops) == LogAfter(ops[..r]) + Added(ops[r..])
  {
    if r == |ops| {
      assert ops[..r] == ops;
    } else {
      var n := |ops| - 1;
      AddsAppend(ops[..n], r);
      assert ops[..n][..r] == ops[..r] && ops[r..][..|ops[r..]| - 1] == ops[..n][r..];
    }
  }

  /** Reads never bring back or lose more than the latest of them would. */
  lemma {:induction false} LiveHistory(ops: seq<LogOp>, now: int)
    requires Monotone(ops) && (ops != [] ==> ops[|ops| - 1].Time() <= now)
    ensures Live(LogAfter(ops), now) == Live(Added(ops), now)
  {
    if ops != [] {
      var n := |ops| - 1;
      LiveHistory(ops[..n], now);
      match ops[n]
      case Add(u) =>
        LiveConcat(LogAfter(ops[..n]), [u], now);
        LiveConcat(Added(ops[..n]), [u], now);
      case Read(t, _) =>
        LiveTwice(LogAfter(ops[..n]), t, now);
        assert Added(ops) == Added(ops[..n]);
    }
  }

  /** After any operations on a monotone clock the log is exactly what had been added and not expired at
      the last read, followed by what was added since; a log never read holds everything added. */
  lemma LogIsTimedQueue(ops: seq<LogOp>, last: Option<nat>)
    requires Monotone(ops) && LastRead(ops, last)
    ensures LogAfter(ops) ==
      match last
      case None => Added(ops)
      case Some(r) => Live(Added(ops[..r]), ops[r].now) + Added(ops[r + 1..])
  {
    match last
    case None =>
      AddsAppend(ops, 0);
      assert ops[0..] == ops;
    case Some(r) =>
      var upTo := ops[..r + 1];
      AddsAppend(ops, r + 1);
      assert upTo[..|upTo| - 1] == ops[..r] && upTo[|upTo| - 1] == ops[r];
      if r > 0 {
        assert ops[..r][r - 1].Time() <= ops[r].Time();
      }
      LiveHistory(ops[..r], ops[r].now);
  }

  /** The log is always in clock order, a suffix of everything added: so each read drops a prefix. */
  lemma {:induction false} LogIsSuffix(ops: seq<LogOp>)
    requires Monotone(ops)
    ensures Sorted(LogAfter(ops))
    ensures var d := |Added(ops)| - |LogAfter(ops)|; d >= 0 && LogAfter(ops) == Added(ops)[d..]
  {
    AddedSorted(ops);
    if ops != [] {
      var n := |ops| - 1;
      LogIsSuffix(ops[..n]);
      if ops[n].Read? {
        LiveDropsPrefix(LogAfter(ops[..n]), ops[n].now);
      }
    }
  }

  /** A read at the end of any history returns the first min(limit, count) records that were added within
      the window before it. */
  lemma ReadReturns(ops: seq<LogOp>, now: int, limit: nat)
    requires Monotone(ops) && (ops != [] ==> ops[|ops| - 1].Time() <= now)
    ensures var live := Live(Added(ops), now);
      Prefix(Live(LogAfter(ops), now), limit) == live[..Min(limit, |live|)]
  {
    LiveHistory(ops, now);
  }
}
