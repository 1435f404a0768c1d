/** What the ping/ack detector's own check removes: a suspected member only if it gets to it before the
    suspicion manager, and a failed member never. */
module PingRemoval {
  import opened Types
  import opened SuspicionSpec
  import opened PingAckSpec
  import opened Removal

  /** A tick of the detector's check, a tick of the suspicion manager with its callbacks run at once, or
      something that does not concern the member under observation. */
  datatype Moment =
    | Sweep(t: int, order: seq<NodeID>)
    | Managed(t: int, tasks: seq<Task>)
    | Other(t: int)

  ghost predicate Passes(o: Options, ts: Timeouts, x: NodeID, c: Core, b: Moment, c': Core) {
    match b
    case Sweep(t, order) => Enumerates(order, OverdueSet(c, ts, t)) && c' == PingCheck(c, ts, t, order)
    case Managed(t, order) =>
      var c1 := Check(c, o, t);
      multiset(order) == c1.tasks && c' == RunAll(c1, order, t)
    case Other(_) => c'.local != x && SameMember(c, c', x) && c'.tasks == multiset{}
  }

  /** Moments on a monotone clock in which nobody says anything about `x`. */
  ghost predicate Quiet(o: Options, ts: Timeouts, x: NodeID, states: seq<Core>, moments: seq<Moment>) {
    && |states| == |moments| + 1
    && states[0].tasks == multiset{} && states[0].local != x
    && (forall j :: 0 <= j < |moments| ==> Passes(o, ts, x, states[j], moments[j], states[j + 1]))
    && (forall j, k :: 0 <= j <= k < |moments| ==> moments[j].t <= moments[k].t)
  }

  lemma SweepOn(ts: Timeouts, x: NodeID, c: Core, t: int, order: seq<NodeID>)
    requires c.local != x
    ensures var c' := PingCheck(c, ts, t, order);
      && c'.local == c.local && c'.entries == c.entries && c'.tasks == c.tasks
      && (x in c'.table <==> x in c.table && !Overdue(c.table[x], ts, t))
      && (x in c'.table ==> c'.table[x] == c.table[x])
  {
  }

  /** What the suspicion of `x` is timed from, if there is one that may still be confirmed. */
  function Pending(c: Core, x: NodeID): Option<int> {
    if x in c.entries && !c.entries[x].confirmed && c.entries[x].firstReport.At? then Some(c.entries[x].firstReport.t)
    else None
  }

  /** A check confirms a suspicion that is due and leaves any other pending as it was. */
  lemma CheckPends(o: Options, x: NodeID, c: Core, t: int)
    ensures Pending(Check(c, o, t), x) == if DueIn(c.entries, x, o, t) then None else Pending(c, x)
  {
  }

  /** A tick of the manager fails `x` exactly when its suspicion is due. */
  lemma ManagedOn(o: Options, x: NodeID, c: Core, t: int, order: seq<Task>)
    requires c.tasks == multiset{} && multiset(order) == Check(c, o, t).tasks
    ensures var c' := RunAll(Check(c, o, t), order, t);
      && c'.local == c.local && c'.tasks == multiset{}
      && (x in c'.table <==> x in c.table)
      && (x in c.table ==>
            if DueIn(c.entries, x, o, t) then SameTimes(c.table[x].(status := Failed), c'.table[x])
            else c'.table[x] == c.table[x])
      && (!DueIn(c.entries, x, o, t) ==> Pending(c', x) == Pending(c, x))
  {
    CheckPends(o, x, c, t);
    hide RunAll, Spent, Due, Confirmed;
    var c1 := Check(c, o, t);
    forall task | task in order && task.target == x
      ensures task.OnConfirm? && DueIn(c.entries, x, o, t)
    {
      assert task in multiset(order);
      assert task in ConfirmTasks(c, o, t);
    }
    if x in c1.table {
      RunAllOn(c1, order, t, x);
    } else {
      RunAllOff(c1, order, t, x);
    }
  }

  // ----- failed members

  /** In ping/ack mode a Failed record that nobody speaks about is never removed, whatever the timeouts. */
  lemma {:induction false} FailedStays(o: Options, ts: Timeouts, x: NodeID, states: seq<Core>, moments: seq<Moment>, n: nat)
    requires Quiet(o, ts, x, states, moments) && n < |states|
    requires x in states[0].table && states[0].table[x].status.Failed?
    ensures x in states[n].table && states[n].table[x].status.Failed?
    ensures states[n].tasks == multiset{} && states[n].local != x
    decreases n
  {
    hide RunAll, Check, PingCheck;
    if n > 0 {
      FailedStays(o, ts, x, states, moments, n - 1);
      var c, b := states[n - 1], moments[n - 1];
      assert Passes(o, ts, x, c, b, states[n]);
      match b
      case Sweep(t, order) => SweepOn(ts, x, c, t, order);
      case Managed(t, order) => ManagedOn(o, x, c, t, order);
      case Other(_) =>
    }
  }

  // ----- suspected members

  /** The check finds the member suspected for too long. */
  predicate TooLong(b: Moment, ts: Timeouts, since: Instant) {
    b.Sweep? && Elapsed(b.t, since) > ts.suspicion
  }

  /** The manager confirms the suspicion. */
  predicate Fails(b: Moment, o: Options, first: Option<int>) {
    b.Managed? && first.Some? && b.t - first.value >= o.timeout
  }

  /** One of the first `n` moments is a check after the member's time is up, and the manager has not been
      there before. */
  ghost predicate InTime(o: Options, ts: Timeouts, moments: seq<Moment>, since: Instant, first: Option<int>, n: nat)
    requires n <= |moments|
  {
    exists j :: 0 <= j < n && TooLong(moments[j], ts, since) && Before(o, moments, first, j)
  }

  /** The manager has not confirmed by moment `j`. */
  ghost predicate Before(o: Options, moments: seq<Moment>, first: Option<int>, j: nat)
    requires j <= |moments|
  {
    forall i :: 0 <= i < j ==> !Fails(moments[i], o, first)
  }

  /** `x` is suspected since `since` (possibly unset), and the manager counts from `first`, if it counts at all:
      it has no entry for a member whose suspicion was merely passed on, and an untimed one below the threshold. */
  predicate UnderSuspicion(c: Core, x: NodeID, since: Instant, first: Option<int>) {
    x in c.table && c.table[x].status.Suspected? && c.table[x].since == since && Pending(c, x) == first
  }

  /** Either everything is as it was, or the check has come first, or the manager has. */
  ghost predicate Fate(o: Options, ts: Timeouts, x: NodeID, c: Core, moments: seq<Moment>, since: Instant, first: Option<int>, n: nat)
    requires n <= |moments|
  {
    && c.tasks == multiset{} && c.local != x
    && (x !in c.table ==> InTime(o, ts, moments, since, first, n))
    && (x in c.table ==>
          && !InTime(o, ts, moments, since, first, n)
          && if Before(o, moments, first, n) then UnderSuspicion(c, x, since, first) else c.table[x].status.Failed?)
  }

  lemma InTimeNext(o: Options, ts: Timeouts, moments: seq<Moment>, since: Instant, first: Option<int>, n: nat)
    requires n < |moments|
    ensures InTime(o, ts, moments, since, first, n + 1) <==>
      InTime(o, ts, moments, since, first, n) || (TooLong(moments[n], ts, since) && Before(o, moments, first, n))
    ensures Before(o, moments, first, n + 1) <==> Before(o, moments, first, n) && !Fails(moments[n], o, first)
  {
    hide TooLong, Fails;
    if InTime(o, ts, moments, since, first, n + 1) {
      var j :| 0 <= j < n + 1 && TooLong(moments[j], ts, since) && Before(o, moments, first, j);
    }
  }

  lemma FateNext(o: Options, ts: Timeouts, x: NodeID, c: Core, c': Core, moments: seq<Moment>, since: Instant, first: Option<int>, n: nat)
    requires n < |moments| && Passes(o, ts, x, c, moments[n], c') && Fate(o, ts, x, c, moments, since, first, n)
    ensures Fate(o, ts, x, c', moments, since, first, n + 1)
  {
    hide RunAll, Check, PingCheck, InTime, Before;
    InTimeNext(o, ts, moments, since, first, n);
    match moments[n]
    case Sweep(t, order) => SweepOn(ts, x, c, t, order);
    case Managed(t, order) => ManagedOn(o, x, c, t, order);
    case Other(_) =>
  }

  lemma {:induction false} FateUntil(o: Options, ts: Timeouts, x: NodeID, states: seq<Core>, moments: seq<Moment>,
          since: Instant, first: Option<int>, n: nat)
    requires Quiet(o, ts, x, states, moments) && UnderSuspicion(states[0], x, since, first) && n < |states|
    ensures Fate(o, ts, x, states[n], moments, since, first, n)
    decreases n
  {
    hide Passes;
    if n > 0 {
      FateUntil(o, ts, x, states, moments, since, first, n - 1);
      FateNext(o, ts, x, states[n - 1], states[n], moments, since, first, n - 1);
    }
  }

  /** In ping/ack mode a suspected member that nobody speaks about has been removed by moment `n` if and only
      if the detector's check found it suspected for too long before the manager confirmed the suspicion.
      If the manager came first it is Failed, and FailedStays applies. Without an entry that counts the manager
      never comes. */
  lemma RemovedOnlyInTime(o: Options, ts: Timeouts, x: NodeID, states: seq<Core>, moments: seq<Moment>,
          since: Instant, first: Option<int>, n: nat)
    requires Quiet(o, ts, x, states, moments) && UnderSuspicion(states[0], x, since, first) && n < |states|
    ensures x !in states[n].table <==> InTime(o, ts, moments, since, first, n)
    ensures x in states[n].table && !Before(o, moments, first, n) ==> states[n].table[x].status.Failed?
  {
    hide Quiet, UnderSuspicion, InTime, Before;
    FateUntil(o, ts, x, states, moments, since, first, n);
  }

  /** Checks come at most `d` apart. */
  ghost predicate SweepsDense(moments: seq<Moment>, d: int) {
    forall w :: moments != [] && w + d <= moments[|moments| - 1].t && moments[0].t <= w ==> SweptWithin(moments, w, d)
  }

  ghost predicate SweptWithin(moments: seq<Moment>, w: int, d: int) {
    exists j :: 0 <= j < |moments| && moments[j].Sweep? && w <= moments[j].t <= w + d
  }

  /** So a detector whose suspicion timeout, with one check interval, is shorter than the manager's does
      remove the member... */
  lemma ShortTimeoutRemoves(o: Options, ts: Timeouts, x: NodeID, states: seq<Core>, moments: seq<Moment>,
          since: int, first: Option<int>, d: nat)
    requires Quiet(o, ts, x, states, moments) && UnderSuspicion(states[0], x, At(since), first)
    requires SweepsDense(moments, d) && moments != [] && moments[0].t <= since + ts.suspicion + 1
    requires since + ts.suspicion + 1 + d <= moments[|moments| - 1].t
    requires first.Some? ==> since + ts.suspicion + 1 + d < first.value + o.timeout
    ensures x !in states[|moments|].table
  {
    var w := since + ts.suspicion + 1;
    assert SweptWithin(moments, w, d);
    var j :| 0 <= j < |moments| && moments[j].Sweep? && w <= moments[j].t <= w + d;
    assert TooLong(moments[j], ts, At(since)) && Before(o, moments, first, j);
    RemovedOnlyInTime(o, ts, x, states, moments, At(since), first, |moments|);
  }

  /** ... and one for which a tick of the manager fits in between never does. */
  lemma LongTimeoutKeeps(o: Options, ts: Timeouts, x: NodeID, states: seq<Core>, moments: seq<Moment>,
          since: Instant, first: Option<int>, i: nat, n: nat)
    requires Quiet(o, ts, x, states, moments) && UnderSuspicion(states[0], x, since, first)
    requires i < n < |states| && Fails(moments[i], o, first) && Elapsed(moments[i].t, since) <= ts.suspicion
    ensures x in states[n].table && states[n].table[x].status.Failed?
  {
    RemovedOnlyInTime(o, ts, x, states, moments, since, first, n);
  }
}
