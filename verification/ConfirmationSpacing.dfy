/** How far apart two confirmations of the same suspicion are: always a retention and a timeout when
    operations are atomic, and otherwise exactly when no report with an old clock reading is held up. */
module ConfirmationSpacing {
  import opened Types
  import opened SuspicionSpec
  import opened SuspicionHistory

  predicate ClearsEntry(m: Manager, s: Section, x: NodeID) {
    s.Clear? && s.target == x && x in m.entries && s.inc >= m.entries[x].inc
  }

  /** No clear takes effect on `x` between steps `a` and `b`. */
  ghost predicate Uncleared(states: seq<Manager>, sections: seq<Section>, x: NodeID, a: nat, b: nat)
    requires b <= |sections| <= |states|
  {
    forall j :: a < j < b ==> !ClearsEntry(states[j], sections[j], x)
  }

  /** A clock that does not go back: reports read it one after the other, ticks follow one another, and a report
      that begins after a tick has been handled reads at least that tick's time. (A tick may be handled late,
      after reports that have read a later time.) */
  ghost predicate Ordered(sections: seq<Section>) {
    forall j, k :: 0 <= j < k < |sections| ==> InOrder(sections[j], sections[k])
  }

  predicate InOrder(s: Section, later: Section) {
    && (later.Begin? && s.Begin? ==> s.call.now <= later.call.now)
    && (later.Begin? && s.Scan? ==> s.now <= later.call.now)
    && (later.Scan? && s.Scan? ==> s.now <= later.now)
  }

  // ----- what spaces two confirmations

  /** Nothing higher than `inc` and no confirmation of `inc` stands in the way of a new suspicion of `x`. */
  predicate Gone(m: Manager, x: NodeID, inc: int) {
    x !in m.entries || m.entries[x].inc < inc || (m.entries[x].inc == inc && !m.entries[x].confirmed)
  }

  /** A report of `x` at `inc` whose clock reading is `d` or older finds the suspicion gone. */
  predicate Rushes(m: Manager, s: Section, x: NodeID, inc: int, d: int) {
    s.Lookup? && s.call.target == x && s.call.inc == inc && s.call.now <= d && Gone(m, x, inc)
  }

  /** A suspicion of `x` at `inc` that is still to be confirmed counts from after `d`, and so will one that a
      call between its lock sections opens, if one report is enough. */
  ghost predicate Safe(o: Options, m: Manager, x: NodeID, inc: int, d: int) {
    && (x in m.entries && m.entries[x].inc == inc && !m.entries[x].confirmed && m.entries[x].firstReport.At? ==>
          m.entries[x].firstReport.t > d)
    && (o.requireReports <= 1 ==> CallsLate(m, x, inc, d))
  }

  ghost predicate CallsLate(m: Manager, x: NodeID, inc: int, d: int) {
    forall call :: call in m.calls && !call.Begun? && call.target == x && call.inc == inc ==> call.now > d
  }

  lemma FirstOfOne(o: Options, i: int, r: NodeID, now: int)
    ensures var e := AddReport(NewEntry(i), o, r, now);
      && e.inc == i && !e.confirmed && e.reporters == map[r := now]
      && (if o.requireReports <= 1 then e.firstReport == At(now) else e.firstReport.Zero?)
  {
    var none: map<NodeID, int> := map[];
    assert none[r := now] == map[r := now] && |map[r := now]| == 1;
  }

  lemma LookupSafe(o: Options, m: Manager, s: Section, x: NodeID, inc: int, d: int)
    requires s.Lookup? && SectionEnabled(m, s) && Safe(o, m, x, inc, d) && !Rushes(m, s, x, inc, d)
    ensures Safe(o, Next(o, m, s), x, inc, d)
  {
    hide CheckedEntries;
    FirstOfOne(o, s.call.inc, s.call.reporter, s.call.now);
  }

  lemma ScanSafe(o: Options, m: Manager, now: int, x: NodeID, inc: int, d: int)
    requires Safe(o, m, x, inc, d)
    ensures Safe(o, Next(o, m, Scan(now)), x, inc, d)
  {
  }

  lemma InsertSafe(o: Options, m: Manager, s: Section, x: NodeID, inc: int, d: int)
    requires s.Insert? && SectionEnabled(m, s) && Safe(o, m, x, inc, d)
    ensures Safe(o, Next(o, m, s), x, inc, d)
  {
    hide CheckedEntries, AddReport;
    FirstOfOne(o, s.call.inc, s.call.reporter, s.call.now);
  }

  lemma SafeKept(o: Options, m: Manager, s: Section, x: NodeID, inc: int, d: int)
    requires SectionEnabled(m, s) && Safe(o, m, x, inc, d) && !Rushes(m, s, x, inc, d)
    ensures Safe(o, Next(o, m, s), x, inc, d)
  {
    hide CheckedEntries, AddReport;
    match s
    case Lookup(_) => LookupSafe(o, m, s, x, inc, d);
    case Scan(now) => ScanSafe(o, m, now, x, inc, d);
    case Insert(_) => InsertSafe(o, m, s, x, inc, d);
    case _ =>
  }

  lemma ConfirmedSafe(o: Options, m: Manager, t: int, x: NodeID, inc: int, d: int)
    requires Confirms(o, m, Scan(t), x, inc) && (o.requireReports <= 1 ==> CallsLate(m, x, inc, d))
    ensures Safe(o, Next(o, m, Scan(t)), x, inc, d)
  {
  }

  lemma {:induction false} SafeUntil(o: Options, states: seq<Manager>, sections: seq<Section>, x: NodeID, inc: int,
          d: int, a: nat, n: nat)
    requires Trace(o, states, sections) && a <= n <= |sections| && Safe(o, states[a], x, inc, d)
    requires forall j :: a <= j < n ==> !Rushes(states[j], sections[j], x, inc, d)
    ensures Safe(o, states[n], x, inc, d)
    decreases n
  {
    hide Safe, Next, SectionEnabled, Rushes;
    if a < n {
      SafeUntil(o, states, sections, x, inc, d, a, n - 1);
      SafeKept(o, states[n - 1], sections[n - 1], x, inc, d);
    }
  }

  lemma SafeConfirmsLate(o: Options, m: Manager, s: Section, x: NodeID, inc: int, d: int)
    requires Safe(o, m, x, inc, d) && Confirms(o, m, s, x, inc)
    ensures s.Scan? && s.now > d + o.timeout
  {
  }

  lemma ConfirmsScans(o: Options, m: Manager, s: Section, x: NodeID, inc: int)
    requires Confirms(o, m, s, x, inc)
    ensures s.Scan?
  {
  }

  /** However the sections interleave and whatever their clocks: two confirmations of `x` at `inc` are more than
      a retention and a timeout apart, if every report of `x` at `inc` that found the suspicion gone in between
      had read its clock after the retention, and, where one report is enough, so had every call about `x` at
      `inc` that was between its lock sections at the first confirmation. */
  lemma SectionsSpaced(o: Options, states: seq<Manager>, sections: seq<Section>, x: NodeID, inc: int, a: nat, b: nat)
    requires Trace(o, states, sections) && a < b < |sections|
    requires Confirms(o, states[a], sections[a], x, inc) && Confirms(o, states[b], sections[b], x, inc)
    requires o.requireReports <= 1 ==> CallsLate(states[a], x, inc, sections[a].now + o.retention)
    requires forall j :: a < j < b ==> !Rushes(states[j], sections[j], x, inc, sections[a].now + o.retention)
    ensures sections[b].now - sections[a].now > o.retention + o.timeout
  {
    hide Safe, Next, Rushes, CallsLate;
    ConfirmsScans(o, states[a], sections[a], x, inc);
    ConfirmsScans(o, states[b], sections[b], x, inc);
    var d := sections[a].now + o.retention;
    ConfirmedSafe(o, states[a], sections[a].now, x, inc, d);
    SafeUntil(o, states, sections, x, inc, d, a + 1, b);
    SafeConfirmsLate(o, states[b], sections[b], x, inc, d);
  }

  // ----- what is exact about it

  /** A call about `x` at `inc` with a clock reading of `d` or older that can still take a new suspicion to its
      threshold: it waits for its first lock, or one report is enough. */
  ghost predicate Early(o: Options, m: Manager, x: NodeID, inc: int, d: int) {
    exists call :: call in m.calls && Hurries(o, call, x, inc, d)
  }

  predicate Hurries(o: Options, call: Call, x: NodeID, inc: int, d: int) {
    call.target == x && call.inc == inc && call.now <= d && (call.Begun? || o.requireReports <= 1)
  }

  /** What the goroutines may do from state `m` on, at a moment when the clock reads `w`. */
  ghost predicate Future(o: Options, m: Manager, w: int, states: seq<Manager>, sections: seq<Section>) {
    && Trace(o, states, sections) && states[0] == m && Ordered(sections)
    && forall j :: 0 <= j < |sections| && sections[j].Begin? ==> sections[j].call.now >= w
  }

  /** Whatever the goroutines do after the tick `s`, the next confirmation of `x` at `inc` is more than a
      retention and a timeout after `t`, unless a clear takes effect before. */
  ghost predicate AlwaysSpaced(o: Options, m: Manager, w: int, s: int, x: NodeID, inc: int, t: int) {
    forall states: seq<Manager>, sections: seq<Section>, b: nat ::
      && Future(o, m, w, states, sections) && 0 < b < |sections| && sections[0] == Scan(s)
      && Confirms(o, states[b], sections[b], x, inc) && Uncleared(states, sections, x, 0, b)
      ==> sections[b].now - t > o.retention + o.timeout
  }

  /** Nobody is in a hurry, and nobody can be any more. */
  ghost predicate Settled(o: Options, m: Manager, x: NodeID, inc: int, d: int) {
    Safe(o, m, x, inc, d) && !Early(o, m, x, inc, d)
  }

  lemma SettledKept(o: Options, m: Manager, s: Section, x: NodeID, inc: int, d: int)
    requires SectionEnabled(m, s) && Settled(o, m, x, inc, d) && (s.Begin? ==> s.call.now > d)
    ensures Settled(o, Next(o, m, s), x, inc, d)
  {
    hide CheckedEntries, AddReport, Safe;
    if s.Lookup? {
      assert !Hurries(o, s.call, x, inc, d);
    }
    SafeKept(o, m, s, x, inc, d);
    var m' := Next(o, m, s);
    forall call | call in m'.calls ensures !Hurries(o, call, x, inc, d) {
      if call !in m.calls && (s.Lookup? || s.Compare?) {
        assert !Hurries(o, s.call, x, inc, d);
      }
    }
  }

  lemma {:induction false} SettledUntil(o: Options, states: seq<Manager>, sections: seq<Section>, x: NodeID, inc: int,
          d: int, n: nat)
    requires Trace(o, states, sections) && 1 <= n <= |sections| && Settled(o, states[1], x, inc, d)
    requires forall j :: 1 <= j < n && sections[j].Begin? ==> sections[j].call.now > d
    ensures Settled(o, states[n], x, inc, d)
    decreases n
  {
    hide Settled, Next, SectionEnabled;
    if n > 1 {
      SettledUntil(o, states, sections, x, inc, d, n - 1);
      SettledKept(o, states[n - 1], sections[n - 1], x, inc, d);
    }
  }

  /** Once nobody is in a hurry after tick `s` and the clock is past `t` and the retention, clears or not. */
  lemma SettledSpaces(o: Options, m: Manager, w: int, s: int, x: NodeID, inc: int, t: int)
    requires Settled(o, Next(o, m, Scan(s)), x, inc, t + o.retention) && Max(w, s) > t + o.retention
    ensures AlwaysSpaced(o, m, w, s, x, inc, t)
  {
    hide Settled, Confirms, Next, SectionEnabled, Safe;
    var d := t + o.retention;
    forall states: seq<Manager>, sections: seq<Section>, b: nat
      | Future(o, m, w, states, sections) && 0 < b < |sections| && sections[0] == Scan(s)
        && Confirms(o, states[b], sections[b], x, inc)
      ensures sections[b].Scan? && sections[b].now - t > o.retention + o.timeout
    {
      assert SectionEnabled(states[0], sections[0]) && states[1] == Next(o, m, Scan(s));
      forall j | 1 <= j < b && sections[j].Begin? ensures sections[j].call.now > d {
        assert InOrder(sections[0], sections[j]);
      }
      SettledUntil(o, states, sections, x, inc, d, b);
      assert Safe(o, states[b], x, inc, d) by {
        SettledIsSafe(o, states[b], x, inc, d);
      }
      SafeConfirmsLate(o, states[b], sections[b], x, inc, d);
    }
  }

  lemma SettledIsSafe(o: Options, m: Manager, x: NodeID, inc: int, d: int)
    requires Settled(o, m, x, inc, d)
    ensures Safe(o, m, x, inc, d)
  {
  }

  // ----- a future in which the next confirmation comes too early

  /** A schedule that starts with tick `s`, clears nothing, has no other tick, and in which every report that
      begins reads the clock at `w`. */
  ghost predicate Played(o: Options, m: Manager, s: int, w: int, states: seq<Manager>, sections: seq<Section>) {
    && Trace(o, states, sections) && sections != [] && states[0] == m && sections[0] == Scan(s)
    && forall j :: 0 < j < |sections| ==> Plays(sections[j], w)
  }

  predicate Plays(s: Section, w: int) {
    !s.Scan? && !s.Clear? && (s.Begin? ==> s.call.now == w)
  }

  lemma PlayNext(o: Options, m: Manager, s: int, w: int, states: seq<Manager>, sections: seq<Section>, st: Section)
    returns (states': seq<Manager>, sections': seq<Section>)
    requires Played(o, m, s, w, states, sections) && |states| == |sections| + 1
    requires SectionEnabled(states[|sections|], st) && Plays(st, w)
    ensures Played(o, m, s, w, states', sections') && |states'| == |sections'| + 1
    ensures states'[|sections'|] == Next(o, states[|sections|], st)
  {
    hide Next, SectionEnabled, Plays;
    states', sections' := states + [Next(o, states[|sections|], st)], sections + [st];
  }

  /** As many reporters as may be wanted, none of them `r`. */
  function Other(r: NodeID, i: nat): NodeID {
    NodeID(r.ip + "x", 0, i)
  }

  function Others(r: NodeID, n: nat): set<NodeID> {
    set i: nat | i < n :: Other(r, i)
  }

  lemma {:induction false} OthersSize(r: NodeID, n: nat)
    ensures |Others(r, n)| == n && r !in Others(r, n)
  {
    if n > 0 {
      OthersSize(r, n - 1);
      assert Others(r, n) == Others(r, n - 1) + {Other(r, n - 1)};
    } else {
      assert Others(r, 0) == {};
    }
    assert |r.ip + "x"| == |r.ip| + 1;
  }

  /** The suspicion of `x` at `inc` has been reported by the first `n` of the others, which is not enough, and
      `call` still waits for its first lock. */
  ghost predicate Gathered(o: Options, m: Manager, call: Call, n: nat) {
    && call in m.calls && call.target in m.entries && n < o.requireReports
    && var e := m.entries[call.target];
       e.inc == call.inc && !e.confirmed && e.firstReport.Zero? && e.reporters.Keys == Others(call.reporter, n)
  }

  /** The suspicion of `x` at `inc` counts from the clock reading of `call`. */
  predicate Counts(m: Manager, call: Call) {
    && call.target in m.entries
    && var e := m.entries[call.target];
       e.inc == call.inc && !e.confirmed && e.firstReport == At(call.now)
  }

  lemma OpenedAlone(o: Options, m: Manager, call: Call)
    requires call.Admitted? && call in m.calls && o.requireReports <= 1
    ensures Counts(Next(o, m, Insert(call)), call)
  {
    FirstOfOne(o, call.inc, call.reporter, call.now);
  }

  lemma LookedUp(o: Options, m: Manager, call: Call)
    requires call.Begun? && call in m.calls && call.target !in m.entries
    ensures var m' := Next(o, m, Lookup(call));
      Missed(call.reporter, call.target, call.inc, call.now) in m'.calls && m'.entries == m.entries
    ensures forall c :: c in m.calls && c != call ==> c in Next(o, m, Lookup(call)).calls
  {
    hide AddReport, CheckedEntries;
  }

  lemma Compared(o: Options, m: Manager, call: Call)
    requires call.Missed? && call in m.calls
    ensures var m' := Next(o, m, Compare(call, call.inc));
      Admitted(call.reporter, call.target, call.inc, call.now) in m'.calls && m'.entries == m.entries
    ensures forall c :: c in m.calls && c != call ==> c in Next(o, m, Compare(call, call.inc)).calls
  {
    hide AddReport, CheckedEntries;
  }

  /** One report is enough: the early call opens a suspicion that counts from its own clock reading. */
  lemma Alone(o: Options, m: Manager, s: int, w: int, states: seq<Manager>, sections: seq<Section>, call: Call)
    returns (states': seq<Manager>, sections': seq<Section>)
    requires Played(o, m, s, w, states, sections) && |states| == |sections| + 1 && o.requireReports <= 1
    requires call in states[|sections|].calls && call.target !in states[|sections|].entries
    ensures Played(o, m, s, w, states', sections') && |states'| == |sections'| + 1
    ensures Counts(states'[|sections'|], call)
  {
    hide Next, Played, Counts;
    var missed := Missed(call.reporter, call.target, call.inc, call.now);
    var admitted := Admitted(call.reporter, call.target, call.inc, call.now);
    states', sections' := states, sections;
    if call.Begun? {
      LookedUp(o, states'[|sections'|], call);
      states', sections' := PlayNext(o, m, s, w, states', sections', Lookup(call));
    }
    if !call.Admitted? {
      Compared(o, states'[|sections'|], missed);
      states', sections' := PlayNext(o, m, s, w, states', sections', Compare(missed, call.inc));
    }
    OpenedAlone(o, states'[|sections'|], admitted);
    CountsAlike(Next(o, states'[|sections'|], Insert(admitted)), call, admitted);
    states', sections' := PlayNext(o, m, s, w, states', sections', Insert(admitted));
  }

  lemma CountsAlike(m: Manager, call: Call, same: Call)
    requires call.target == same.target && call.inc == same.inc && call.now == same.now
    ensures Counts(m, call) == Counts(m, same)
  {
  }

  lemma BeganToo(o: Options, m: Manager, call: Call, other: Call)
    requires other.Begun? && call in m.calls
    ensures var m' := Next(o, m, Begin(other)); other in m'.calls && call in m'.calls && m'.entries == m.entries
  {
    hide AddReport, CheckedEntries;
  }

  lemma FirstOther(o: Options, m: Manager, call: Call, first: Call)
    requires first.Admitted? && first in m.calls && call in m.calls && call.Begun? && o.requireReports >= 2
    requires first.target == call.target && first.inc == call.inc && first.reporter == Other(call.reporter, 0)
    ensures Gathered(o, Next(o, m, Insert(first)), call, 1)
  {
    FirstOfOne(o, first.inc, first.reporter, first.now);
    assert Others(call.reporter, 1) == {Other(call.reporter, 0)};
  }

  lemma NextOther(o: Options, m: Manager, call: Call, other: Call, n: nat)
    requires Gathered(o, m, call, n) && n + 1 < o.requireReports && other.Begun? && other in m.calls && call.Begun?
    requires other.target == call.target && other.inc == call.inc && other.reporter == Other(call.reporter, n)
    ensures Gathered(o, Next(o, m, Lookup(other)), call, n + 1)
  {
    OthersSize(call.reporter, n + 1);
    assert Others(call.reporter, n + 1) == Others(call.reporter, n) + {Other(call.reporter, n)};
    var e := m.entries[call.target];
    var more := e.reporters[other.reporter := other.now];
    assert more.Keys == Others(call.reporter, n + 1) && |more.Keys| == |more|;
    assert call.reporter != other.reporter by {
      assert |call.reporter.ip + "x"| == |call.reporter.ip| + 1;
    }
  }

  /** The early call is the one that makes them enough. */
  lemma LastOne(o: Options, m: Manager, call: Call, n: nat)
    requires Gathered(o, m, call, n) && n + 1 == o.requireReports && call.Begun?
    ensures Counts(Next(o, m, Lookup(call)), call)
  {
    OthersSize(call.reporter, n);
    var e := m.entries[call.target];
    var more := e.reporters[call.reporter := call.now];
    assert more.Keys == Others(call.reporter, n) + {call.reporter} && |more.Keys| == |more|;
  }

  /** Others open the suspicion and come close to the threshold. */
  lemma {:induction false} Gather(o: Options, m: Manager, s: int, w: int, states: seq<Manager>, sections: seq<Section>,
          call: Call, n: nat) returns (states': seq<Manager>, sections': seq<Section>)
    requires Played(o, m, s, w, states, sections) && |states| == |sections| + 1 && 1 <= n < o.requireReports
    requires call.Begun? && call in states[|sections|].calls && call.target !in states[|sections|].entries
    ensures Played(o, m, s, w, states', sections') && |states'| == |sections'| + 1
    ensures Gathered(o, states'[|sections'|], call, n)
    decreases n
  {
    hide Next, Played, Gathered;
    var r := Other(call.reporter, n - 1);
    var begun, missed := Begun(r, call.target, call.inc, w), Missed(r, call.target, call.inc, w);
    var admitted := Admitted(r, call.target, call.inc, w);
    assert begun != call by {
      OthersSize(call.reporter, n);
      assert r in Others(call.reporter, n);
    }
    states', sections' := states, sections;
    if n == 1 {
      BeganToo(o, states'[|sections'|], call, begun);
      states', sections' := PlayNext(o, m, s, w, states', sections', Begin(begun));
      LookedUp(o, states'[|sections'|], begun);
      states', sections' := PlayNext(o, m, s, w, states', sections', Lookup(begun));
      Compared(o, states'[|sections'|], missed);
      states', sections' := PlayNext(o, m, s, w, states', sections', Compare(missed, call.inc));
      FirstOther(o, states'[|sections'|], call, admitted);
      states', sections' := PlayNext(o, m, s, w, states', sections', Insert(admitted));
    } else {
      states', sections' := Gather(o, m, s, w, states, sections, call, n - 1);
      GatheredBegins(o, states'[|sections'|], call, begun, n - 1);
      states', sections' := PlayNext(o, m, s, w, states', sections', Begin(begun));
      NextOther(o, states'[|sections'|], call, begun, n - 1);
      states', sections' := PlayNext(o, m, s, w, states', sections', Lookup(begun));
    }
  }

  lemma GatheredBegins(o: Options, m: Manager, call: Call, other: Call, n: nat)
    requires Gathered(o, m, call, n) && other.Begun?
    ensures Gathered(o, Next(o, m, Begin(other)), call, n) && other in Next(o, m, Begin(other)).calls
  {
    hide AddReport, CheckedEntries;
  }

  /** The early call takes a suspicion of `x` to its threshold, with or without the help of others. */
  lemma Hurried(o: Options, m: Manager, s: int, w: int, states: seq<Manager>, sections: seq<Section>, call: Call)
    returns (states': seq<Manager>, sections': seq<Section>)
    requires Played(o, m, s, w, states, sections) && |states| == |sections| + 1
    requires call in states[|sections|].calls && call.target !in states[|sections|].entries
    requires call.Begun? || o.requireReports <= 1
    ensures Played(o, m, s, w, states', sections') && |states'| == |sections'| + 1
    ensures Counts(states'[|sections'|], call)
  {
    hide Next, Played, Gathered, Counts;
    if o.requireReports <= 1 {
      states', sections' := Alone(o, m, s, w, states, sections, call);
    } else {
      var n := o.requireReports - 1;
      states', sections' := Gather(o, m, s, w, states, sections, call, n);
      LastOne(o, states'[|sections'|], call, n);
      assert call in states'[|sections'|].calls by {
        StillWaits(o, states'[|sections'|], call, n);
      }
      states', sections' := PlayNext(o, m, s, w, states', sections', Lookup(call));
    }
  }

  lemma StillWaits(o: Options, m: Manager, call: Call, n: nat)
    requires Gathered(o, m, call, n)
    ensures call in m.calls
  {
  }

  /** A schedule from tick `s` on whose last section confirms `x` at `inc`, by time `z`. */
  ghost predicate ConfirmsBy(o: Options, m: Manager, s: int, w: int, states: seq<Manager>, sections: seq<Section>,
                             x: NodeID, inc: int, z: int)
  {
    && Trace(o, states, sections) && |sections| >= 2 && states[0] == m && sections[0] == Scan(s)
    && var b := |sections| - 1;
       && Confirms(o, states[b], sections[b], x, inc) && s <= sections[b].now <= z
       && forall j :: 0 < j < b ==> Plays(sections[j], w)
  }

  /** The end of the retention, with a call in a hurry. */
  lemma EarlyConfirms(o: Options, m: Manager, s: int, w: int, x: NodeID, inc: int, d: int, call: Call)
    returns (states: seq<Manager>, sections: seq<Section>)
    requires x in m.entries && Spent(m.entries[x], o, s) && call in m.calls && Hurries(o, call, x, inc, d)
    ensures ConfirmsBy(o, m, s, w, states, sections, x, inc, Max(s, d + o.timeout))
  {
    hide Next, Counts, Plays;
    states, sections := [m] + [Next(o, m, Scan(s))], [Scan(s)];
    SpentGoes(o, m, s, x);
    assert Played(o, m, s, w, states, sections);
    states, sections := Hurried(o, m, s, w, states, sections, call);
    var b, last := |sections|, Scan(Max(s, call.now + o.timeout));
    assert b > 1 by {
      NotYet(o, m, s, x, call, states, sections);
    }
    CountsConfirms(o, states[b], call, last.now);
    states, sections := states + [Next(o, states[b], last)], sections + [last];
  }

  lemma SpentGoes(o: Options, m: Manager, s: int, x: NodeID)
    requires x in m.entries && Spent(m.entries[x], o, s)
    ensures SectionEnabled(m, Scan(s)) && Next(o, m, Scan(s)).calls == m.calls && x !in Next(o, m, Scan(s)).entries
  {
  }

  /** The tick alone does not bring a suspicion back. */
  lemma NotYet(o: Options, m: Manager, s: int, x: NodeID, call: Call, states: seq<Manager>, sections: seq<Section>)
    requires x in m.entries && Spent(m.entries[x], o, s) && call.target == x
    requires Trace(o, states, sections) && sections != [] && states[0] == m && sections[0] == Scan(s)
    requires Counts(states[|sections|], call)
    ensures |sections| > 1
  {
    SpentGoes(o, m, s, x);
  }

  lemma CountsConfirms(o: Options, m: Manager, call: Call, now: int)
    requires Counts(m, call) && now >= call.now + o.timeout
    ensures Confirms(o, m, Scan(now), call.target, call.inc)
  {
  }

  predicate ClearFree(sections: seq<Section>) {
    forall j :: 0 <= j < |sections| ==> !sections[j].Clear?
  }

  /** Such a schedule is a future of its first state. */
  lemma ItsFuture(o: Options, m: Manager, s: int, w: int, states: seq<Manager>, sections: seq<Section>, x: NodeID, inc: int, z: int)
    requires ConfirmsBy(o, m, s, w, states, sections, x, inc, z) && s <= w
    ensures Future(o, m, w, states, sections) && ClearFree(sections)
    ensures forall j :: 0 <= j < |sections| ==> InOrder(Scan(s), sections[j])
  {
    hide Next, SectionEnabled, Confirms;
    var b := |sections| - 1;
    ConfirmsScans(o, states[b], sections[b], x, inc);
    forall j | 0 <= j < |sections| ensures InOrder(Scan(s), sections[j]) && !sections[j].Clear? {
      assert 0 < j < b ==> Plays(sections[j], w);
    }
    forall j, k | 0 <= j < k < |sections| ensures InOrder(sections[j], sections[k]) {
      assert 0 < j ==> Plays(sections[j], w);
      assert k < b ==> Plays(sections[k], w);
    }
  }

  /** One more section in front of a future. */
  lemma Before(o: Options, m: Manager, w: int, states: seq<Manager>, sections: seq<Section>, st: Section)
    requires SectionEnabled(m, st) && Future(o, Next(o, m, st), w, states, sections)
    requires st.Begin? ==> st.call.now >= w
    requires forall j :: 0 <= j < |sections| ==> InOrder(st, sections[j])
    ensures Future(o, m, w, [m] + states, [st] + sections)
  {
    hide Next, SectionEnabled, InOrder;
    var states', sections' := [m] + states, [st] + sections;
    forall j | 0 <= j < |sections'|
      ensures SectionEnabled(states'[j], sections'[j]) && states'[j + 1] == Next(o, states'[j], sections'[j])
    {
      if j > 0 {
        assert states'[j] == states[j - 1] && sections'[j] == sections[j - 1] && states'[j + 1] == states[j];
      }
    }
    forall j, k | 0 <= j < k < |sections'| ensures InOrder(sections'[j], sections'[k]) {
      if j > 0 {
        assert sections'[j] == sections[j - 1] && sections'[k] == sections[k - 1];
      }
    }
  }

  lemma Sooner(o: Options, m: Manager, w: int, w': int, states: seq<Manager>, sections: seq<Section>)
    requires Future(o, m, w', states, sections) && w <= w'
    ensures Future(o, m, w, states, sections)
  {
    hide Trace;
  }

  /** When the retention of `x` ends with a tick `s` after time `t` and the retention: every later confirmation of
      `x` at `inc` is more than a retention and a timeout after `t`, whatever happens, if and only if no call in a
      hurry is left, or it is too late for one anyway. */
  lemma DroppedExactly(o: Options, m: Manager, w: int, s: int, x: NodeID, inc: int, t: int)
    requires x in m.entries && Spent(m.entries[x], o, s) && t + o.retention < s
    ensures AlwaysSpaced(o, m, w, s, x, inc, t) <==>
      !Early(o, m, x, inc, t + o.retention) || s > t + o.retention + o.timeout
  {
    hide Future, Spent, Uncleared, Next, Hurries;
    var d := t + o.retention;
    SpentGoes(o, m, s, x);
    if s > d + o.timeout {
      TooLate(o, m, w, s, x, inc, t);
    } else if call :| call in m.calls && Hurries(o, call, x, inc, d) {
      var w' := Max(w, s);
      var states, sections := EarlyConfirms(o, m, s, w', x, inc, d, call);
      ItsFuture(o, m, s, w', states, sections, x, inc, Max(s, d + o.timeout));
      Sooner(o, m, w, w', states, sections);
      var b := |sections| - 1;
      assert Uncleared(states, sections, x, 0, b) by {
        NothingCleared(states, sections, x, b);
      }
      assert Confirms(o, states[b], sections[b], x, inc) && sections[b].now <= d + o.timeout;
    } else {
      GoneSettled(o, Next(o, m, Scan(s)), x, inc, d);
      SettledSpaces(o, m, w, s, x, inc, t);
    }
  }

  lemma NothingCleared(states: seq<Manager>, sections: seq<Section>, x: NodeID, b: nat)
    requires ClearFree(sections) && b <= |sections| <= |states|
    ensures Uncleared(states, sections, x, 0, b)
  {
  }

  lemma TooLate(o: Options, m: Manager, w: int, s: int, x: NodeID, inc: int, t: int)
    requires s > t + o.retention + o.timeout
    ensures AlwaysSpaced(o, m, w, s, x, inc, t)
  {
    hide Confirms, Uncleared, Next, SectionEnabled;
    forall states: seq<Manager>, sections: seq<Section>, b: nat
      | Future(o, m, w, states, sections) && 0 < b < |sections| && sections[0] == Scan(s)
        && Confirms(o, states[b], sections[b], x, inc)
      ensures sections[b].Scan? && sections[b].now - t > o.retention + o.timeout
    {
      ConfirmsScans(o, states[b], sections[b], x, inc);
      assert InOrder(sections[0], sections[b]);
    }
  }

  lemma GoneSettled(o: Options, m: Manager, x: NodeID, inc: int, d: int)
    requires x !in m.entries && !Early(o, m, x, inc, d)
    ensures Settled(o, m, x, inc, d)
  {
    forall call | o.requireReports <= 1 && call in m.calls && !call.Begun? && call.target == x && call.inc == inc
      ensures call.now > d
    {
      assert !Hurries(o, call, x, inc, d);
    }
  }

  /** What the confirmation itself leaves: an entry whose retention ends with the first tick past it. */
  lemma ConfirmedThenSpent(o: Options, m: Manager, t: int, x: NodeID, inc: int)
    requires o.retention > 0 && Confirms(o, m, Scan(t), x, inc)
    ensures var m' := Next(o, m, Scan(t));
      && SectionEnabled(m, Scan(t)) && m'.calls == m.calls
      && x in m'.entries && Spent(m'.entries[x], o, t + o.retention + 1)
  {
  }

  lemma ConfirmedSettled(o: Options, m: Manager, t: int, x: NodeID, inc: int, d: int)
    requires Confirms(o, m, Scan(t), x, inc) && !Early(o, m, x, inc, d)
    ensures Settled(o, Next(o, m, Scan(t)), x, inc, d)
  {
    forall call | o.requireReports <= 1 && call in m.calls && !call.Begun? && call.target == x && call.inc == inc
      ensures call.now > d
    {
      assert !Hurries(o, call, x, inc, d);
    }
    ConfirmedSafe(o, m, t, x, inc, d);
  }

  /** A future that starts after the confirmation at `t` and confirms again too soon. */
  lemma Broken(o: Options, m: Manager, w: int, x: NodeID, inc: int, t: int, states: seq<Manager>, sections: seq<Section>)
    requires SectionEnabled(m, Scan(t)) && Future(o, Next(o, m, Scan(t)), w, states, sections) && sections != []
    requires ClearFree(sections) && forall j :: 0 <= j < |sections| ==> InOrder(Scan(t), sections[j])
    requires var b := |sections| - 1;
      Confirms(o, states[b], sections[b], x, inc) && sections[b].now <= t + o.retention + o.timeout
    ensures !AlwaysSpaced(o, m, w, t, x, inc, t)
  {
    hide Confirms, Next, SectionEnabled, InOrder;
    Before(o, m, w, states, sections, Scan(t));
    var states', sections', b := [m] + states, [Scan(t)] + sections, |sections|;
    assert states'[b] == states[b - 1] && sections'[b] == sections[b - 1];
    assert Uncleared(states', sections', x, 0, b);
  }

  /** With a call in a hurry, or time for one to begin, a confirmation at `t` is followed by one that is too near. */
  lemma ConfirmedBreaks(o: Options, m: Manager, w: int, x: NodeID, inc: int, t: int)
    requires o.retention > 0 && o.timeout > 0 && Confirms(o, m, Scan(t), x, inc)
    requires w <= t + o.retention || Early(o, m, x, inc, t + o.retention)
    ensures !AlwaysSpaced(o, m, w, t, x, inc, t)
  {
    hide Spent, Next, Plays, Trace, SectionEnabled, Confirms, Ordered, Hurries;
    var d := t + o.retention;
    ConfirmedThenSpent(o, m, t, x, inc);
    var m1 := Next(o, m, Scan(t));
    if call :| call in m.calls && Hurries(o, call, x, inc, d) {
      var states, sections := TooNear(o, m1, w, x, inc, d, t, call);
      Broken(o, m, w, x, inc, t, states, sections);
    } else {
      var begun := Begun(x, x, inc, Max(w, t));
      BeganAfter(o, m1, begun);
      assert Hurries(o, begun, x, inc, d) by {
        NewHurries(o, begun, x, inc, d);
      }
      var states, sections := TooNear(o, Next(o, m1, Begin(begun)), Max(w, t), x, inc, d, t, begun);
      forall j | 0 <= j < |sections| ensures InOrder(Begin(begun), sections[j]) {
      }
      Before(o, m1, Max(w, t), states, sections, Begin(begun));
      Sooner(o, m1, w, Max(w, t), [m1] + states, [Begin(begun)] + sections);
      Broken(o, m, w, x, inc, t, [m1] + states, [Begin(begun)] + sections);
    }
  }

  lemma NewHurries(o: Options, call: Call, x: NodeID, inc: int, d: int)
    requires call.Begun? && call.target == x && call.inc == inc && call.now <= d
    ensures Hurries(o, call, x, inc, d)
  {
  }

  /** From the first tick past the retention on. */
  lemma TooNear(o: Options, m: Manager, w: int, x: NodeID, inc: int, d: int, t: int, call: Call)
    returns (states: seq<Manager>, sections: seq<Section>)
    requires x in m.entries && Spent(m.entries[x], o, d + 1) && call in m.calls && Hurries(o, call, x, inc, d)
    requires t <= d && o.timeout > 0
    ensures Future(o, m, w, states, sections) && sections != [] && ClearFree(sections)
    ensures forall j :: 0 <= j < |sections| ==> InOrder(Scan(t), sections[j])
    ensures var b := |sections| - 1;
      Confirms(o, states[b], sections[b], x, inc) && sections[b].Scan? && sections[b].now <= d + o.timeout
  {
    hide Spent, Next, Plays, Trace, SectionEnabled, Hurries, Ordered;
    var w' := Max(w, d + 1);
    states, sections := EarlyConfirms(o, m, d + 1, w', x, inc, d, call);
    ItsFuture(o, m, d + 1, w', states, sections, x, inc, Max(d + 1, d + o.timeout));
    Sooner(o, m, w, w', states, sections);
    forall j | 0 <= j < |sections| ensures InOrder(Scan(t), sections[j]) {
      assert InOrder(Scan(d + 1), sections[j]);
    }
  }

  /** At the confirmation itself nothing short of a tick handled a whole retention late will do: every later
      confirmation of `x` at `inc` is more than a retention and a timeout away, whatever happens, if and only if
      the clock is already past the retention and no call in a hurry is left. */
  lemma ConfirmedExactly(o: Options, m: Manager, w: int, x: NodeID, inc: int, t: int)
    requires o.retention > 0 && o.timeout > 0 && Confirms(o, m, Scan(t), x, inc)
    ensures AlwaysSpaced(o, m, w, t, x, inc, t) <==> w > t + o.retention && !Early(o, m, x, inc, t + o.retention)
  {
    hide AlwaysSpaced, Confirms, Settled, Early;
    if w > t + o.retention && !Early(o, m, x, inc, t + o.retention) {
      ConfirmedSettled(o, m, t, x, inc, t + o.retention);
      SettledSpaces(o, m, w, t, x, inc, t);
    } else {
      ConfirmedBreaks(o, m, w, x, inc, t);
    }
  }

  lemma BeganAfter(o: Options, m: Manager, call: Call)
    requires call.Begun?
    ensures SectionEnabled(m, Begin(call)) && call in Next(o, m, Begin(call)).calls
    ensures Next(o, m, Begin(call)).entries == m.entries
  {
  }

  // ----- atomic operations

  /** What holds, `clock` being the latest tick, after `x` was confirmed at `inc` at time `t` and while no clear
      takes effect on it. */
  predicate Cooling(o: Options, es: map<NodeID, Entry>, x: NodeID, inc: int, t: int, clock: int) {
    && (clock <= t + o.retention ==> x in es && (es[x].inc > inc || (es[x].inc == inc && es[x].confirmed)))
    && (x in es && es[x].confirmed ==> es[x].cleanupAfter.At? && es[x].cleanupAfter.t >= t + o.retention)
    && (x in es && es[x].inc == inc && !es[x].confirmed && es[x].firstReport.At? ==> es[x].firstReport.t > t + o.retention)
  }

  /** Only the entry of `x` and the clock matter. */
  lemma CoolingLater(o: Options, es: map<NodeID, Entry>, es': map<NodeID, Entry>, x: NodeID, inc: int, t: int,
          clock: int, later: int)
    requires Cooling(o, es, x, inc, t, clock) && clock <= later
    requires x in es' <==> x in es
    requires x in es ==> es'[x] == es[x]
    ensures Cooling(o, es', x, inc, t, later)
  {
  }

  lemma CoolingReported(o: Options, es: map<NodeID, Entry>, x: NodeID, inc: int, t: int, clock: int, r: NodeID, now: int)
    requires Cooling(o, es, x, inc, t, clock) && x in es && clock <= now
    ensures Cooling(o, es[x := AddReport(es[x], o, r, now)], x, inc, t, clock)
  {
  }

  /** A new entry is above `inc`, or opened after the retention by a report made after it. */
  lemma CoolingOpened(o: Options, es: map<NodeID, Entry>, x: NodeID, inc: int, t: int, clock: int, i: int, r: NodeID, now: int)
    requires i > inc || (t + o.retention < clock && t + o.retention < now)
    ensures Cooling(o, es[x := AddReport(NewEntry(i), o, r, now)], x, inc, t, clock)
  {
  }

  lemma CoolingScanned(o: Options, es: map<NodeID, Entry>, x: NodeID, inc: int, t: int, clock: int, now: int)
    requires o.retention > 0 && Cooling(o, es, x, inc, t, clock) && t <= clock <= now
    ensures Cooling(o, CheckedEntries(es, o, now), x, inc, t, now)
  {
  }

  /** A new entry that is not above `inc` is opened after the retention. */
  lemma CoolingReopens(o: Options, es: map<NodeID, Entry>, x: NodeID, inc: int, t: int, clock: int, i: int)
    requires Cooling(o, es, x, inc, t, clock) && (x in es ==> i > es[x].inc)
    ensures i > inc || t + o.retention < clock
  {
  }

  /** The same for the whole manager: calls are not older than the latest tick, and one between its lock sections
      that is not above `inc` has found the suspicion gone after the retention. */
  ghost predicate Cooled(o: Options, m: Manager, x: NodeID, inc: int, t: int, clock: int) {
    && Cooling(o, m.entries, x, inc, t, clock)
    && forall call :: call in m.calls ==> CallCooled(o, call, x, inc, t, clock)
  }

  predicate CallCooled(o: Options, call: Call, x: NodeID, inc: int, t: int, clock: int) {
    clock <= call.now && (!call.Begun? && call.target == x && call.inc <= inc ==> t + o.retention < clock)
  }

  /** A report is not interrupted: from its reading of the clock on, its own sections come next. */
  ghost predicate Atomic(states: seq<Manager>, sections: seq<Section>) {
    forall j :: 0 <= j < |sections| <= |states| && states[j].calls != multiset{} ==>
      sections[j].Lookup? || sections[j].Compare? || sections[j].Insert?
  }

  lemma CooledLookup(o: Options, m: Manager, s: Section, x: NodeID, inc: int, t: int, clock: int)
    requires s.Lookup? && SectionEnabled(m, s) && Cooled(o, m, x, inc, t, clock)
    ensures Cooled(o, Next(o, m, s), x, inc, t, clock)
    ensures !Rushes(m, s, x, inc, t + o.retention)
  {
    hide AddReport, CheckedEntries;
    var c := s.call;
    var m' := Next(o, m, s);
    assert CallCooled(o, c, x, inc, t, clock);
    if c.target != x || !(Admit(m.entries, x, c.inc).Outdated? || Admit(m.entries, x, c.inc).Current?) {
      CoolingLater(o, m.entries, m'.entries, x, inc, t, clock, clock);
    } else if Admit(m.entries, x, c.inc).Current? {
      CoolingReported(o, m.entries, x, inc, t, clock, c.reporter, c.now);
    } else {
      CoolingReopens(o, m.entries, x, inc, t, clock, c.inc);
      CoolingOpened(o, m.entries, x, inc, t, clock, c.inc, c.reporter, c.now);
    }
    if x !in m.entries {
      CoolingReopens(o, m.entries, x, inc, t, clock, c.inc);
    }
    forall call | call in m'.calls ensures CallCooled(o, call, x, inc, t, clock) {
      if call !in m.calls {
        assert x !in m.entries || c.target != x;
      }
    }
  }

  lemma CooledInsert(o: Options, m: Manager, s: Section, x: NodeID, inc: int, t: int, clock: int)
    requires s.Insert? && SectionEnabled(m, s) && Cooled(o, m, x, inc, t, clock)
    ensures Cooled(o, Next(o, m, s), x, inc, t, clock)
  {
    hide AddReport, CheckedEntries, Cooling;
    var c := s.call;
    assert CallCooled(o, c, x, inc, t, clock);
    if c.target == x {
      CoolingOpened(o, m.entries, x, inc, t, clock, c.inc, c.reporter, c.now);
    } else {
      CoolingLater(o, m.entries, Next(o, m, s).entries, x, inc, t, clock, clock);
    }
  }

  lemma CooledCompare(o: Options, m: Manager, s: Section, x: NodeID, inc: int, t: int, clock: int)
    requires s.Compare? && SectionEnabled(m, s) && Cooled(o, m, x, inc, t, clock)
    ensures Cooled(o, Next(o, m, s), x, inc, t, clock)
  {
    hide AddReport, CheckedEntries, Cooling;
    assert CallCooled(o, s.call, x, inc, t, clock);
  }

  lemma CooledKept(o: Options, m: Manager, s: Section, x: NodeID, inc: int, t: int, clock: int)
    requires o.retention > 0 && t <= clock && SectionEnabled(m, s) && Cooled(o, m, x, inc, t, clock)
    requires InOrder(Scan(clock), s) && !ClearsEntry(m, s, x) && (s.Scan? ==> m.calls == multiset{})
    ensures Cooled(o, Next(o, m, s), x, inc, t, if s.Scan? then s.now else clock)
    ensures !Rushes(m, s, x, inc, t + o.retention)
  {
    hide AddReport, CheckedEntries, Cooling, Rushes, Cooled;
    if !s.Lookup? {
      OnlyLookupsRush(m, s, x, inc, t + o.retention);
    }
    match s
    case Lookup(_) => CooledLookup(o, m, s, x, inc, t, clock);
    case Insert(_) => CooledInsert(o, m, s, x, inc, t, clock);
    case Compare(_, _) => CooledCompare(o, m, s, x, inc, t, clock);
    case Begin(_) => CooledBegin(o, m, s, x, inc, t, clock);
    case Clear(_, _) => CooledClear(o, m, s, x, inc, t, clock);
    case Scan(now) => CooledScan(o, m, now, x, inc, t, clock);
  }

  lemma OnlyLookupsRush(m: Manager, s: Section, x: NodeID, inc: int, d: int)
    ensures Rushes(m, s, x, inc, d) ==> s.Lookup?
  {
  }

  lemma CooledBegin(o: Options, m: Manager, s: Section, x: NodeID, inc: int, t: int, clock: int)
    requires s.Begin? && SectionEnabled(m, s) && Cooled(o, m, x, inc, t, clock) && clock <= s.call.now
    ensures Cooled(o, Next(o, m, s), x, inc, t, clock)
  {
    hide AddReport, CheckedEntries, Cooling;
  }

  lemma CooledClear(o: Options, m: Manager, s: Section, x: NodeID, inc: int, t: int, clock: int)
    requires s.Clear? && Cooled(o, m, x, inc, t, clock) && !ClearsEntry(m, s, x)
    ensures Cooled(o, Next(o, m, s), x, inc, t, clock)
  {
    hide AddReport, CheckedEntries, Cooling;
    CoolingLater(o, m.entries, Next(o, m, s).entries, x, inc, t, clock, clock);
  }

  lemma CooledScan(o: Options, m: Manager, now: int, x: NodeID, inc: int, t: int, clock: int)
    requires o.retention > 0 && Cooled(o, m, x, inc, t, clock) && t <= clock <= now && m.calls == multiset{}
    ensures Cooled(o, Next(o, m, Scan(now)), x, inc, t, now)
  {
    hide AddReport, CheckedEntries, Cooling;
    CoolingScanned(o, m.entries, x, inc, t, clock, now);
  }

  lemma ConfirmedCools(o: Options, m: Manager, t: int, x: NodeID, inc: int)
    requires o.retention > 0 && Confirms(o, m, Scan(t), x, inc) && m.calls == multiset{}
    ensures Cooled(o, Next(o, m, Scan(t)), x, inc, t, t)
  {
  }

  /** `clock` is the latest tick before step `n`. */
  lemma {:induction false} CooledUntil(o: Options, states: seq<Manager>, sections: seq<Section>, x: NodeID, inc: int,
          a: nat, n: nat) returns (clock: int, k: nat)
    requires o.retention > 0 && Trace(o, states, sections) && Ordered(sections) && Atomic(states, sections)
    requires a < n <= |sections| && Confirms(o, states[a], sections[a], x, inc) && Uncleared(states, sections, x, a, n)
    ensures sections[a].now <= clock && a <= k < n && sections[k] == Scan(clock)
    ensures Cooled(o, states[n], x, inc, sections[a].now, clock)
    ensures forall j :: a < j < n ==> !Rushes(states[j], sections[j], x, inc, sections[a].now + o.retention)
    decreases n
  {
    hide Cooled, Next, SectionEnabled, Confirms, Rushes, ClearsEntry;
    ConfirmsScans(o, states[a], sections[a], x, inc);
    if n == a + 1 {
      clock, k := sections[a].now, a;
      ConfirmedCools(o, states[a], sections[a].now, x, inc);
    } else {
      clock, k := CooledUntil(o, states, sections, x, inc, a, n - 1);
      var st := sections[n - 1];
      assert InOrder(sections[k], st);
      CooledKept(o, states[n - 1], st, x, inc, sections[a].now, clock);
      if st.Scan? {
        assert InOrder(sections[a], st);
        clock, k := st.now, n - 1;
      }
    }
  }

  /** With atomic operations on a clock that does not go back, no report rushes, so two confirmations are spaced
      unless a clear takes effect between them. */
  lemma ConfirmationsSpaced(o: Options, states: seq<Manager>, sections: seq<Section>, x: NodeID, inc: int, a: nat, b: nat)
    requires o.retention > 0 && Trace(o, states, sections) && Ordered(sections) && Atomic(states, sections)
    requires a < b < |sections| && Uncleared(states, sections, x, a, b)
    requires Confirms(o, states[a], sections[a], x, inc) && Confirms(o, states[b], sections[b], x, inc)
    ensures sections[b].now - sections[a].now > o.retention + o.timeout
  {
    hide Next, Rushes, Uncleared;
    var clock, k := CooledUntil(o, states, sections, x, inc, a, b);
    SectionsSpaced(o, states, sections, x, inc, a, b);
  }

  // ----- the shortest failures

  /** One goroutine gets as far as its last lock section without meeting an entry. */
  lemma GetsThrough(o: Options, m: Manager, r: NodeID, x: NodeID, inc: int, now: int)
    requires x !in m.entries
    ensures var m1 := Next(o, Next(o, m, Begin(Begun(r, x, inc, now))), Lookup(Begun(r, x, inc, now)));
      && SectionEnabled(m1, Compare(Missed(r, x, inc, now), inc))
      && Next(o, m1, Compare(Missed(r, x, inc, now), inc)) == m.(calls := m.calls + multiset{Admitted(r, x, inc, now)})
  {
    hide AddReport, CheckedEntries;
    TakenBack(m.calls, Begun(r, x, inc, now));
    TakenBack(m.calls, Missed(r, x, inc, now));
  }

  /** Two goroutines that have both got through like this (the calls of `m`) open the entry twice, and the second
      opening is confirmed at the very next tick after the first confirmation. */
  lemma RaceConfirmsTwice(o: Options, m: Manager, r1: NodeID, r2: NodeID, x: NodeID, inc: int)
    requires o.requireReports == 1 && o.timeout >= 0 && r1 != r2
    requires m == Manager(map[], multiset{Admitted(r1, x, inc, 0), Admitted(r2, x, inc, 0)})
    ensures var t := o.timeout;
      var m1 := Next(o, m, Insert(Admitted(r1, x, inc, 0)));
      var m2 := Next(o, Next(o, m1, Scan(t)), Insert(Admitted(r2, x, inc, 0)));
      Confirms(o, m1, Scan(t), x, inc) && Confirms(o, m2, Scan(t), x, inc)
  {
    hide AddReport, CheckedEntries;
    FirstOfOne(o, inc, r1, 0);
    FirstOfOne(o, inc, r2, 0);
  }

  /** A goroutine that has read the clock and waits for the lock while the retention of `x` ends confirms it
      again a timeout later, although nothing was under way at the first confirmation. */
  lemma LateLookupConfirmsTwice(o: Options, m: Manager, r: NodeID, x: NodeID, inc: int, t: int)
    requires o.requireReports == 1 && o.timeout >= 1 && o.retention >= 1
    requires m.calls == multiset{} && Confirms(o, m, Scan(t), x, inc)
    ensures var begun := Begun(r, x, inc, t + 1);
      var m2 := Next(o, Next(o, m, Scan(t)), Begin(begun));
      var m3 := Next(o, m2, Scan(t + o.retention + 1));
      var m5 := Next(o, Next(o, m3, Lookup(begun)), Compare(Missed(r, x, inc, t + 1), inc));
      var m6 := Next(o, m5, Insert(Admitted(r, x, inc, t + 1)));
      var again := Max(t + o.retention + 1, t + 1 + o.timeout);
      Confirms(o, m6, Scan(again), x, inc) && again - t <= o.retention + o.timeout
  {
    hide AddReport;
    FirstOfOne(o, inc, r, t + 1);
    ConfirmedThenSpent(o, m, t, x, inc);
    SpentGoes(o, Next(o, Next(o, m, Scan(t)), Begin(Begun(r, x, inc, t + 1))), t + o.retention + 1, x);
  }
}
