/** When a suspicion is confirmed: the suspicion manager at the granularity of its lock sections. */
module SuspicionHistory {
  import opened Types
  import opened SuspicionSpec

  /** A ProcessSuspicion call that does not hold the manager's lock: it has read the clock and waits for the
      lock (Begun), has found no entry (Missed), or has then found its incarnation current in the membership
      table (Admitted). */
  datatype Call =
    | Begun(reporter: NodeID, target: NodeID, inc: int, now: int)
    | Missed(reporter: NodeID, target: NodeID, inc: int, now: int)
    | Admitted(reporter: NodeID, target: NodeID, inc: int, now: int)

  datatype Manager = Manager(entries: map<NodeID, Entry>, calls: multiset<Call>)

  /** What a goroutine does in one go. `Begin` reads the clock, before any lock is taken. `Lookup` is the first
      lock section of ProcessSuspicion; it goes on to add the report when there is an entry and lets go of the
      lock when there is none. */
  datatype Section =
    | Begin(call: Call)
    | Lookup(call: Call)
    | Compare(call: Call, localInc: int)
    | Insert(call: Call)
    | Clear(target: NodeID, inc: int)
    | Scan(now: int)

  predicate SectionEnabled(m: Manager, s: Section) {
    match s
    case Begin(call) => call.Begun?
    case Lookup(call) => call in m.calls && call.Begun?
    case Compare(call, _) => call in m.calls && call.Missed?
    case Insert(call) => call in m.calls && call.Admitted?
    case _ => true
  }

  function Next(o: Options, m: Manager, s: Section): Manager
    requires SectionEnabled(m, s)
  {
    match s
    case Begin(call) => m.(calls := m.calls + multiset{call})
    case Lookup(call) =>
      var rest := m.calls - multiset{call};
      var Begun(reporter, target, inc, now) := call;
      (match Admit(m.entries, target, inc)
       case Stale => m.(calls := rest)
       case Absent => m.(calls := rest + multiset{Missed(reporter, target, inc, now)})
       case Outdated => Manager(m.entries[target := AddReport(NewEntry(inc), o, reporter, now)], rest)
       case Current => Manager(m.entries[target := AddReport(m.entries[target], o, reporter, now)], rest))
    case Compare(call, localInc) =>
      var rest := m.calls - multiset{call};
      m.(calls := if call.inc < localInc then rest
                  else rest + multiset{Admitted(call.reporter, call.target, call.inc, call.now)})
    case Insert(call) =>
      Manager(m.entries[call.target := AddReport(NewEntry(call.inc), o, call.reporter, call.now)],
              m.calls - multiset{call})
    case Clear(target, inc) =>
      if target in m.entries && inc >= m.entries[target].inc then m.(entries := m.entries - {target}) else m
    case Scan(now) => m.(entries := CheckedEntries(m.entries, o, now))
  }

  /** Sections one after the other, from any state. */
  ghost predicate Trace(o: Options, states: seq<Manager>, sections: seq<Section>) {
    && |states| == |sections| + 1
    && forall j :: 0 <= j < |sections| ==>
         SectionEnabled(states[j], sections[j]) && states[j + 1] == Next(o, states[j], sections[j])
  }

  ghost predicate History(o: Options, states: seq<Manager>, sections: seq<Section>) {
    Trace(o, states, sections) && states[0] == Manager(map[], multiset{})
  }

  // ----- what a section does to the suspicion of `x`

  predicate Opens(m: Manager, s: Section, x: NodeID, inc: int) {
    match s
    case Lookup(call) => call.target == x && call.inc == inc && Admit(m.entries, x, inc).Outdated?
    case Insert(call) => call.target == x && call.inc == inc
    case _ => false
  }

  /** A report of exactly `inc`, read on the reporter's clock at `t`, is added to the entry of `x`. */
  predicate Reports(m: Manager, s: Section, x: NodeID, inc: int, reporter: NodeID, t: int) {
    match s
    case Lookup(call) =>
      && call.target == x && call.inc == inc && call.reporter == reporter && call.now == t
      && (Admit(m.entries, x, inc).Outdated? || Admit(m.entries, x, inc).Current?)
    case Insert(call) => call.target == x && call.inc == inc && call.reporter == reporter && call.now == t
    case _ => false
  }

  /** The section adds a report to the entry that `x` has. */
  predicate Joins(m: Manager, s: Section, x: NodeID) {
    x in m.entries && s.Lookup? && s.call.target == x && Admit(m.entries, x, s.call.inc).Current?
  }

  predicate Confirms(o: Options, m: Manager, s: Section, x: NodeID, inc: int) {
    s.Scan? && x in m.entries && m.entries[x].inc == inc && Due(m.entries[x], o, s.now)
  }

  /** The entry of `x` goes away: an effective ClearSuspect, or the end of its retention. */
  predicate Drops(o: Options, m: Manager, s: Section, x: NodeID) {
    x in m.entries && ((s.Clear? && s.target == x && s.inc >= m.entries[x].inc) || (s.Scan? && Spent(m.entries[x], o, s.now)))
  }

  function Count(m: Manager, x: NodeID): nat {
    if x in m.entries then |m.entries[x].reporters| else 0
  }

  // ----- the life of an entry

  /** The entry of `x` in state `n` was opened at step `b` and has been the entry of `x` ever since. */
  ghost predicate OpenSince(o: Options, states: seq<Manager>, sections: seq<Section>, x: NodeID, b: nat, n: nat)
    requires n < |states| == |sections| + 1 && x in states[n].entries
  {
    && b < n
    && Opens(states[b], sections[b], x, states[n].entries[x].inc)
    && (forall k :: b < k < n ==> x in states[k].entries && states[k].entries[x].inc == states[n].entries[x].inc)
    && (forall k, i :: b < k < n ==> !Opens(states[k], sections[k], x, i))
    && (forall k :: b < k < n ==> !Drops(o, states[k], sections[k], x))
  }

  /** Whoever is on the entry's list has reported the entry's incarnation into it. */
  ghost predicate Reported(o: Options, states: seq<Manager>, sections: seq<Section>, x: NodeID, b: nat, n: nat)
    requires n < |states| == |sections| + 1 && x in states[n].entries
  {
    var e := states[n].entries[x];
    forall r :: r in e.reporters ==>
      exists k :: b <= k < n && Reports(states[k], sections[k], x, e.inc, r, e.reporters[r])
  }

  /** The report at step `k` takes the number of reporters to the threshold. */
  ghost predicate Tips(o: Options, states: seq<Manager>, sections: seq<Section>, x: NodeID, b: nat, k: nat, t: int)
    requires b <= k < |sections| && |states| == |sections| + 1
  {
    && (exists inc, r :: Reports(states[k], sections[k], x, inc, r, t))
    && Count(states[k + 1], x) >= o.requireReports
    && (k > b ==> Count(states[k], x) < o.requireReports)
  }

  /** `firstReport` is set exactly when the threshold has been reached, and to the time of the report
      that reached it; the entry has been confirmed at most once, and then after that. */
  ghost predicate Timed(o: Options, states: seq<Manager>, sections: seq<Section>, x: NodeID, b: nat, n: nat)
    requires n < |states| == |sections| + 1 && x in states[n].entries && b < n
  {
    var e := states[n].entries[x];
    && (e.firstReport.At? <==> |e.reporters| >= o.requireReports)
    && (e.firstReport.At? ==> exists k :: b <= k < n && Tips(o, states, sections, x, b, k, e.firstReport.t))
    && (!e.confirmed ==> forall k, i :: b < k < n ==> !Confirms(o, states[k], sections[k], x, i))
  }

  ghost predicate Lives(o: Options, states: seq<Manager>, sections: seq<Section>, x: NodeID, b: nat, n: nat)
    requires n < |states| == |sections| + 1 && x in states[n].entries
  {
    && OpenSince(o, states, sections, x, b, n)
    && Reported(o, states, sections, x, b, n)
    && Timed(o, states, sections, x, b, n)
  }

  /** A section that leaves the entry of `x` as it is. */
  ghost predicate LeavesAlone(o: Options, m: Manager, s: Section, x: NodeID)
    requires SectionEnabled(m, s)
  {
    var m' := Next(o, m, s);
    && x in m.entries && x in m'.entries && m'.entries[x] == m.entries[x]
    && (forall i :: !Opens(m, s, x, i)) && !Drops(o, m, s, x) && (forall i :: !Confirms(o, m, s, x, i))
  }

  lemma Stepped(o: Options, states: seq<Manager>, sections: seq<Section>, n: nat)
    requires History(o, states, sections) && n < |sections|
    ensures SectionEnabled(states[n], sections[n]) && states[n + 1] == Next(o, states[n], sections[n])
  {
  }

  lemma OpenContinues(o: Options, states: seq<Manager>, sections: seq<Section>, x: NodeID, b: nat, n: nat)
    requires |states| == |sections| + 1 && n < |sections|
    requires x in states[n].entries && OpenSince(o, states, sections, x, b, n)
    requires x in states[n + 1].entries && states[n + 1].entries[x].inc == states[n].entries[x].inc
    requires (forall i :: !Opens(states[n], sections[n], x, i)) && !Drops(o, states[n], sections[n], x)
    ensures OpenSince(o, states, sections, x, b, n + 1)
  {
    hide Opens, Drops;
  }

  lemma ReportedContinues(o: Options, states: seq<Manager>, sections: seq<Section>, x: NodeID, b: nat, n: nat)
    requires |states| == |sections| + 1 && b <= n < |sections|
    requires x in states[n].entries && Reported(o, states, sections, x, b, n)
    requires x in states[n + 1].entries && states[n + 1].entries[x].inc == states[n].entries[x].inc
    requires var e, e' := states[n].entries[x], states[n + 1].entries[x];
      forall r :: r in e'.reporters ==>
        || (r in e.reporters && e'.reporters[r] == e.reporters[r])
        || Reports(states[n], sections[n], x, e.inc, r, e'.reporters[r])
    ensures Reported(o, states, sections, x, b, n + 1)
  {
    hide Reports;
    var e, e' := states[n].entries[x], states[n + 1].entries[x];
    forall r | r in e'.reporters
      ensures exists k :: b <= k < n + 1 && Reports(states[k], sections[k], x, e'.inc, r, e'.reporters[r])
    {
      if !Reports(states[n], sections[n], x, e.inc, r, e'.reporters[r]) {
        var k :| b <= k < n && Reports(states[k], sections[k], x, e.inc, r, e.reporters[r]);
      }
    }
  }

  lemma TimedContinues(o: Options, states: seq<Manager>, sections: seq<Section>, x: NodeID, b: nat, n: nat)
    requires |states| == |sections| + 1 && b < n < |sections|
    requires x in states[n].entries && Timed(o, states, sections, x, b, n) && x in states[n + 1].entries
    requires var e, e' := states[n].entries[x], states[n + 1].entries[x];
      || (e'.firstReport == e.firstReport && (|e.reporters| >= o.requireReports <==> |e'.reporters| >= o.requireReports))
      || (e'.firstReport.At? && |e'.reporters| >= o.requireReports && Tips(o, states, sections, x, b, n, e'.firstReport.t))
    requires var e, e' := states[n].entries[x], states[n + 1].entries[x];
      !e'.confirmed ==> !e.confirmed && forall i :: !Confirms(o, states[n], sections[n], x, i)
    ensures Timed(o, states, sections, x, b, n + 1)
  {
    hide Tips, Confirms;
    var e, e' := states[n].entries[x], states[n + 1].entries[x];
    if e'.firstReport.At? && !Tips(o, states, sections, x, b, n, e'.firstReport.t) {
      var k :| b <= k < n && Tips(o, states, sections, x, b, k, e.firstReport.t);
    }
  }

  lemma AloneLives(o: Options, states: seq<Manager>, sections: seq<Section>, x: NodeID, b: nat, n: nat)
    requires |states| == |sections| + 1 && History(o, states, sections) && n < |sections|
    requires x in states[n].entries && Lives(o, states, sections, x, b, n)
    requires SectionEnabled(states[n], sections[n]) && LeavesAlone(o, states[n], sections[n], x)
    ensures x in states[n + 1].entries && Lives(o, states, sections, x, b, n + 1)
  {
    Stepped(o, states, sections, n);
    hide History, Confirms, Drops, Opens, Next, Reports, Tips;
    OpenContinues(o, states, sections, x, b, n);
    ReportedContinues(o, states, sections, x, b, n);
    TimedContinues(o, states, sections, x, b, n);
  }

  /** A section that opens an entry for `x`. */
  lemma OpeningLives(o: Options, states: seq<Manager>, sections: seq<Section>, x: NodeID, inc: int, n: nat)
    requires |states| == |sections| + 1
    requires o.requireReports >= 1 && History(o, states, sections) && n < |sections|
    requires Opens(states[n], sections[n], x, inc)
    ensures x in states[n + 1].entries && Lives(o, states, sections, x, n, n + 1)
  {
    Stepped(o, states, sections, n);
    var m, s := states[n], sections[n];
    var r, t := s.call.reporter, s.call.now;
    assert Reports(m, s, x, inc, r, t);
    var e := states[n + 1].entries[x];
    assert e.reporters == map[r := t];
    if e.firstReport.At? {
      assert Tips(o, states, sections, x, n, n, t);
    }
  }

  /** What adding a report does to an entry. */
  lemma AddedReport(e: Entry, o: Options, r: NodeID, t: int)
    requires e.firstReport.At? <==> |e.reporters| >= o.requireReports
    ensures var e' := AddReport(e, o, r, t);
      && e'.inc == e.inc && e'.confirmed == e.confirmed
      && e'.reporters == e.reporters[r := t]
      && (if Fires(e, o, r, t)
          then e'.firstReport == At(t) && |e.reporters| < o.requireReports <= |e'.reporters|
          else e'.firstReport == e.firstReport && (|e.reporters| >= o.requireReports <==> |e'.reporters| >= o.requireReports))
  {
    MoreReporters(e.reporters, r, t);
  }

  /** What a report to the entry of `x` does, and what it does not do. */
  lemma ReportStep(o: Options, m: Manager, s: Section, x: NodeID)
    requires SectionEnabled(m, s) && Joins(m, s, x)
    ensures x in Next(o, m, s).entries
    ensures Next(o, m, s).entries[x] == AddReport(m.entries[x], o, s.call.reporter, s.call.now)
    ensures Reports(m, s, x, m.entries[x].inc, s.call.reporter, s.call.now)
    ensures (forall i :: !Opens(m, s, x, i)) && !Drops(o, m, s, x) && forall i :: !Confirms(o, m, s, x, i)
  {
    hide AddReport;
  }

  /** The report that fires tips the balance. */
  lemma ReportTips(o: Options, states: seq<Manager>, sections: seq<Section>, x: NodeID, b: nat, n: nat)
    requires |states| == |sections| + 1 && b < n < |sections|
    requires x in states[n].entries && x in states[n + 1].entries && sections[n].Lookup?
    requires |states[n].entries[x].reporters| < o.requireReports <= |states[n + 1].entries[x].reporters|
    requires Reports(states[n], sections[n], x, states[n].entries[x].inc, sections[n].call.reporter,
                     sections[n].call.now)
    ensures Tips(o, states, sections, x, b, n, sections[n].call.now)
  {
    hide Reports;
  }

  /** A report added to the entry of `x`. */
  lemma ReportLives(o: Options, states: seq<Manager>, sections: seq<Section>, x: NodeID, b: nat, n: nat)
    requires |states| == |sections| + 1 && History(o, states, sections) && n < |sections|
    requires x in states[n].entries && Lives(o, states, sections, x, b, n)
    requires Joins(states[n], sections[n], x)
    ensures x in states[n + 1].entries && Lives(o, states, sections, x, b, n + 1)
  {
    Stepped(o, states, sections, n);
    LifeFacts(o, states, sections, x, b, n);
    hide History, AddReport, Lives, OpenSince, Reported, Timed, Next, Reports, Opens, Drops, Confirms, Tips, Fires, Admit;
    var r, t := sections[n].call.reporter, sections[n].call.now;
    ReportStep(o, states[n], sections[n], x);
    AddedReport(states[n].entries[x], o, r, t);
    if Fires(states[n].entries[x], o, r, t) {
      ReportTips(o, states, sections, x, b, n);
    }
    OpenContinues(o, states, sections, x, b, n);
    ReportedContinues(o, states, sections, x, b, n);
    TimedContinues(o, states, sections, x, b, n);
    LifeOf(o, states, sections, x, b, n + 1);
  }

  lemma LifeOf(o: Options, states: seq<Manager>, sections: seq<Section>, x: NodeID, b: nat, n: nat)
    requires b < n < |states| == |sections| + 1 && x in states[n].entries
    requires OpenSince(o, states, sections, x, b, n) && Reported(o, states, sections, x, b, n)
    requires Timed(o, states, sections, x, b, n)
    ensures Lives(o, states, sections, x, b, n)
  {
    hide OpenSince, Reported, Timed;
  }

  lemma LifeFacts(o: Options, states: seq<Manager>, sections: seq<Section>, x: NodeID, b: nat, n: nat)
    requires n < |states| == |sections| + 1 && x in states[n].entries && Lives(o, states, sections, x, b, n)
    ensures var e := states[n].entries[x]; b < n && (e.firstReport.At? <==> |e.reporters| >= o.requireReports)
    ensures OpenSince(o, states, sections, x, b, n) && Reported(o, states, sections, x, b, n)
    ensures Timed(o, states, sections, x, b, n)
  {
    hide Reported, Tips, Opens, Drops, Confirms;
  }

  lemma MoreReporters(m: map<NodeID, int>, r: NodeID, t: int)
    ensures |m| <= |m[r := t]|
  {
    if r in m {
      assert m[r := t].Keys == m.Keys;
    } else {
      assert m[r := t].Keys == m.Keys + {r};
    }
    assert |m[r := t].Keys| == |m[r := t]| && |m.Keys| == |m|;
  }

  /** The confirmation of the entry of `x`. */
  lemma ConfirmationLives(o: Options, states: seq<Manager>, sections: seq<Section>, x: NodeID, b: nat, n: nat)
    requires |states| == |sections| + 1 && History(o, states, sections) && n < |sections|
    requires x in states[n].entries && Lives(o, states, sections, x, b, n)
    requires sections[n].Scan? && Due(states[n].entries[x], o, sections[n].now)
    ensures x in states[n + 1].entries && Lives(o, states, sections, x, b, n + 1)
  {
    Stepped(o, states, sections, n);
    hide History, OpenSince, Reported, Timed, Tips, Reports;
    LifeFacts(o, states, sections, x, b, n);
    OpenContinues(o, states, sections, x, b, n);
    ReportedContinues(o, states, sections, x, b, n);
    TimedContinues(o, states, sections, x, b, n);
  }

  lemma ScanCase(o: Options, m: Manager, now: int, x: NodeID)
    requires x in Next(o, m, Scan(now)).entries
    requires !(x in m.entries && Due(m.entries[x], o, now))
    ensures x in m.entries && LeavesAlone(o, m, Scan(now), x)
  {
    hide Due, Spent, Confirmed;
  }

  lemma LookupCase(o: Options, m: Manager, s: Section, x: NodeID)
    requires SectionEnabled(m, s) && s.Lookup? && x in Next(o, m, s).entries
    requires !Opens(m, s, x, s.call.inc) && !Joins(m, s, x)
    ensures x in m.entries && LeavesAlone(o, m, s, x)
  {
    hide AddReport, CheckedEntries, Due, Spent, NewEntry;
  }

  /** Every section does one of these four things to an entry that is there afterwards. */
  lemma SectionCases(o: Options, m: Manager, s: Section, x: NodeID)
    requires SectionEnabled(m, s) && x in Next(o, m, s).entries
    requires forall i :: !Opens(m, s, x, i)
    requires !Joins(m, s, x)
    requires !(s.Scan? && x in m.entries && Due(m.entries[x], o, s.now))
    ensures x in m.entries && LeavesAlone(o, m, s, x)
  {
    hide AddReport, CheckedEntries, Due, Spent, NewEntry;
    match s
    case Insert(call) =>
      assert !Opens(m, s, x, call.inc);
    case Lookup(call) =>
      assert !Opens(m, s, x, call.inc);
      LookupCase(o, m, s, x);
    case Scan(now) =>
      ScanCase(o, m, now, x);
    case _ =>
  }

  /** Every entry has such a life. */
  lemma {:induction false} EntriesLive(o: Options, states: seq<Manager>, sections: seq<Section>, x: NodeID, n: nat)
    requires |states| == |sections| + 1
    requires o.requireReports >= 1 && History(o, states, sections) && n < |states| && x in states[n].entries
    ensures exists b: nat :: Lives(o, states, sections, x, b, n)
    decreases n
  {
    hide LeavesAlone, Opens, Lives, Next, Due;
    if n > 0 {
      Stepped(o, states, sections, n - 1);
      var m, s := states[n - 1], sections[n - 1];
      if i :| Opens(m, s, x, i) {
        OpeningLives(o, states, sections, x, i, n - 1);
      } else if Joins(m, s, x) {
        EntriesLive(o, states, sections, x, n - 1);
        var b: nat :| Lives(o, states, sections, x, b, n - 1);
        ReportLives(o, states, sections, x, b, n - 1);
      } else if s.Scan? && x in m.entries && Due(m.entries[x], o, s.now) {
        EntriesLive(o, states, sections, x, n - 1);
        var b: nat :| Lives(o, states, sections, x, b, n - 1);
        ConfirmationLives(o, states, sections, x, b, n - 1);
      } else {
        SectionCases(o, m, s, x);
        EntriesLive(o, states, sections, x, n - 1);
        var b: nat :| Lives(o, states, sections, x, b, n - 1);
        AloneLives(o, states, sections, x, b, n - 1);
      }
    }
  }

  /** The suspicion of `x` confirmed at step `n` was opened at a step `b` at that very incarnation; since
      then no ClearSuspect at that incarnation or above has taken effect on it, nothing replaced it, and
      it was not confirmed before; at least `requireReports` distinct reporters each reported that
      incarnation into it; and the report that reached the threshold is at least the timeout old. */
  lemma QuorumAndDelay(o: Options, states: seq<Manager>, sections: seq<Section>, x: NodeID, inc: int, n: nat)
    requires |states| == |sections| + 1
    requires o.requireReports >= 1 && History(o, states, sections) && n < |sections|
    requires Confirms(o, states[n], sections[n], x, inc)
    ensures exists b: nat, k: nat, t: int ::
      && b <= k < n
      && Opens(states[b], sections[b], x, inc)
      && (forall j :: b < j < n ==> !Drops(o, states[j], sections[j], x))
      && (forall j, i :: b < j < n ==> !Opens(states[j], sections[j], x, i) && !Confirms(o, states[j], sections[j], x, i))
      && (forall r :: r in states[n].entries[x].reporters ==>
            exists j, at :: b <= j < n && Reports(states[j], sections[j], x, inc, r, at))
      && |states[n].entries[x].reporters| >= o.requireReports
      && Tips(o, states, sections, x, b, k, t)
      && sections[n].now - t >= o.timeout
  {
    hide History, Tips, Opens, Drops, Reports;
    EntriesLive(o, states, sections, x, n);
    var b: nat :| Lives(o, states, sections, x, b, n);
    var e := states[n].entries[x];
    var k: nat :| b <= k < n && Tips(o, states, sections, x, b, k, e.firstReport.t);
    forall r | r in e.reporters
      ensures exists j, at :: b <= j < n && Reports(states[j], sections[j], x, inc, r, at)
    {
      var j :| b <= j < n && Reports(states[j], sections[j], x, inc, r, e.reporters[r]);
    }
    forall j, i | b < j < n
      ensures !Opens(states[j], sections[j], x, i) && !Confirms(o, states[j], sections[j], x, i)
    {
    }
  }

  // ----- atomic operations

  /** An operation of the manager whose lock sections run without interruption. */
  datatype Op =
    | Report(reporter: NodeID, target: NodeID, inc: int, localInc: int, now: int)
    | ClearOp(target: NodeID, inc: int, now: int)
    | CheckOp(now: int)

  function Apply(o: Options, es: map<NodeID, Entry>, op: Op): map<NodeID, Entry> {
    match op
    case Report(reporter, target, inc, localInc, now) =>
      (match Admit(es, target, inc)
       case Stale => es
       case Absent => if inc < localInc then es else es[target := AddReport(NewEntry(inc), o, reporter, now)]
       case Outdated => es[target := AddReport(NewEntry(inc), o, reporter, now)]
       case Current => es[target := AddReport(es[target], o, reporter, now)])
    case ClearOp(target, inc, _) => if target in es && inc >= es[target].inc then es - {target} else es
    case CheckOp(now) => CheckedEntries(es, o, now)
  }

  /** An atomic report is what ProcessSuspicion does to the entries... */
  lemma ReportApplies(c: Core, o: Options, reporter: NodeID, target: NodeID, inc: int, now: int)
    ensures target != c.local ==>
      ProcessSuspicion(c, o, reporter, target, inc, now).entries
        == Apply(o, c.entries, Report(reporter, target, inc, RecordedInc(c.table, target), now))
  {
    hide AddReport, NewEntry, SelfRefute, MarkSuspected, Fires, CheckedEntries;
  }

  /** The first lock section: all of the report when there is an entry. */
  lemma FirstSection(o: Options, m: Manager, call: Call, localInc: int)
    requires call.Begun?
    ensures var m1 := Next(o, Next(o, m, Begin(call)), Lookup(call));
      if Admit(m.entries, call.target, call.inc).Absent?
      then m1 == m.(calls := m.calls + multiset{Missed(call.reporter, call.target, call.inc, call.now)})
      else m1 == Manager(Apply(o, m.entries, Report(call.reporter, call.target, call.inc, localInc, call.now)), m.calls)
  {
    hide AddReport, CheckedEntries, NewEntry;
    TakenBack(m.calls, call);
  }

  /** The other two when there is none. */
  lemma LaterSections(o: Options, m: Manager, reporter: NodeID, target: NodeID, inc: int, localInc: int, now: int)
    requires Admit(m.entries, target, inc).Absent?
    ensures var missed := Missed(reporter, target, inc, now);
      var m2 := Next(o, m.(calls := m.calls + multiset{missed}), Compare(missed, localInc));
      var m' := if inc < localInc then m2 else Next(o, m2, Insert(Admitted(reporter, target, inc, now)));
      m' == Manager(Apply(o, m.entries, Report(reporter, target, inc, localInc, now)), m.calls)
  {
    hide AddReport, CheckedEntries, NewEntry;
    TakenBack(m.calls, Missed(reporter, target, inc, now));
    TakenBack(m.calls, Admitted(reporter, target, inc, now));
  }

  /** ... and it is its sections one after the other. */
  lemma SectionsCompose(o: Options, m: Manager, reporter: NodeID, target: NodeID, inc: int, localInc: int, now: int)
    ensures var call := Begun(reporter, target, inc, now);
      var missed := Missed(reporter, target, inc, now);
      var m1 := Next(o, Next(o, m, Begin(call)), Lookup(call));
      var m' :=
        if !Admit(m.entries, target, inc).Absent? then m1
        else
          var m2 := Next(o, m1, Compare(missed, localInc));
          if inc < localInc then m2 else Next(o, m2, Insert(Admitted(reporter, target, inc, now)));
      m'.entries == Apply(o, m.entries, Report(reporter, target, inc, localInc, now)) && m'.calls == m.calls
  {
    hide Apply, Admit, AddReport, CheckedEntries, NewEntry;
    FirstSection(o, m, Begun(reporter, target, inc, now), localInc);
    if Admit(m.entries, target, inc).Absent? {
      LaterSections(o, m, reporter, target, inc, localInc, now);
    }
  }

  lemma TakenBack(calls: multiset<Call>, call: Call)
    ensures calls + multiset{call} - multiset{call} == calls
  {
  }
}
