/** What the timers of a process and its callbacks make of one member, in the terms of Words. */
module Timers {
  import opened Types
  import opened SuspicionSpec
  import opened UpdateLogSpec
  import opened DetectorSpec
  import opened PingAckSpec
  import opened GossipSpec
  import opened CallbackSpec
  import opened Cluster
  import opened Words

  // ----- judgements

  /** The gossip detector's check: a member past its time is dropped, a silent one suspected and, at its recorded
      incarnation, reported in the node's own name. */
  function Watched(v: About, o: Options, ts: Timeouts, susp: bool, local: NodeID, x: NodeID, now: int): Judgement {
    match v.rec
    case None => Nothing(v)
    case Some(r) =>
      if Removable(r, ts, susp, now) then Dropped(v, x, now)
      else if susp && Silent(r, ts, now) then
        Accused(Write(v, x, r.(status := Suspected, since := At(now)), now), o, local, x, r.inc, now)
      else Nothing(v)
  }

  /** A probe is given up. With suspicion off its target is dropped. With suspicion on the target is suspected and
      reported, and entered in the table when it was unknown. */
  function GivenUp(v: About, o: Options, susp: bool, local: NodeID, x: NodeID, now: int): Judgement {
    if !susp then Dropped(v, x, now)
    else
      match v.rec
      case None => Accused(Write(v, x, Rec(0, Suspected, At(now), At(now)), now), o, local, x, 0, now)
      case Some(r) =>
        Accused(if r.status.Suspected? then Nothing(v) else Write(v, x, r.(status := Suspected, since := At(now)), now),
                o, local, x, r.inc, now)
  }

  /** The manager's check fails a member whose suspicion is due, with nothing logged, and forgets a suspicion
      confirmed long enough ago. */
  function Reviewed(v: About, o: Options, x: NodeID, now: int): Judgement {
    match v.entry
    case None => Nothing(v)
    case Some(e) =>
      if Spent(e, o, now) then Judgement(v.(entry := None), [], None)
      else if Due(e, o, now) then
        Judgement(About(if v.rec.Some? then Some(v.rec.value.(status := Failed)) else None, Some(Confirmed(e, o, now))), [],
                  if v.rec.Some? then Some(OnConfirm(x, e.inc)) else None)
      else Nothing(v)
  }

  // ----- carried out

  lemma DroppedCarries(c: Core, x: NodeID, now: int)
    ensures var c' := if x in c.table then Append(c.(table := c.table - {x}), Update(x, c.table[x].inc, Failed, now)) else c;
      Carried(c, c', x, Dropped(Of(c, x), x, now)) && forall k :: k != x ==> Passes(c, c', k)
  {
    if x in c.table {
      forall k ensures RecordsOf(c.log + [Update(x, c.table[x].inc, Failed, now)], k)
        == RecordsOf(c.log, k) + if x == k then [Update(x, c.table[x].inc, Failed, now)] else []
      {
        RecordsOne(c.log, Update(x, c.table[x].inc, Failed, now), k);
      }
    }
    hide RecordsOf;
  }

  /** declareSuspicion about another node. */
  lemma DeclareCarries(c: Core, o: Options, susp: bool, x: NodeID, now: int)
    requires x != c.local
    ensures Carried(c, DeclareSuspicion(c, o, susp, x, now), x, GivenUp(Of(c, x), o, susp, c.local, x, now))
  {
    hide RecordsOf, Carried, Passes, ProcessSuspicion, Accused, Dropped;
    DroppedCarries(c, x, now);
    if susp {
      var r :=
        if x in c.table then c.table[x].(status := Suspected, since := At(now)) else Rec(0, Suspected, At(now), At(now));
      var kept := x in c.table && c.table[x].status.Suspected?;
      var c1 := if kept then c else PutLogged(c, x, r, now);
      var j := if kept then Nothing(Of(c, x)) else Write(Of(c, x), x, r, now);
      WriteCarries(c, x, r, now);
      NothingPasses(c);
      CarriedLocal(c, c1, x);
      ReportCarries(c1, o, c.local, x, r.inc, now);
      var c2 := ProcessSuspicion(c1, o, c.local, x, r.inc, now);
      ThenAccused(c, c1, c2, x, j, o, c.local, r.inc, now);
    }
  }

  lemma CheckCarries(c: Core, o: Options, now: int, x: NodeID)
    ensures Carried(c, Check(c, o, now), x, Reviewed(Of(c, x), o, x, now))
  {
    assert forall e: Entry :: !(Due(e, o, now) && Spent(e, o, now));
    hide RecordsOf, Due, Spent, Confirmed;
  }

  lemma PingCheckCarries(c: Core, ts: Timeouts, now: int, order: seq<NodeID>, x: NodeID)
    requires Enumerates(order, OverdueSet(c, ts, now)) && x != c.local
    ensures Carried(c, PingCheck(c, ts, now, order), x,
                    if x in c.table && Overdue(c.table[x], ts, now) then Dropped(Of(c, x), x, now) else Nothing(Of(c, x)))
  {
    hide RecordsOf, FailedRecords, Overdue;
    FailedRecordsOf(order, c.table, now, x);
    RecordsConcat(c.log, FailedRecords(order, c.table, now), x);
  }

  // ----- the gossip detector's check

  lemma AppendPasses(c: Core, u: Update, x: NodeID)
    requires u.id != x
    ensures Passes(c, Append(c, u), x)
  {
    RecordsOne(c.log, u, x);
    hide RecordsOf;
  }

  /** Reports of others. */
  lemma {:induction false} SilentPasses(c: Core, o: Options, ids: seq<NodeID>, table: map<NodeID, Rec>, now: int, x: NodeID)
    requires x !in ids
    ensures Passes(c, ReportSilent(c, o, ids, table, now), x)
  {
    hide Passes, ProcessSuspicion;
    if ids == [] {
      NothingPasses(c);
    } else {
      var n := |ids| - 1;
      var inc := RecordedInc(table, ids[n]);
      var c1 := ReportSilent(c, o, ids[..n], table, now);
      var c2 := Append(c1, Update(ids[n], inc, Suspected, now));
      SilentPasses(c, o, ids[..n], table, now, x);
      AppendPasses(c1, Update(ids[n], inc, Suspected, now), x);
      ReportPasses(c2, o, c.local, ids[n], inc, now, x);
      PassesTwice(c, c1, c2, x);
      PassesTwice(c, c2, ProcessSuspicion(c2, o, c.local, ids[n], inc, now), x);
    }
  }

  /** `x` has been reported, at `inc`, and its record logged before. */
  function Reporting(v: About, o: Options, local: NodeID, x: NodeID, inc: int, now: int): Judgement {
    Accused(Judgement(v, [Update(x, inc, Suspected, now)], None), o, local, x, inc, now)
  }

  lemma ReportingCarries(c: Core, o: Options, x: NodeID, inc: int, now: int)
    requires x != c.local
    ensures Carried(c, ProcessSuspicion(Append(c, Update(x, inc, Suspected, now)), o, c.local, x, inc, now), x,
                    Reporting(Of(c, x), o, c.local, x, inc, now))
  {
    var u := Update(x, inc, Suspected, now);
    RecordsOne(c.log, u, x);
    hide RecordsOf, ProcessSuspicion, Accused;
    ReportCarries(Append(c, u), o, c.local, x, inc, now);
    ThenAccused(c, Append(c, u), ProcessSuspicion(Append(c, u), o, c.local, x, inc, now), x,
                Judgement(Of(c, x), [u], None), o, c.local, inc, now);
  }

  lemma {:induction false} SilentCarries(c: Core, o: Options, ids: seq<NodeID>, table: map<NodeID, Rec>, now: int, x: NodeID)
    requires x in ids && x != c.local && forall i, j :: 0 <= i < j < |ids| ==> ids[i] != ids[j]
    ensures Carried(c, ReportSilent(c, o, ids, table, now), x, Reporting(Of(c, x), o, c.local, x, RecordedInc(table, x), now))
  {
    hide Passes, Carried, ProcessSuspicion, Reporting;
    var n := |ids| - 1;
    assert ids == ids[..n] + [ids[n]];
    var inc := RecordedInc(table, ids[n]);
    var c1 := ReportSilent(c, o, ids[..n], table, now);
    var c2 := Append(c1, Update(ids[n], inc, Suspected, now));
    var c3 := ProcessSuspicion(c2, o, c.local, ids[n], inc, now);
    NothingPasses(c);
    NothingPasses(c3);
    var j := Reporting(Of(c, x), o, c.local, x, RecordedInc(table, x), now);
    if ids[n] == x {
      SilentPasses(c, o, ids[..n], table, now, x);
      CarriedLocal(c, c1, x);
      ReportingCarries(c1, o, x, inc, now);
      CarriedBetween(c, c1, c3, c3, x, j);
    } else {
      SilentCarries(c, o, ids[..n], table, now, x);
      AppendPasses(c1, Update(ids[n], inc, Suspected, now), x);
      ReportPasses(c2, o, c.local, ids[n], inc, now, x);
      PassesTwice(c1, c2, c3, x);
      CarriedBetween(c, c, c1, c3, x, j);
    }
  }

  lemma SweptSees(c: Core, ts: Timeouts, susp: bool, now: int, x: NodeID)
    requires x != c.local
    ensures var c1 := Swept(c, ts, susp, now);
      && c1.local == c.local && c1.log == c.log && c1.tasks == c.tasks
      && Of(c1, x) == About(
           if x !in c.table || Removable(c.table[x], ts, susp, now) then None
           else if susp && Silent(c.table[x], ts, now) then Some(c.table[x].(status := Suspected, since := At(now)))
           else Some(c.table[x]), Of(c, x).entry)
  {
    hide Removable, Silent;
  }

  lemma SilentOrRemovable(r: Rec, ts: Timeouts, now: int)
    ensures Silent(r, ts, now) ==> !Removable(r, ts, true, now)
  {
  }

  lemma WhoIsListed(c: Core, ts: Timeouts, susp: bool, now: int, silent: seq<NodeID>, removed: seq<NodeID>, x: NodeID)
    requires Enumerates(silent, SilentSet(c, ts, susp, now)) && Enumerates(removed, RemovableSet(c, ts, susp, now))
    requires x != c.local
    ensures x in silent <==> x in c.table && susp && Silent(c.table[x], ts, now)
    ensures x in removed <==> x in c.table && Removable(c.table[x], ts, susp, now)
    ensures forall i, j :: 0 <= i < j < |silent| ==> silent[i] != silent[j]
    ensures forall i, j :: 0 <= i < j < |removed| ==> removed[i] != removed[j]
  {
    hide Silent, Removable;
  }

  /** The pass over the table and the reports of the silent, before the failures are logged. */
  function Passed(v: About, o: Options, ts: Timeouts, susp: bool, local: NodeID, x: NodeID, now: int): Judgement {
    match v.rec
    case None => Nothing(v)
    case Some(r) =>
      if Removable(r, ts, susp, now) then Nothing(v.(rec := None))
      else if susp && Silent(r, ts, now) then
        Reporting(v.(rec := Some(r.(status := Suspected, since := At(now)))), o, local, x, r.inc, now)
      else Nothing(v)
  }

  lemma PassCarries(c: Core, o: Options, ts: Timeouts, susp: bool, now: int, silent: seq<NodeID>, x: NodeID)
    requires x in silent <==> x in c.table && susp && Silent(c.table[x], ts, now)
    requires x != c.local && forall i, j :: 0 <= i < j < |silent| ==> silent[i] != silent[j]
    ensures Carried(c, ReportSilent(Swept(c, ts, susp, now), o, silent, c.table, now), x,
                    Passed(Of(c, x), o, ts, susp, c.local, x, now))
  {
    hide RecordsOf, Swept, ReportSilent, Removable, Silent, Accused;
    var c1 := Swept(c, ts, susp, now);
    SweptSees(c, ts, susp, now, x);
    if x in silent {
      SilentCarries(c1, o, silent, c.table, now, x);
      SilentOrRemovable(c.table[x], ts, now);
    } else {
      SilentPasses(c1, o, silent, c.table, now, x);
    }
  }

  lemma FailuresLogged(c: Core, c2: Core, removed: seq<NodeID>, table: map<NodeID, Rec>, now: int, x: NodeID, j: Judgement)
    requires Carried(c, c2, x, j) && forall i, j :: 0 <= i < j < |removed| ==> removed[i] != removed[j]
    ensures Carried(c, c2.(log := c2.log + FailedRecords(removed, table, now)), x,
                    if x in removed then j.(logged := j.logged + [Update(x, RecordedInc(table, x), Failed, now)]) else j)
  {
    hide RecordsOf, FailedRecords;
    FailedRecordsOf(removed, table, now, x);
    RecordsConcat(c2.log, FailedRecords(removed, table, now), x);
  }

  lemma GossipCheckCarries(c: Core, o: Options, ts: Timeouts, susp: bool, now: int, silent: seq<NodeID>,
          removed: seq<NodeID>, x: NodeID)
    requires Enumerates(silent, SilentSet(c, ts, susp, now)) && Enumerates(removed, RemovableSet(c, ts, susp, now))
    requires x != c.local
    ensures Carried(c, GossipCheck(c, o, ts, susp, now, silent, removed), x, Watched(Of(c, x), o, ts, susp, c.local, x, now))
  {
    hide Enumerates, RecordsOf, FailedRecords, Swept, ReportSilent, Removable, Silent, Carried, Accused;
    WhoIsListed(c, ts, susp, now, silent, removed, x);
    PassCarries(c, o, ts, susp, now, silent, x);
    assert forall u: Update :: [] + [u] == [u];
    FailuresLogged(c, ReportSilent(Swept(c, ts, susp, now), o, silent, c.table, now), removed, c.table, now, x,
                   Passed(Of(c, x), o, ts, susp, c.local, x, now));
  }

  // ----- every step

  /** The steps that are neither a message nor a callback, and change neither identity nor advertise. */
  predicate Routine(a: Action) {
    !a.Receive? && !a.Callback? && !a.Reidentify? && !a.Round?
  }

  /** What such a step makes of `x`. */
  function Judged(cfg: Config, p: Proc, a: Action, x: NodeID): Judgement
    requires Routine(a)
  {
    var v, o, local := Of(p.core, x), cfg.opts, p.core.local;
    match a
    case ManagerTick(now) => Reviewed(v, o, x, now)
    case PingTick(now, _) => if v.rec.Some? && Overdue(v.rec.value, cfg.ts, now) then Dropped(v, x, now) else Nothing(v)
    case GossipTick(susp, now, _, _) => Watched(v, o, cfg.ts, susp, local, x, now)
    case NoDirectAck(susp, helpers, now) =>
      if helpers == [] && p.phase.Direct? && p.phase.target == x then GivenUp(v, o, susp, local, x, now) else Nothing(v)
    case NoIndirectAck(susp, now) =>
      if p.phase.Indirect? && p.phase.target == x then GivenUp(v, o, susp, local, x, now) else Nothing(v)
    case _ => Nothing(v)
  }

  lemma CoreOf(c: Core, c': Core, now: int, x: NodeID)
    requires c'.local == c.local && c'.table == c.table && c'.entries == c.entries && c'.tasks == c.tasks
    ensures c'.log == c.log ==> Heeded(c, c', x, Nothing(Of(c, x)), None)
    ensures c'.log == Live(c.log, now) ==> Heeded(c, c', x, Nothing(Of(c, x)), Some(now))
  {
    RecordsLive(c.log, now, x);
    assert RecordsOf(c.log, x) + [] == RecordsOf(c.log, x);
    hide RecordsOf, Live;
  }

  /** Giving up a probe of one member or another. */
  lemma GivingUpHeeded(c: Core, o: Options, susp: bool, target: NodeID, now: int, x: NodeID)
    requires x != c.local
    ensures Heeded(c, DeclareSuspicion(c, o, susp, target, now), x,
                   if target == x then GivenUp(Of(c, x), o, susp, c.local, x, now) else Nothing(Of(c, x)), None)
  {
    hide DeclareSuspicion, Carried, Passes, Heeded, GivenUp, Of;
    var c' := DeclareSuspicion(c, o, susp, target, now);
    if target == x {
      DeclareCarries(c, o, susp, x, now);
      CarriedHeeded(c, c', x, GivenUp(Of(c, x), o, susp, c.local, x, now));
    } else {
      DeclarePasses(c, o, susp, target, now, x);
      PassesHeeded(c, c', x);
    }
  }

  lemma PassesHeeded(c: Core, c': Core, x: NodeID)
    requires Passes(c, c', x)
    ensures Heeded(c, c', x, Nothing(Of(c, x)), None)
  {
    hide RecordsOf;
  }

  lemma DeclarePasses(c: Core, o: Options, susp: bool, target: NodeID, now: int, x: NodeID)
    requires target != x
    ensures Passes(c, DeclareSuspicion(c, o, susp, target, now), x)
  {
    hide Passes, ProcessSuspicion;
    NothingPasses(c);
    DroppedCarries(c, target, now);
    if susp {
      var r :=
        if target in c.table then c.table[target].(status := Suspected, since := At(now))
        else Rec(0, Suspected, At(now), At(now));
      var c1 := if target in c.table && c.table[target].status.Suspected? then c else PutLogged(c, target, r, now);
      WriteCarries(c, target, r, now);
      ReportPasses(c1, o, c.local, target, r.inc, now, x);
      PassesTwice(c, c1, ProcessSuspicion(c1, o, c.local, target, r.inc, now), x);
    }
  }

  /** What a timer makes of a member, another than the node itself: the judgement on it. */
  lemma EveryTimerJudged(cfg: Config, p: Proc, a: Action, x: NodeID)
    requires Enabled(cfg, p, a) && Routine(a) && x != p.core.local
    ensures Heeded(p.core, Act(cfg, p, a).core, x, Judged(cfg, p, a, x), if a.Begin? then Some(a.now) else None)
  {
    hide Handle, DeclareSuspicion, GossipCheck, Check, PingCheck, Carried, Heeded, Live, Prefix, Selection, Broadcast,
      GivenUp, Watched, Reviewed, Dropped, Overdue, PingRequests, RunTask, Enumerates;
    var c, c', o := p.core, Act(cfg, p, a).core, cfg.opts;
    match a
    case ManagerTick(now) =>
      CheckCarries(c, o, now, x);
      CarriedHeeded(c, c', x, Judged(cfg, p, a, x));
    case PingTick(now, order) =>
      PingCheckCarries(c, cfg.ts, now, order, x);
      CarriedHeeded(c, c', x, Judged(cfg, p, a, x));
    case GossipTick(susp, now, silent, removed) =>
      GossipCheckCarries(c, o, cfg.ts, susp, now, silent, removed, x);
      CarriedHeeded(c, c', x, Judged(cfg, p, a, x));
    case NoDirectAck(susp, helpers, now) =>
      if helpers == [] {
        GivingUpHeeded(c, o, susp, p.phase.target, now, x);
      } else {
        CoreOf(c, c', now, x);
      }
    case NoIndirectAck(susp, now) => GivingUpHeeded(c, o, susp, p.phase.target, now, x);
    case Begin(_, now) => CoreOf(c, c', now, x);
    case _ => CoreOf(c, c', 0, x);
  }

  // ----- the node itself

  lemma {:induction false} ReportsOfOthers(c: Core, o: Options, ids: seq<NodeID>, table: map<NodeID, Rec>, now: int)
    requires c.local !in ids
    ensures var c' := ReportSilent(c, o, ids, table, now);
      c'.own == c.own && c'.refutations == c.refutations && c'.out == c.out && c'.local == c.local
  {
    hide ProcessSuspicion;
    if ids != [] {
      var n := |ids| - 1;
      var inc := RecordedInc(table, ids[n]);
      ReportsOfOthers(c, o, ids[..n], table, now);
      ReportTold(Append(ReportSilent(c, o, ids[..n], table, now), Update(ids[n], inc, Suspected, now)), o, c.local, ids[n], inc, now);
    }
  }

  lemma ReportTold(c: Core, o: Options, reporter: NodeID, id: NodeID, inc: int, now: int)
    requires id != c.local
    ensures var c' := ProcessSuspicion(c, o, reporter, id, inc, now);
      c'.own == c.own && c'.refutations == c.refutations && c'.out == c.out && c'.local == c.local
  {
    hide AddReport, Fires, MarkSuspected;
  }

  /** The checks of either detector leave the node itself alone, however long ago its own record was refreshed: record,
      log and counter, and nobody is told anything. */
  lemma ChecksSpareSelf(cfg: Config, p: Proc, a: Action)
    requires Enabled(cfg, p, a) && (a.PingTick? || a.GossipTick?)
    ensures var c, c' := p.core, Act(cfg, p, a).core;
      Passes(c, c', c.local) && c'.own == c.own && c'.refutations == c.refutations && c'.out == c.out
  {
    var c, x := p.core, p.core.local;
    if a.PingTick? {
      PingSparesSelf(c, cfg.ts, a.now, a.order);
    } else {
      GossipSparesSelf(c, cfg.opts, cfg.ts, a.susp, a.now, a.silent, a.removed);
    }
    hide Handle, DeclareSuspicion, PingCheck, GossipCheck, Check, Enumerates, Passes;
  }

  lemma PingSparesSelf(c: Core, ts: Timeouts, now: int, order: seq<NodeID>)
    requires Enumerates(order, OverdueSet(c, ts, now))
    ensures var c' := PingCheck(c, ts, now, order);
      Passes(c, c', c.local) && c'.own == c.own && c'.refutations == c.refutations && c'.out == c.out
  {
    hide RecordsOf, FailedRecords, Overdue;
    FailedRecordsOf(order, c.table, now, c.local);
    RecordsConcat(c.log, FailedRecords(order, c.table, now), c.local);
  }

  lemma GossipSparesSelf(c: Core, o: Options, ts: Timeouts, susp: bool, now: int, silent: seq<NodeID>, removed: seq<NodeID>)
    requires Enumerates(silent, SilentSet(c, ts, susp, now)) && Enumerates(removed, RemovableSet(c, ts, susp, now))
    ensures var c' := GossipCheck(c, o, ts, susp, now, silent, removed);
      Passes(c, c', c.local) && c'.own == c.own && c'.refutations == c.refutations && c'.out == c.out
  {
    hide RecordsOf, FailedRecords, ReportSilent, Removable, Silent;
    var x := c.local;
    var c1 := Swept(c, ts, susp, now);
    var c2 := ReportSilent(c1, o, silent, c.table, now);
    assert x !in silent && x !in removed;
    SilentPasses(c1, o, silent, c.table, now, x);
    ReportsOfOthers(c1, o, silent, c.table, now);
    assert Of(c1, x) == Of(c, x);
    FailedRecordsOf(removed, c.table, now, x);
    RecordsConcat(c2.log, FailedRecords(removed, c.table, now), x);
  }
}
