/** What the judgements of Words and Timers amount to. */
module Verdicts {
  import opened Types
  import opened SuspicionSpec
  import opened UpdateLogSpec
  import opened DetectorSpec
  import opened PingAckSpec
  import opened GossipSpec
  import opened CallbackSpec
  import opened Cluster
  import opened Refutation
  import opened Words
  import opened Timers
  import SuspicionInRuns

  // ----- when a suspicion starts

  /** firstReport is set exactly when the quorum is complete (see SuspicionHistory.EntriesLive). */
  predicate Punctual(e: Option<Entry>, o: Options) {
    e.Some? ==> (e.value.firstReport.At? <==> |e.value.reporters| >= o.requireReports)
  }

  /** In every reachable state it is. */
  lemma PunctualInRuns(cfg: Config, states: seq<State>, steps: seq<Step>, i: nat, x: NodeID)
    requires Run(cfg, states, steps) && cfg.opts.requireReports >= 1 && i in states[|steps|].procs
    ensures Punctual(Of(states[|steps|].procs[i].core, x).entry, cfg.opts)
  {
    hide Guard, After, SuspicionInRuns.Made, SuspicionInRuns.ApplyAll, SuspicionInRuns.AllSpoken, SuspicionInRuns.TipsAt,
      SuspicionInRuns.UnclearedSince;
    SuspicionInRuns.EntriesInRuns(cfg, states, steps, i);
    if x in states[|steps|].procs[i].core.entries {
      var b := SuspicionInRuns.EntriesSupported(cfg.opts, SuspicionInRuns.Made(cfg, states, steps, i), x);
    }
  }

  /** The suspicion has its quorum at `inc`. */
  predicate Quorate(e: Option<Entry>, o: Options, inc: int) {
    e.Some? && e.value.inc == inc && |e.value.reporters| >= o.requireReports
  }

  /** What the launch of an OnSuspect says of the member: everyone who has reported it at that incarnation is
      named, the clock of the suspicion starts, and a member in the table is suspected from now on. */
  predicate SuspectedBy(v: About, task: Task, o: Options, now: int) {
    && task.OnSuspect? && Quorate(v.entry, o, task.inc)
    && task.reporters == v.entry.value.reporters.Keys
    && v.entry.value.firstReport == At(now)
    && (v.rec.Some? ==> v.rec.value.status.Suspected? && v.rec.value.since == At(now))
  }

  /** A report that counts completes the quorum or does not; completing it is what launches OnSuspect. */
  lemma AccusationLaunches(j: Judgement, o: Options, reporter: NodeID, x: NodeID, inc: int, now: int)
    requires j.task.None? && o.requireReports >= 1 && Punctual(j.about.entry, o)
    ensures var j' := Accused(j, o, reporter, x, inc, now);
      && Punctual(j'.about.entry, o)
      && (j'.task.Some? <==> Quorate(j'.about.entry, o, inc) && !Quorate(j.about.entry, o, inc))
      && (j'.task.Some? ==>
            && SuspectedBy(j'.about, j'.task.value, o, now) && j'.task.value.target == x && j'.task.value.inc == inc
            && (j'.about.rec.Some? <==> j.about.rec.Some?))
      && (j'.task.None? ==> j'.about.rec == j.about.rec)
      && (!Old(j.about, inc) ==> j'.about.entry.Some? && j'.about.entry.value.inc == inc
                                 && j'.about.entry.value.reporters == Earlier(j.about, inc).reporters[reporter := now])
      && (Old(j.about, inc) ==> j' == j)
  {
    OneMore(Earlier(j.about, inc).reporters, reporter, now);
  }

  lemma OneMore(m: map<NodeID, int>, r: NodeID, t: int)
    ensures |m| <= |m[r := t]| && |m[r := t]| >= 1
  {
    assert m[r := t].Keys == m.Keys + {r};
    assert |m[r := t].Keys| == |m[r := t]| && |m.Keys| == |m|;
  }

  // ----- steps and their judgements

  /** A message that speaks about `x`, or a timer. */
  predicate Settles(a: Action, x: NodeID, w: Word) {
    (a.Receive? && Speaks(a.msg, x, w)) || Routine(a)
  }

  function Ruling(cfg: Config, p: Proc, a: Action, x: NodeID, w: Word): Judgement
    requires Settles(a, x, w)
  {
    if a.Receive? then Heard(Of(p.core, x), cfg.opts, a.susp, a.msg, x, w, a.now) else Judged(cfg, p, a, x)
  }

  /** The moment at which the log is expired, if the step does that. */
  function Expires(a: Action): Option<int> {
    if a.Begin? || (a.Receive? && a.msg.kind.IndirectPing?) then Some(a.now) else None
  }

  lemma Ruled(cfg: Config, p: Proc, a: Action, x: NodeID, w: Word)
    requires Enabled(cfg, p, a) && Settles(a, x, w) && x != p.core.local
    ensures Heeded(p.core, Act(cfg, p, a).core, x, Ruling(cfg, p, a, x, w), Expires(a))
  {
    hide Enabled, Act, Heeded, Heard, Judged, Speaks;
    if a.Receive? {
      EveryWordHeard(cfg, p, a, x, w);
    } else {
      EveryTimerJudged(cfg, p, a, x);
    }
  }

  function Clock(a: Action): int {
    if a.Acked? || a.ForwardAck? || a.ProxyTimeout? || a.Depart? then 0 else a.now
  }

  // ----- suspicions start in this way only

  lemma ClearedLaunchesNone(j: Judgement, x: NodeID, inc: int)
    requires j.task.None?
    ensures var j' := Cleared(j, x, inc);
      (j'.task.Some? ==> j'.task.value.OnClear?) && (j'.about.entry == j.about.entry || j'.about.entry.None?)
  {
  }

  /** What a ruling launches. */
  ghost predicate Starts(v: About, j: Judgement, o: Options, x: NodeID, now: int) {
    && (j.task.Some? ==> j.task.value.target == x)
    && (j.task.Some? && j.task.value.OnSuspect? ==>
          SuspectedBy(j.about, j.task.value, o, now) && !Quorate(v.entry, o, j.task.value.inc))
    && (forall i :: Quorate(j.about.entry, o, i) && !Quorate(v.entry, o, i) ==>
          j.task == Some(OnSuspect(x, i, j.about.entry.value.reporters.Keys)))
    && Punctual(j.about.entry, o)
  }

  lemma AccusationStarts(v: About, j: Judgement, o: Options, reporter: NodeID, x: NodeID, inc: int, now: int)
    requires j.task.None? && j.about.entry == v.entry && o.requireReports >= 1 && Punctual(v.entry, o)
    ensures Starts(v, Accused(j, o, reporter, x, inc, now), o, x, now)
  {
    hide Accused, Old, Earlier;
    AccusationLaunches(j, o, reporter, x, inc, now);
    AccusedElsewhere(j, o, reporter, x, inc, now);
  }

  lemma AccusedElsewhere(j: Judgement, o: Options, reporter: NodeID, x: NodeID, inc: int, now: int)
    requires j.task.None?
    ensures var j' := Accused(j, o, reporter, x, inc, now);
      j'.about.entry == j.about.entry || (j'.about.entry.Some? && j'.about.entry.value.inc == inc)
  {
  }

  /** The entry is gone or holds the same reports. */
  predicate SameReports(e: Option<Entry>, e': Option<Entry>) {
    match e'
    case None => true
    case Some(after) =>
      e.Some? && after.inc == e.value.inc && after.reporters == e.value.reporters && after.firstReport == e.value.firstReport
  }

  lemma QuietStarts(v: About, j: Judgement, o: Options, x: NodeID, now: int)
    requires j.task.Some? ==> j.task.value.target == x && !j.task.value.OnSuspect?
    requires Punctual(v.entry, o) && SameReports(v.entry, j.about.entry)
    ensures Starts(v, j, o, x, now)
  {
  }

  lemma HeardStarts(v: About, o: Options, susp: bool, msg: Message, x: NodeID, w: Word, now: int)
    requires Speaks(msg, x, w) && o.requireReports >= 1 && Punctual(v.entry, o)
    ensures Starts(v, Heard(v, o, susp, msg, x, w, now), o, x, now)
  {
    hide Accused, Starts, Quorate, SuspectedBy, Punctual, Overrides, Overridden, NoneAbout;
    var j := Heard(v, o, susp, msg, x, w, now);
    if w.Suspicion? && susp {
      AccusationStarts(v, Nothing(v), o, msg.sender, x, msg.inc, now);
    } else if w.Hearsay? && msg.members[w.k].status.Suspected? && susp && v.rec.Some? {
      var u, r := msg.members[w.k], v.rec.value;
      var j0 := if Overrides(u, r) then Write(v, u.id, Overridden(u, r, susp, now), now) else Nothing(v);
      AccusationStarts(v, j0, o, msg.sender, x, u.inc, now);
    } else {
      QuietStarts(v, j, o, x, now);
    }
  }

  lemma JudgedStarts(cfg: Config, p: Proc, a: Action, x: NodeID)
    requires Routine(a) && cfg.opts.requireReports >= 1 && Punctual(Of(p.core, x).entry, cfg.opts)
    ensures Starts(Of(p.core, x), Judged(cfg, p, a, x), cfg.opts, x, Clock(a))
  {
    hide Accused, Starts, Quorate, SuspectedBy, Punctual, Removable, Silent, Overdue, Due, Spent;
    var v, o, j, local := Of(p.core, x), cfg.opts, Judged(cfg, p, a, x), p.core.local;
    var given := (a.NoDirectAck? && a.helpers == [] && p.phase.Direct? && p.phase.target == x)
      || (a.NoIndirectAck? && p.phase.Indirect? && p.phase.target == x);
    if given && a.susp {
      GivenUpStarts(v, o, local, x, a.now);
    } else if a.GossipTick? {
      WatchedStarts(v, o, cfg.ts, a.susp, local, x, a.now);
    } else {
      QuietStarts(v, j, o, x, Clock(a));
    }
  }

  lemma GivenUpStarts(v: About, o: Options, local: NodeID, x: NodeID, now: int)
    requires o.requireReports >= 1 && Punctual(v.entry, o)
    ensures Starts(v, GivenUp(v, o, true, local, x, now), o, x, now)
  {
    hide Accused, Starts, Quorate, SuspectedBy, Punctual;
    if v.rec.Some? {
      var r := v.rec.value;
      AccusationStarts(v, Write(v, x, r.(status := Suspected, since := At(now)), now), o, local, x, r.inc, now);
      AccusationStarts(v, Nothing(v), o, local, x, r.inc, now);
    }
    AccusationStarts(v, Write(v, x, Rec(0, Suspected, At(now), At(now)), now), o, local, x, 0, now);
  }

  lemma WatchedStarts(v: About, o: Options, ts: Timeouts, susp: bool, local: NodeID, x: NodeID, now: int)
    requires o.requireReports >= 1 && Punctual(v.entry, o)
    ensures Starts(v, Watched(v, o, ts, susp, local, x, now), o, x, now)
  {
    hide Accused, Starts, Quorate, SuspectedBy, Punctual, Removable, Silent;
    if v.rec.Some? {
      var r := v.rec.value;
      AccusationStarts(v, Write(v, x, r.(status := Suspected, since := At(now)), now), o, local, x, r.inc, now);
    }
    if v.rec.None? || Removable(v.rec.value, ts, susp, now) || !susp || !Silent(v.rec.value, ts, now) {
      QuietStarts(v, Watched(v, o, ts, susp, local, x, now), o, x, now);
    }
  }

  /** Every step that settles something about `x`: an OnSuspect is launched exactly when the suspicion of `x` gets
      its quorum at an incarnation, once, naming everyone who reported it; and then a member in the table is
      Suspected as of now, whether the report came in a Suspect message, piggybacked, from the node's own check or
      from a probe it gave up. */
  lemma SuspicionStarts(cfg: Config, p: Proc, a: Action, x: NodeID, w: Word)
    requires Enabled(cfg, p, a) && Settles(a, x, w) && x != p.core.local
    requires cfg.opts.requireReports >= 1 && Punctual(Of(p.core, x).entry, cfg.opts)
    ensures var c, c', o := p.core, Act(cfg, p, a).core, cfg.opts;
      && Punctual(Of(c', x).entry, o)
      && (forall task: Task :: task.OnSuspect? && task.target == x && c'.tasks[task] != c.tasks[task] ==>
            && c'.tasks[task] == c.tasks[task] + 1
            && SuspectedBy(Of(c', x), task, o, Clock(a)) && !Quorate(Of(c, x).entry, o, task.inc))
      && (forall i :: Quorate(Of(c', x).entry, o, i) && !Quorate(Of(c, x).entry, o, i) ==>
            var task := OnSuspect(x, i, c'.entries[x].reporters.Keys);
            c'.tasks[task] == c.tasks[task] + 1)
  {
    hide Enabled, Act, Heard, Judged, Speaks, RecordsOf, Live, SuspectedBy, Punctual;
    Ruled(cfg, p, a, x, w);
    if a.Receive? {
      HeardStarts(Of(p.core, x), cfg.opts, a.susp, a.msg, x, w, a.now);
    } else {
      JudgedStarts(cfg, p, a, x);
    }
  }

  // ----- probes given up

  /** The step gives up the probe of `x`. */
  predicate GivesUp(p: Proc, a: Action, x: NodeID) {
    || (a.NoDirectAck? && a.helpers == [] && p.phase.Direct? && p.phase.target == x)
    || (a.NoIndirectAck? && p.phase.Indirect? && p.phase.target == x)
  }

  /** With suspicion off, giving up a probe removes its target: that member alone, with exactly one Failed record at
      its last incarnation in the log, or none if it was unknown; nothing is left to the manager. */
  lemma UnreachableRemoved(cfg: Config, p: Proc, a: Action, x: NodeID)
    requires Enabled(cfg, p, a) && GivesUp(p, a, x) && !a.susp
    ensures var c, p' := p.core, Act(cfg, p, a);
      && p'.core.table == c.table - {x} && p'.core.entries == c.entries && p'.core.tasks == c.tasks
      && p'.core.log == c.log + (if x in c.table then [Update(x, c.table[x].inc, Failed, a.now)] else [])
      && p'.phase.Idle? && p'.probes == p.probes - {p.phase.seqNum}
  {
    hide Handle, Selection, Check, GossipCheck, Live;
  }

  /** With suspicion on, giving up a probe leaves its target in the table as Suspected, at the incarnation it had
      (0 if it was unknown), and a suspicion under way at that incarnation, which this node has reported, or above
      it; unless the member was Suspected already, that is logged, and the suspicion is dated now. */
  lemma UnreachableSuspected(cfg: Config, p: Proc, a: Action, x: NodeID)
    requires Enabled(cfg, p, a) && GivesUp(p, a, x) && a.susp && x != p.core.local
    ensures var c, p' := p.core, Act(cfg, p, a);
      var c' := p'.core;
      && x in c'.table && c'.table[x].status.Suspected? && c'.table[x].inc == RecordedInc(c.table, x)
      && x in c'.entries && c'.entries[x].inc >= c'.table[x].inc
      && (c'.entries[x].inc == c'.table[x].inc ==> c.local in c'.entries[x].reporters && c'.entries[x].reporters[c.local] == a.now)
      && (x in c.table && c.table[x].status.Suspected? ==> RecordsOf(c'.log, x) == RecordsOf(c.log, x))
      && (!(x in c.table && c.table[x].status.Suspected?) ==>
            && RecordsOf(c'.log, x) == RecordsOf(c.log, x) + [Update(x, c'.table[x].inc, Suspected, a.now)]
            && c'.table[x].since == At(a.now))
      && p'.phase.Idle? && p'.probes == p.probes - {p.phase.seqNum}
  {
    hide Act, Enabled, RecordsOf, GivenUp, Live;
    EveryTimerJudged(cfg, p, a, x);
    GivenUpSuspects(Of(p.core, x), cfg.opts, p.core.local, x, a.now);
    ProbeForgotten(cfg, p, a, x);
  }

  lemma ProbeForgotten(cfg: Config, p: Proc, a: Action, x: NodeID)
    requires Enabled(cfg, p, a) && GivesUp(p, a, x)
    ensures var p' := Act(cfg, p, a); p'.phase.Idle? && p'.probes == p.probes - {p.phase.seqNum}
  {
    hide Handle, Selection, Check, GossipCheck, Live, DeclareSuspicion;
  }

  lemma GivenUpSuspects(v: About, o: Options, local: NodeID, x: NodeID, now: int)
    ensures var j := GivenUp(v, o, true, local, x, now);
      && j.about.rec.Some? && j.about.entry.Some?
      && var r, e := j.about.rec.value, j.about.entry.value;
      && r.status.Suspected? && r.inc == (if v.rec.Some? then v.rec.value.inc else 0)
      && e.inc >= r.inc && (e.inc == r.inc ==> local in e.reporters && e.reporters[local] == now)
      && if v.rec.Some? && v.rec.value.status.Suspected? then j.logged == []
         else j.logged == [Update(x, r.inc, Suspected, now)] && r.since == At(now)
  {
  }
}
