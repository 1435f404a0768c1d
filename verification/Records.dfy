/** The life of one record: how it comes back from Failed, what its two clocks mean, and what of it is logged. */
module Records {
  import opened Types
  import opened SuspicionSpec
  import opened UpdateLogSpec
  import opened DetectorSpec
  import opened PingAckSpec
  import opened GossipSpec
  import opened Cluster
  import opened Words
  import opened Timers
  import opened Verdicts

  predicate Known(v: About, st: Status) {
    v.rec.Some? && v.rec.value.status == st
  }

  // ----- coming back

  /** What brings a failed member back: any word of life at a higher incarnation. At the incarnation at which it
      failed a Ping or a Heartbeat of its own does not; an Ack and a rumour do, unless a suspicion at a higher
      incarnation is under way; so do an Alive message and a proxy's word. A Join always does, even from below. */
  predicate Revives(v: About, msg: Message, w: Word)
    requires v.rec.Some? && (w.Hearsay? || w.Listed? ==> w.k < |msg.members|)
  {
    var inc := v.rec.value.inc;
    match w
    case Direct => msg.inc > inc
    case Acknowledged => msg.inc > inc || (msg.inc == inc && !Barred(v, inc))
    case Hearsay(k) =>
      msg.members[k].status.Alive? && (msg.members[k].inc > inc || (msg.members[k].inc == inc && !Barred(v, inc)))
    case Listed(k) => msg.members[k].status.Alive? && msg.members[k].inc > inc
    case Relayed => msg.inc >= inc
    case Declared => msg.inc >= inc
    case Joining => true
    case _ => false
  }

  lemma HeardRevives(v: About, o: Options, susp: bool, msg: Message, x: NodeID, w: Word, now: int)
    requires Speaks(msg, x, w) && Known(v, Failed)
    ensures Known(Heard(v, o, susp, msg, x, w, now).about, Alive) <==> Revives(v, msg, w)
  {
    hide NoneAbout;
  }

  lemma TimersNeverRevive(cfg: Config, p: Proc, a: Action, x: NodeID)
    requires Routine(a) && !Known(Of(p.core, x), Alive)
    ensures !Known(Judged(cfg, p, a, x).about, Alive)
  {
  }

  /** A failed member is Alive after a step that settles something about it if and only if the step is a message
      that brings it back. */
  lemma Revival(cfg: Config, p: Proc, a: Action, x: NodeID, w: Word)
    requires Enabled(cfg, p, a) && Settles(a, x, w) && x != p.core.local
    requires x in p.core.table && p.core.table[x].status.Failed?
    ensures Known(Of(Act(cfg, p, a).core, x), Alive) <==> a.Receive? && Revives(Of(p.core, x), a.msg, w)
  {
    hide Enabled, Act, Heard, Judged, RecordsOf, Live, Revives, NoneAbout;
    Ruled(cfg, p, a, x, w);
    if a.Receive? {
      HeardRevives(Of(p.core, x), cfg.opts, a.susp, a.msg, x, w, a.now);
    } else {
      TimersNeverRevive(cfg, p, a, x);
    }
  }

  // ----- the clocks of a record

  /** The message vouches that a member on record lives: it comes from the member, or through a proxy, or it is
      news of life. Being listed in the answer to a join counts whatever the status. */
  predicate Vouches(v: About, msg: Message, w: Word)
    requires v.rec.Some? && (w.Hearsay? || w.Listed? ==> w.k < |msg.members|)
  {
    var r := v.rec.value;
    match w
    case Direct => msg.inc >= r.inc
    case Asking => msg.inc >= r.inc
    case Acknowledged => msg.inc >= r.inc
    case Relayed => msg.inc >= r.inc
    case Declared => msg.inc > r.inc || (msg.inc == r.inc && !r.status.Alive?)
    case Hearsay(k) =>
      var u := msg.members[k];
      u.status.Alive? && (u.inc > r.inc || (u.inc == r.inc && r.status.Suspected?))
    case Listed(k) => msg.members[k].inc > r.inc
    case Joining => true
    case _ => false
  }

  /** A rumour of a suspicion at a new incarnation, heard with suspicion off. */
  predicate Blind(v: About, a: Action, w: Word)
    requires v.rec.Some? && (a.Receive? && w.Hearsay? ==> w.k < |a.msg.members|)
  {
    && a.Receive? && w.Hearsay? && !a.susp
    && a.msg.members[w.k].status.Suspected? && a.msg.members[w.k].inc > v.rec.value.inc
  }

  /** Both clocks of a record after a step. The heartbeat moves when somebody vouches for the member. The suspicion
      clock starts when the member comes under suspicion, which is either logged or launches OnSuspect; it stops when
      the member is put down as Alive, and runs on when it has failed. */
  predicate Clocked(r: Rec, r': Rec, logged: bool, vouched: bool, launched: bool, blind: bool, now: int) {
    && r'.heartbeat == (if vouched then At(now) else r.heartbeat)
    && r'.since == (match r'.status
                    case Alive => if logged then Zero else r.since
                    case Suspected => if launched || (logged && !blind) then At(now) else r.since
                    case Failed => r.since)
  }

  /** A record of somebody new starts both clocks, the second if the member is suspected. */
  predicate Started(r: Rec, now: int) {
    r.heartbeat == At(now) && r.since == if r.status.Suspected? then At(now) else Zero
  }

  predicate Wound(v: About, j: Judgement, vouched: bool, blind: bool, now: int) {
    j.about.rec.Some? ==>
      match v.rec
      case None => Started(j.about.rec.value, now)
      case Some(r) =>
        Clocked(r, j.about.rec.value, j.logged != [], vouched, j.task.Some? && j.task.value.OnSuspect?, blind, now)
  }

  lemma HeardClocks(v: About, o: Options, a: Action, x: NodeID, w: Word)
    requires a.Receive? && Speaks(a.msg, x, w)
    ensures Wound(v, Heard(v, o, a.susp, a.msg, x, w, a.now), v.rec.Some? && Vouches(v, a.msg, w),
                  v.rec.Some? && Blind(v, a, w), a.now)
  {
    hide NoneAbout;
  }

  lemma JudgedClocks(cfg: Config, p: Proc, a: Action, x: NodeID)
    requires Routine(a)
    ensures Wound(Of(p.core, x), Judged(cfg, p, a, x), false, false, Clock(a))
  {
    hide Removable, Silent, Overdue, Due, Spent;
  }

  /** What a process has about `x` has changed from `v` to `v'`; `logged` and `launched` as above. */
  predicate Moved(v: About, v': About, logged: bool, launched: bool, vouched: bool, blind: bool, now: int) {
    v'.rec.Some? ==>
      if v.rec.Some? then Clocked(v.rec.value, v'.rec.value, logged, vouched, launched, blind, now)
      else Started(v'.rec.value, now)
  }

  function Kept(log: seq<Update>, a: Action): seq<Update> {
    if Expires(a).Some? then Live(log, Expires(a).value) else log
  }

  /** The log has gained a record about `x`. */
  predicate Gains(c: Core, c': Core, a: Action, x: NodeID) {
    RecordsOf(c'.log, x) != Kept(RecordsOf(c.log, x), a)
  }

  ghost predicate LaunchesSuspect(c: Core, c': Core, x: NodeID) {
    exists task: Task :: task.OnSuspect? && task.target == x && c'.tasks[task] != c.tasks[task]
  }

  /** The two clocks of every record, over every step that settles something about its member. */
  lemma RecordClocks(cfg: Config, p: Proc, a: Action, x: NodeID, w: Word)
    requires Enabled(cfg, p, a) && Settles(a, x, w) && x != p.core.local
    ensures var c, c' := p.core, Act(cfg, p, a).core;
      var v := Of(c, x);
      Moved(v, Of(c', x), Gains(c, c', a, x), LaunchesSuspect(c, c', x), v.rec.Some? && a.Receive? && Vouches(v, a.msg, w),
            v.rec.Some? && Blind(v, a, w), Clock(a))
  {
    hide Enabled, Act, Heard, Judged, Gains, LaunchesSuspect, Vouches, Wound, Moved, NoneAbout, RecordsOf, Live, Shaped;
    var c, c', v, j := p.core, Act(cfg, p, a).core, Of(p.core, x), Ruling(cfg, p, a, x, w);
    Ruled(cfg, p, a, x, w);
    if a.Receive? {
      HeardClocks(v, cfg.opts, a, x, w);
    } else {
      JudgedClocks(cfg, p, a, x);
    }
    RulingShape(cfg, p, a, x, w);
    LogGains(c, c', a, x, j);
    LaunchSeen(c, c', a, x, j);
    WoundMoved(v, j, v.rec.Some? && a.Receive? && Vouches(v, a.msg, w), v.rec.Some? && Blind(v, a, w), Clock(a));
  }

  lemma WoundMoved(v: About, j: Judgement, vouched: bool, blind: bool, now: int)
    requires Wound(v, j, vouched, blind, now)
    ensures Moved(v, j.about, j.logged != [], j.task.Some? && j.task.value.OnSuspect?, vouched, blind, now)
  {
  }

  /** A ruling logs at most one record, stamped now, and its callback is about `x`. */
  predicate Shaped(j: Judgement, x: NodeID, now: int) {
    && (j.task.Some? ==> j.task.value.target == x)
    && (j.logged == [] || (|j.logged| == 1 && j.logged[0].stamp == now))
  }

  lemma RulingShape(cfg: Config, p: Proc, a: Action, x: NodeID, w: Word)
    requires Settles(a, x, w)
    ensures Shaped(Ruling(cfg, p, a, x, w), x, Clock(a))
  {
    hide Heard, Judged, Shaped, NoneAbout;
    if a.Receive? {
      HeardShape(Of(p.core, x), cfg.opts, a.susp, a.msg, x, w, a.now);
    } else {
      JudgedShape(cfg, p, a, x);
    }
  }

  lemma HeardShape(v: About, o: Options, susp: bool, msg: Message, x: NodeID, w: Word, now: int)
    requires Speaks(msg, x, w)
    ensures Shaped(Heard(v, o, susp, msg, x, w, now), x, now)
  {
    hide NoneAbout, Old, Overrides, Overridden, Novel;
  }

  lemma JudgedShape(cfg: Config, p: Proc, a: Action, x: NodeID)
    requires Routine(a)
    ensures Shaped(Judged(cfg, p, a, x), x, Clock(a))
  {
    hide Removable, Silent, Overdue, Due, Spent, Old;
  }

  lemma LogGains(c: Core, c': Core, a: Action, x: NodeID, j: Judgement)
    requires Heeded(c, c', x, j, Expires(a)) && Shaped(j, x, Clock(a))
    ensures Gains(c, c', a, x) <==> j.logged != []
    ensures RecordsOf(c'.log, x) == Kept(RecordsOf(c.log, x), a) + j.logged
  {
    var log := RecordsOf(c.log, x);
    if j.logged == [] {
      assert log + [] == log && Kept(log, a) + [] == Kept(log, a);
    } else {
      assert j.logged == [j.logged[0]];
      LiveOne(log, j.logged[0], Clock(a));
      assert |Kept(log, a) + j.logged| == |Kept(log, a)| + 1;
    }
    hide RecordsOf, Live;
  }

  lemma LaunchSeen(c: Core, c': Core, a: Action, x: NodeID, j: Judgement)
    requires Heeded(c, c', x, j, Expires(a)) && Shaped(j, x, Clock(a))
    ensures LaunchesSuspect(c, c', x) <==> j.task.Some? && j.task.value.OnSuspect?
  {
    hide RecordsOf, Live;
    if j.task.Some? && j.task.value.OnSuspect? {
      assert c'.tasks[j.task.value] == c.tasks[j.task.value] + 1;
    }
  }

  // ----- what is logged

  /** What changes in silence: a suspicion that gets its quorum, unless the member was marked suspected on the way;
      a failure the manager confirms; a failed member taken back at the incarnation at which it failed by an Ack or a
      rumour; and a living member whose incarnation rises by a proxy's word. */
  predicate Unlogged(v: About, v': About, a: Action, w: Word)
    requires v.rec.Some? && v'.rec.Some? && (a.Receive? && w.Hearsay? ==> w.k < |a.msg.members|)
  {
    var r, r' := v.rec.value, v'.rec.value;
    || (a.ManagerTick? && r'.status.Failed?)
    || (a.Receive? && w.Suspicion? && r'.inc == r.inc && r'.status.Suspected?)
    || (a.Receive? && w.Hearsay? && r'.inc == r.inc && r'.status.Suspected?
        && !(r.status.Alive? && a.msg.members[w.k].inc == r.inc))
    || (a.Receive? && (w.Hearsay? || w.Acknowledged?) && r'.inc == r.inc && r.status.Failed? && r'.status.Alive?)
    || (a.Receive? && w.Relayed? && r.status.Alive? && r'.inc > r.inc)
  }

  /** A message that is logged even if it changes nothing. */
  predicate Repeats(v: About, a: Action, w: Word) {
    a.Receive? && (w.Joining? || (w.Confirmation? && v.rec.Some? && a.msg.inc >= v.rec.value.inc))
  }

  /** What the log should say about the change from `v` to `v'`. */
  function News(v: About, v': About, a: Action, x: NodeID, w: Word, now: int): seq<Update>
    requires a.Receive? ==> Speaks(a.msg, x, w)
  {
    match v'.rec
    case None => if v.rec.Some? then [Update(x, v.rec.value.inc, Failed, now)] else []
    case Some(r') =>
      var changed := v.rec.None? || v.rec.value.inc != r'.inc || v.rec.value.status != r'.status;
      if if changed then v.rec.Some? && Unlogged(v, v', a, w) else !Repeats(v, a, w) then []
      else [Update(x, r'.inc, r'.status, now)]
  }

  lemma HearsayNews(v: About, o: Options, a: Action, x: NodeID, w: Word)
    requires a.Receive? && Speaks(a.msg, x, w) && w.Hearsay?
    ensures var j := Rumour(v, o, a.susp, a.msg.members[w.k], a.msg.sender, a.now); j.logged == News(v, j.about, a, x, w, a.now)
  {
    hide NoneAbout, Earlier, Old;
  }

  lemma AccusedNews(v: About, o: Options, a: Action, x: NodeID, w: Word)
    requires a.Receive? && Speaks(a.msg, x, w) && w.Suspicion?
    ensures var j := Accused(Nothing(v), o, a.msg.sender, x, a.msg.inc, a.now); j.logged == News(v, j.about, a, x, w, a.now)
  {
    hide NoneAbout, Earlier, Old;
  }

  lemma HeardNews(v: About, o: Options, a: Action, x: NodeID, w: Word)
    requires a.Receive? && Speaks(a.msg, x, w)
    ensures var j := Heard(v, o, a.susp, a.msg, x, w, a.now); j.logged == News(v, j.about, a, x, w, a.now)
  {
    hide NoneAbout, Rumour, Accused;
    match w
    case Hearsay(_) => HearsayNews(v, o, a, x, w);
    case Suspicion => AccusedNews(v, o, a, x, w);
    case _ =>
  }

  /** A report adds no log record and does not move the incarnation; it leaves a Suspected record Suspected. */
  lemma ReportsUnlogged(j: Judgement, o: Options, reporter: NodeID, x: NodeID, inc: int, now: int)
    ensures var j' := Accused(j, o, reporter, x, inc, now);
      && j'.logged == j.logged
      && (j'.about.rec.Some? <==> j.about.rec.Some?)
      && (j.about.rec.Some? ==> j'.about.rec.value.inc == j.about.rec.value.inc)
      && (Known(j.about, Suspected) ==> Known(j'.about, Suspected))
  {
  }

  lemma JudgedNews(cfg: Config, p: Proc, a: Action, x: NodeID, w: Word)
    requires Routine(a)
    ensures var j := Judged(cfg, p, a, x); j.logged == News(Of(p.core, x), j.about, a, x, w, Clock(a))
  {
    hide Removable, Overdue, Due, Spent, Accused, SuspectThreshold, Elapsed;
    var v, now := Of(p.core, x), Clock(a);
    var r := if v.rec.Some? then v.rec.value else Rec(0, Suspected, At(now), At(now));
    var marked := Write(v, x, r.(status := Suspected, since := At(now)), now);
    ReportsUnlogged(marked, cfg.opts, p.core.local, x, r.inc, now);
    ReportsUnlogged(Nothing(v), cfg.opts, p.core.local, x, r.inc, now);
  }

  /** Over every step that settles something about `x`: the log gains exactly what has changed about `x`, at its new
      incarnation and status and stamped now, or Failed at its last incarnation when it is gone; except for the
      silent changes above. */
  lemma LogTellsChanges(cfg: Config, p: Proc, a: Action, x: NodeID, w: Word)
    requires Enabled(cfg, p, a) && Settles(a, x, w) && x != p.core.local
    ensures var c, c' := p.core, Act(cfg, p, a).core;
      RecordsOf(c'.log, x) == Kept(RecordsOf(c.log, x), a) + News(Of(c, x), Of(c', x), a, x, w, Clock(a))
  {
    hide Enabled, Act, Heard, Judged, RecordsOf, Live, NoneAbout, News, Shaped;
    var v := Of(p.core, x);
    Ruled(cfg, p, a, x, w);
    RulingShape(cfg, p, a, x, w);
    LogGains(p.core, Act(cfg, p, a).core, a, x, Ruling(cfg, p, a, x, w));
    if a.Receive? {
      HeardNews(v, cfg.opts, a, x, w);
    } else {
      JudgedNews(cfg, p, a, x, w);
    }
  }

  // ----- a rumour and the next check

  /** The check of either detector. */
  predicate Checks(b: Action) {
    b.GossipTick? || b.PingTick?
  }

  /** The suspicion clock has run for long enough. */
  predicate TimeUp(ts: Timeouts, b: Action, since: Instant)
    requires Checks(b)
  {
    if b.GossipTick? then Elapsed(b.now, since) >= ConfirmThreshold(ts) else Elapsed(b.now, since) > ts.suspicion
  }

  lemma ChecksSuspected(cfg: Config, p: Proc, b: Action, x: NodeID)
    requires Enabled(cfg, p, b) && Checks(b) && x != p.core.local
    requires x in p.core.table && p.core.table[x].status.Suspected?
    ensures x !in Act(cfg, p, b).core.table <==> TimeUp(cfg.ts, b, p.core.table[x].since)
  {
    hide Enabled, Act, ConfirmThreshold, Elapsed, RecordsOf;
    EveryTimerJudged(cfg, p, b, x);
  }

  /** A process hears a rumour that a member is suspected at a newer incarnation, and then checks. With suspicion on,
      the member has its time from the rumour on. With suspicion off its clock is not started; if nobody ever started
      it, the check removes the member whatever the time. */
  lemma RumourTimesRemoval(cfg: Config, p: Proc, a: Action, k: nat, b: Action, x: NodeID)
    requires Enabled(cfg, p, a) && a.Receive? && Speaks(a.msg, x, Hearsay(k)) && x != p.core.local
    requires x in p.core.table && a.msg.members[k].status.Suspected? && a.msg.members[k].inc > p.core.table[x].inc
    requires Enabled(cfg, Act(cfg, p, a), b) && Checks(b)
    ensures var table := Act(cfg, Act(cfg, p, a), b).core.table;
      && (a.susp ==> (x !in table <==> TimeUp(cfg.ts, b, At(a.now))))
      && (!a.susp ==> (x !in table <==> TimeUp(cfg.ts, b, p.core.table[x].since)))
    ensures p.core.table[x].since.Zero? && !a.susp && Max(cfg.ts.suspicion + 1, ConfirmThreshold(cfg.ts)) <= MAX_DURATION ==>
      x !in Act(cfg, Act(cfg, p, a), b).core.table
  {
    hide Enabled, Act, ConfirmThreshold, RecordsOf, NoneAbout;
    EveryWordHeard(cfg, p, a, x, Hearsay(k));
    ChecksSuspected(cfg, Act(cfg, p, a), b, x);
  }
}
