/** The removal theorems said of the steps of a process: a step that does not concern a member, its callbacks
    run at once, is an Elsewhere beat of Removal and another moment of PingRemoval. */
module SilentHistory {
  import opened Types
  import opened SuspicionSpec
  import opened UpdateLogSpec
  import opened DetectorSpec
  import opened PingAckSpec
  import opened GossipSpec
  import opened CallbackSpec
  import opened Cluster
  import opened Removal
  import opened PingRemoval

  /** Nobody tells the process anything about `x` in this step, and it gives up no probe of `x`. */
  predicate Ignores(p: Proc, a: Action, x: NodeID) {
    match a
    case Receive(msg, _, _, _, _, _) =>
      && msg.sender != x && msg.target != x && (forall u :: u in msg.members ==> u.id != x)
      && (msg.kind.Join? ==> !Displaces(msg.sender, x))
    case NoDirectAck(_, helpers, _) => helpers == [] && p.phase.Direct? ==> p.phase.target != x
    case NoIndirectAck(_, _) => p.phase.Indirect? ==> p.phase.target != x
    case Reidentify(id, _, _) => id != x
    case _ => true
  }

  // ----- what such a step leaves alone

  /** `x` is as it was, and no new callback is about it. */
  predicate Spares(c: Core, c': Core, x: NodeID) {
    && c'.local == c.local && SameMember(c, c', x)
    && forall task :: task in c'.tasks && task.target == x ==> task in c.tasks
  }

  lemma SparesTwice(c: Core, c1: Core, c2: Core, x: NodeID)
    requires Spares(c, c1, x) && Spares(c1, c2, x)
    ensures Spares(c, c2, x)
  {
  }

  lemma SuspicionSpares(c: Core, o: Options, reporter: NodeID, id: NodeID, inc: int, now: int, x: NodeID)
    requires id != x
    ensures Spares(c, ProcessSuspicion(c, o, reporter, id, inc, now), x)
  {
    hide ProcessSuspicion;
    ProcessSuspicionOn(c, o, reporter, id, inc, now, x);
  }

  lemma ClearSpares(c: Core, id: NodeID, inc: int, x: NodeID)
    requires id != x
    ensures Spares(c, ClearSuspect(c, id, inc), x)
  {
  }

  lemma EscalateSpares(c: Core, o: Options, susp: bool, u: Update, reporter: NodeID, now: int, x: NodeID)
    requires u.id != x
    ensures Spares(c, Escalate(c, o, susp, u, reporter, now), x)
  {
    hide ProcessSuspicion, ClearSuspect;
    SuspicionSpares(c, o, reporter, u.id, u.inc, now, x);
    ClearSpares(c, u.id, u.inc, x);
  }

  lemma UpdateSpares(c: Core, o: Options, susp: bool, u: Update, reporter: NodeID, now: int, x: NodeID)
    requires u.id != x
    ensures Spares(c, ProcessUpdate(c, o, susp, u, reporter, now), x)
  {
    hide Escalate;
    EscalateSpares(c, o, susp, u, reporter, now, x);
    if u.id in c.table {
      EscalateSpares(MergeRecord(c, susp, u, now), o, susp, u, reporter, now, x);
    }
  }

  lemma {:induction false} UpdatesSpare(c: Core, o: Options, susp: bool, us: seq<Update>, reporter: NodeID, now: int, x: NodeID)
    requires forall u :: u in us ==> u.id != x
    ensures Spares(c, ProcessUpdates(c, o, susp, us, reporter, now), x)
  {
    hide ProcessUpdate;
    if us != [] {
      var n := |us| - 1;
      UpdatesSpare(c, o, susp, us[..n], reporter, now, x);
      UpdateSpares(ProcessUpdates(c, o, susp, us[..n], reporter, now), o, susp, us[n], reporter, now, x);
    }
  }

  lemma {:induction false} AbsorbAllSpares(c: Core, us: seq<Update>, now: int, x: NodeID)
    requires forall u :: u in us ==> u.id != x
    ensures Spares(c, AbsorbAll(c, us, now), x)
  {
    if us != [] {
      AbsorbAllSpares(c, us[..|us| - 1], now, x);
    }
  }

  lemma {:induction false} ClearAllSpares(c: Core, us: seq<Update>, x: NodeID)
    requires forall u :: u in us ==> u.id != x
    ensures Spares(c, ClearAll(c, us), x)
  {
    hide ClearSuspect;
    if us != [] {
      var n := |us| - 1;
      ClearAllSpares(c, us[..n], x);
      ClearSpares(ClearAll(c, us[..n]), us[n].id, us[n].inc, x);
    }
  }

  lemma {:induction false} ClearsWithin(c: Core, us: seq<Update>, now: int)
    ensures forall u :: u in Clears(c, us, now) ==> u in us
  {
    hide AbsorbAll;
    if us != [] {
      ClearsWithin(c, us[..|us| - 1], now);
    }
  }

  lemma JoinResponseSpares(c: Core, us: seq<Update>, now: int, x: NodeID)
    requires forall u :: u in us ==> u.id != x
    ensures Spares(c, HandleJoinResponse(c, us, now), x)
  {
    hide AbsorbAll, ClearAll, Clears;
    AbsorbAllSpares(c, us, now, x);
    ClearsWithin(c, us, now);
    ClearAllSpares(AbsorbAll(c, us, now), Clears(c, us, now), x);
  }

  lemma SignsSpare(c: Core, sender: NodeID, inc: int, now: int, x: NodeID)
    requires sender != x
    ensures Spares(c, Touch(c, sender, inc, now), x) && Spares(c, Refresh(c, sender, inc, now), x)
  {
  }

  lemma ReportedSpares(c: Core, target: NodeID, inc: int, now: int, x: NodeID)
    requires target != x
    ensures Spares(c, PingAckSpec.Reported(c, target, inc, now), x)
    ensures Spares(c, HandleConfirm(c, target, inc, now), x)
  {
  }

  lemma LeaveSpares(c: Core, sender: NodeID, now: int, x: NodeID)
    requires sender != x
    ensures Spares(c, HandleLeave(c, sender, now), x)
  {
  }

  lemma AliveSpares(c: Core, sender: NodeID, inc: int, now: int, x: NodeID)
    requires sender != x
    ensures Spares(c, HandleAlive(c, sender, inc, now), x)
  {
    hide ClearSuspect;
    ClearSpares(c, sender, inc, x);
    ClearSpares(PutLogged(c, sender, Rec(inc, Alive, At(now), Zero), now), sender, inc, x);
  }

  lemma JoinSpares(c: Core, sender: NodeID, inc: int, now: int, displaced: seq<NodeID>, listing: seq<NodeID>, x: NodeID)
    requires forall k :: k in listing ==> k in JoinedTable(c, sender, inc, now)
    requires sender != x && !Displaces(sender, x)
    ensures Spares(c, HandleJoin(c, sender, inc, now, displaced, listing), x)
  {
    hide Listing, FailedRecords, Displaces;
  }

  lemma DeclareSpares(c: Core, o: Options, susp: bool, id: NodeID, now: int, x: NodeID)
    requires id != x
    ensures Spares(c, DeclareSuspicion(c, o, susp, id, now), x)
  {
    hide ProcessSuspicion;
    if susp {
      var c1 :=
        if id !in c.table then PutLogged(c, id, Rec(0, Suspected, At(now), At(now)), now)
        else if !c.table[id].status.Suspected? then
          PutLogged(c, id, c.table[id].(status := Suspected, since := At(now)), now)
        else c;
      SuspicionSpares(c1, o, c.local, id, c1.table[id].inc, now, x);
    }
  }

  lemma MessageSpares(cfg: Config, p: Proc, a: Action, x: NodeID)
    requires a.Receive? && ReceiveEnabled(p, a) && Ignores(p, a, x)
    ensures Spares(p.core, Handle(cfg, p, a).core, x)
  {
    hide ProcessUpdates, ProcessSuspicion, HandleJoinResponse, Touch, ClearSuspect, HandleAlive, Refresh, HandleJoin,
      PingAckSpec.Reported, HandleConfirm, HandleLeave, Live, Notify, SignalDirect, SignalIndirect, Displaces, Displaced;
    var c, msg, now, o := p.core, a.msg, a.now, cfg.opts;
    SignsSpare(c, msg.sender, msg.inc, now, x);
    ReportedSpares(c, msg.target, msg.inc, now, x);
    LeaveSpares(c, msg.sender, now, x);
    match msg.kind
    case Heartbeat => UpdatesSpare(Touch(c, msg.sender, msg.inc, now), o, a.susp, msg.members, msg.sender, now, x);
    case Ping =>
      var acked := Send(c, Message(Ack, c.local, msg.sender, c.own, msg.seqNum, []), msg.sender.Address());
      SignsSpare(acked, msg.sender, msg.inc, now, x);
      UpdatesSpare(Touch(acked, msg.sender, msg.inc, now), o, a.susp, msg.members, msg.sender, now, x);
    case IndirectPing => UpdatesSpare(Refresh(c, msg.sender, msg.inc, now), o, a.susp, msg.members, msg.sender, now, x);
    case Ack => ClearSpares(Touch(c, msg.sender, msg.inc, now), msg.sender, msg.inc, x);
    case IndirectAck => ClearSpares(PingAckSpec.Reported(c, msg.target, msg.inc, now), msg.target, msg.inc, x);
    case Join => JoinSpares(c, msg.sender, msg.inc, now, a.displaced, a.listing, x);
    case JoinResponse => JoinResponseSpares(c, msg.members, now, x);
    case AliveMsg => AliveSpares(c, msg.sender, msg.inc, now, x);
    case Suspect => SuspicionSpares(c, o, msg.sender, msg.target, msg.inc, now, x);
    case _ =>
  }

  predicate Ticks(a: Action) {
    a.ManagerTick? || a.PingTick? || a.GossipTick?
  }

  /** A step that does not concern `x` leaves its record and its entry as they were and launches no callback
      about it. */
  lemma ActSpares(cfg: Config, p: Proc, a: Action, x: NodeID)
    requires Enabled(cfg, p, a) && !a.Callback? && !Ticks(a) && Ignores(p, a, x) && p.core.local != x
    ensures var c, c' := p.core, Act(cfg, p, a).core;
      SameMember(c, c', x) && c'.local != x && forall task :: task in c'.tasks && task.target == x ==> task in c.tasks
  {
    hide Handle, DeclareSuspicion, ReceiveEnabled, Live, Selection, Listing, Broadcast, Prefix, PingRequests, GossipCheck,
      Check, PingCheck, RunTask;
    match a
    case Receive(_, _, _, _, _, _) =>
      ReceiveActs(cfg, p, a);
      MessageSpares(cfg, p, a, x);
    case NoDirectAck(susp, helpers, now) =>
      if helpers == [] {
        DeclareSpares(p.core, cfg.opts, susp, p.phase.target, now, x);
      }
    case NoIndirectAck(susp, now) => DeclareSpares(p.core, cfg.opts, susp, p.phase.target, now, x);
    case _ =>
  }

  // ----- steps with their callbacks

  /** A step, not itself a callback, at time `t`, and the callbacks it launches in the order in which they run. */
  datatype Turn = Turn(a: Action, t: int, order: seq<Task>)

  /** The time is the one the step reads, when it reads one. */
  predicate TakenAt(a: Action, t: int) {
    !a.Callback? && (a.Acked? || a.ForwardAck? || a.ProxyTimeout? || a.Depart? || a.now == t)
  }

  /** `acts` one after the other, if all of them are possible. */
  ghost function Performed(cfg: Config, p: Proc, acts: seq<Action>): Option<Proc> {
    if acts == [] then Some(p)
    else
      var n := |acts| - 1;
      match Performed(cfg, p, acts[..n])
      case None => None
      case Some(q) => if Enabled(cfg, q, acts[n]) then Some(Act(cfg, q, acts[n])) else None
  }

  function Callbacks(order: seq<Task>, t: int): seq<Action> {
    seq(|order|, i requires 0 <= i < |order| => Callback(order[i], t))
  }

  /** The turn takes `p` to `p'` and leaves no callback waiting. */
  ghost predicate Taken(cfg: Config, p: Proc, turn: Turn, p': Proc) {
    && TakenAt(turn.a, turn.t) && Enabled(cfg, p, turn.a)
    && Performed(cfg, Act(cfg, p, turn.a), Callbacks(turn.order, turn.t)) == Some(p')
    && p'.core.tasks == multiset{}
  }

  /** The callbacks of a turn are the ones Removal runs. */
  lemma {:induction false} CallbacksRun(cfg: Config, p: Proc, order: seq<Task>, t: int, p': Proc)
    requires Performed(cfg, p, Callbacks(order, t)) == Some(p')
    ensures p' == p.(core := RunAll(p.core, order, t))
    ensures p.core.tasks == multiset(order) + p'.core.tasks && p'.core.local == p.core.local
    decreases |order|
  {
    hide Act, Enabled, RunTask;
    if order != [] {
      var n := |order| - 1;
      assert Callbacks(order, t)[..n] == Callbacks(order[..n], t);
      assert order == order[..n] + [order[n]];
      var q := Performed(cfg, p, Callbacks(order[..n], t)).value;
      CallbacksRun(cfg, p, order[..n], t, q);
      CallbackActs(cfg, q, Callback(order[n], t));
      CallbackTakes(q.core, order[n], t);
    }
  }

  lemma CallbackTakes(c: Core, task: Task, t: int)
    requires task in c.tasks
    ensures c.tasks == multiset{task} + RunTask(c, task, t).tasks && RunTask(c, task, t).local == c.local
  {
    hide Broadcast;
  }

  /** The beat a turn is for the member `x`. */
  function BeatOf(turn: Turn): Beat {
    match turn.a
    case ManagerTick(_) => Beat.Manager(turn.t, turn.order)
    case GossipTick(_, _, silent, removed) => Checker(turn.t, silent, removed, turn.order)
    case _ => Elsewhere(turn.t)
  }

  /** The moment it is for the member in ping/ack mode. */
  function MomentOf(turn: Turn): Moment {
    match turn.a
    case ManagerTick(_) => Managed(turn.t, turn.order)
    case PingTick(_, order) => Sweep(turn.t, order)
    case _ => Other(turn.t)
  }

  /** Callbacks about others do not touch `x`. */
  lemma OthersRun(c: Core, order: seq<Task>, t: int, x: NodeID)
    requires forall task :: task in order ==> task.target != x
    ensures SameMember(c, RunAll(c, order, t), x) && RunAll(c, order, t).local == c.local
  {
    hide RunAll;
    if x in c.table {
      RunAllOn(c, order, t, x);
    } else {
      RunAllOff(c, order, t, x);
    }
  }

  /** A turn that does not concern `x` and is no tick. */
  lemma TurnElsewhere(cfg: Config, p: Proc, turn: Turn, p': Proc, x: NodeID)
    requires Taken(cfg, p, turn, p') && p.core.tasks == multiset{} && p.core.local != x
    requires Ignores(p, turn.a, x) && !Ticks(turn.a)
    ensures p'.core.local != x && SameMember(p.core, p'.core, x)
  {
    hide Act, Enabled, Performed, RunAll, Ignores;
    var p1 := Act(cfg, p, turn.a);
    ActSpares(cfg, p, turn.a, x);
    CallbacksRun(cfg, p1, turn.order, turn.t, p');
    forall task | task in turn.order ensures task.target != x {
      assert task in multiset(turn.order);
    }
    OthersRun(p1.core, turn.order, turn.t, x);
  }

  /** Every turn in which nobody says anything about `x` is, for a process that runs the gossip detector, one of
      Removal's beats... */
  lemma TurnBeats(cfg: Config, susp: bool, p: Proc, turn: Turn, p': Proc, x: NodeID)
    requires Taken(cfg, p, turn, p') && p.core.tasks == multiset{} && p.core.local != x && Ignores(p, turn.a, x)
    requires !turn.a.PingTick? && (turn.a.GossipTick? ==> turn.a.susp == susp)
    ensures Beats(cfg.opts, cfg.ts, susp, x, p.core, BeatOf(turn), p'.core)
  {
    hide Performed, RunAll, Ignores, Handle, DeclareSuspicion, GossipCheck, Check, Broadcast, Live, Listing, Selection,
      SameMember;
    CallbacksRun(cfg, Act(cfg, p, turn.a), turn.order, turn.t, p');
    if !Ticks(turn.a) {
      TurnElsewhere(cfg, p, turn, p', x);
    }
  }

  lemma NoCallbacks(c: Core, ts: Timeouts, now: int, order: seq<NodeID>)
    ensures PingCheck(c, ts, now, order).tasks == c.tasks
  {
  }

  lemma NoneToRun(c: Core, now: int)
    ensures RunAll(c, [], now) == c
  {
  }

  /** ... and for one that runs the ping/ack detector one of PingRemoval's moments. */
  lemma TurnPasses(cfg: Config, p: Proc, turn: Turn, p': Proc, x: NodeID)
    requires Taken(cfg, p, turn, p') && p.core.tasks == multiset{} && p.core.local != x && Ignores(p, turn.a, x)
    requires !turn.a.GossipTick?
    ensures Passes(cfg.opts, cfg.ts, x, p.core, MomentOf(turn), p'.core)
  {
    hide Performed, RunAll, Ignores, Handle, DeclareSuspicion, Check, Broadcast, Live, Listing, Selection, SameMember, PingCheck;
    CallbacksRun(cfg, Act(cfg, p, turn.a), turn.order, turn.t, p');
    if turn.a.PingTick? {
      var c1 := PingCheck(p.core, cfg.ts, turn.t, turn.a.order);
      NoCallbacks(p.core, cfg.ts, turn.t, turn.a.order);
      assert |multiset(turn.order)| == |turn.order|;
      NoneToRun(c1, turn.t);
    } else if !Ticks(turn.a) {
      TurnElsewhere(cfg, p, turn, p', x);
    }
  }

  // ----- histories

  /** The turns of a process, on a clock that does not go back, in which nobody tells it anything about `x`. */
  ghost predicate SilentTurns(cfg: Config, x: NodeID, ps: seq<Proc>, turns: seq<Turn>) {
    && |ps| == |turns| + 1
    && ps[0].core.tasks == multiset{} && ps[0].core.local != x
    && (forall j :: 0 <= j < |turns| ==> Taken(cfg, ps[j], turns[j], ps[j + 1]) && Ignores(ps[j], turns[j].a, x))
    && (forall j, k :: 0 <= j <= k < |turns| ==> turns[j].t <= turns[k].t)
  }

  /** The process runs the gossip detector, with suspicion enabled or not throughout. */
  predicate Gossips(turns: seq<Turn>, susp: bool) {
    forall j :: 0 <= j < |turns| ==> !turns[j].a.PingTick? && (turns[j].a.GossipTick? ==> turns[j].a.susp == susp)
  }

  predicate Pings(turns: seq<Turn>) {
    forall j :: 0 <= j < |turns| ==> !turns[j].a.GossipTick?
  }

  function Cores(ps: seq<Proc>): seq<Core> {
    seq(|ps|, j requires 0 <= j < |ps| => ps[j].core)
  }

  function BeatsOf(turns: seq<Turn>): seq<Beat> {
    seq(|turns|, j requires 0 <= j < |turns| => BeatOf(turns[j]))
  }

  function MomentsOf(turns: seq<Turn>): seq<Moment> {
    seq(|turns|, j requires 0 <= j < |turns| => MomentOf(turns[j]))
  }

  lemma LocalStays(cfg: Config, p: Proc, turn: Turn, p': Proc, x: NodeID)
    requires Taken(cfg, p, turn, p') && p.core.tasks == multiset{} && p.core.local != x && Ignores(p, turn.a, x)
    ensures p'.core.local != x
  {
    hide Performed, RunAll, Ignores, Handle, DeclareSuspicion, ReportSilent, CheckedEntries, ConfirmTasks, Broadcast, Live,
      Listing, Selection, SameMember;
    if Ticks(turn.a) {
      CallbacksRun(cfg, Act(cfg, p, turn.a), turn.order, turn.t, p');
      if turn.a.GossipTick? {
        CheckLocal(p.core, cfg.opts, cfg.ts, turn.a.susp, turn.t, turn.a.silent, turn.a.removed);
      }
    } else {
      TurnElsewhere(cfg, p, turn, p', x);
    }
  }

  lemma CheckLocal(c: Core, o: Options, ts: Timeouts, susp: bool, now: int, silent: seq<NodeID>, removed: seq<NodeID>)
    ensures GossipCheck(c, o, ts, susp, now, silent, removed).local == c.local
  {
    hide ReportSilent;
    SilentLocal(Swept(c, ts, susp, now), o, silent, c.table, now);
  }

  lemma {:induction false} SilentLocal(c: Core, o: Options, ids: seq<NodeID>, table: map<NodeID, Rec>, now: int)
    ensures ReportSilent(c, o, ids, table, now).local == c.local
  {
    hide ProcessSuspicion;
    if ids != [] {
      var n := |ids| - 1;
      var inc := RecordedInc(table, ids[n]);
      var c1 := Append(ReportSilent(c, o, ids[..n], table, now), Update(ids[n], inc, Suspected, now));
      SilentLocal(c, o, ids[..n], table, now);
      ProcessSuspicionOn(c1, o, c.local, ids[n], inc, now, c.local);
    }
  }

  lemma {:induction false} BetweenTurns(cfg: Config, x: NodeID, ps: seq<Proc>, turns: seq<Turn>, n: nat)
    requires SilentTurns(cfg, x, ps, turns) && n < |ps|
    ensures ps[n].core.tasks == multiset{} && ps[n].core.local != x
    decreases n
  {
    hide Performed, Ignores, Enabled, Act;
    if n > 0 {
      BetweenTurns(cfg, x, ps, turns, n - 1);
      LocalStays(cfg, ps[n - 1], turns[n - 1], ps[n], x);
    }
  }

  /** Such a history of a gossiping process is a Silence of Removal... */
  lemma HistoryIsSilence(cfg: Config, susp: bool, x: NodeID, ps: seq<Proc>, turns: seq<Turn>)
    requires SilentTurns(cfg, x, ps, turns) && Gossips(turns, susp)
    ensures Silence(cfg.opts, cfg.ts, susp, x, Cores(ps), BeatsOf(turns))
  {
    hide Taken, Ignores, Beats;
    forall j | 0 <= j < |turns|
      ensures Beats(cfg.opts, cfg.ts, susp, x, Cores(ps)[j], BeatsOf(turns)[j], Cores(ps)[j + 1])
    {
      BetweenTurns(cfg, x, ps, turns, j);
      TurnBeats(cfg, susp, ps[j], turns[j], ps[j + 1], x);
    }
    BeatTimes(turns);
  }

  lemma BeatTimes(turns: seq<Turn>)
    ensures forall j :: 0 <= j < |turns| ==> BeatsOf(turns)[j].t == turns[j].t
    ensures forall j :: 0 <= j < |turns| ==> MomentsOf(turns)[j].t == turns[j].t
    ensures forall j :: 0 <= j < |turns| ==> (BeatsOf(turns)[j].Checker? <==> turns[j].a.GossipTick?)
  {
  }

  /** ... and one of a pinging process a Quiet of PingRemoval. */
  lemma HistoryIsQuiet(cfg: Config, x: NodeID, ps: seq<Proc>, turns: seq<Turn>)
    requires SilentTurns(cfg, x, ps, turns) && Pings(turns)
    ensures Quiet(cfg.opts, cfg.ts, x, Cores(ps), MomentsOf(turns))
  {
    hide Taken, Ignores, Passes;
    forall j | 0 <= j < |turns|
      ensures Passes(cfg.opts, cfg.ts, x, Cores(ps)[j], MomentsOf(turns)[j], Cores(ps)[j + 1])
    {
      BetweenTurns(cfg, x, ps, turns, j);
      TurnPasses(cfg, ps[j], turns[j], ps[j + 1], x);
    }
    BeatTimes(turns);
  }

  /** A process that runs the gossip detector with suspicion on, whatever else it does, removes a member it last
      heard of at `h` and is told nothing about, at one of its checker ticks no later than h+2F+Cleanup+2D. */
  lemma ProcessRemoves(cfg: Config, x: NodeID, ps: seq<Proc>, turns: seq<Turn>, h: int, d: nat) returns (j: nat)
    requires SilentTurns(cfg, x, ps, turns) && Gossips(turns, true) && cfg.ts.cleanup > 0
    requires var table := ps[0].core.table; x in table && table[x].status.Alive? && table[x].heartbeat == At(h)
    requires Dense(BeatsOf(turns), h, d) && turns != []
    requires h + 2 * SuspectThreshold(cfg.ts) + cfg.ts.cleanup + 2 * d <= turns[|turns| - 1].t
    ensures j < |turns| && turns[j].a.GossipTick?
    ensures turns[j].t <= h + 2 * SuspectThreshold(cfg.ts) + cfg.ts.cleanup + 2 * d
    ensures x in ps[j].core.table && x !in ps[j + 1].core.table
  {
    hide Taken, Ignores, Silence, BeatsOf, Dense, SuspectThreshold, Gossips;
    HistoryIsSilence(cfg, true, x, ps, turns);
    BeatTimes(turns);
    SameLength(turns);
    j := RemovedEventually(cfg.opts, cfg.ts, x, Cores(ps), BeatsOf(turns), h, d);
    assert x in Cores(ps)[j].table;
  }

  lemma SameLength(turns: seq<Turn>)
    ensures |BeatsOf(turns)| == |turns| == |MomentsOf(turns)|
  {
  }

  /** With suspicion off it does so between h+F and h+F+D. */
  lemma ProcessRemovesOnTime(cfg: Config, x: NodeID, ps: seq<Proc>, turns: seq<Turn>, h: int, d: nat) returns (j: nat)
    requires SilentTurns(cfg, x, ps, turns) && Gossips(turns, false) && Untouched(ps[0].core, x, h)
    requires Dense(BeatsOf(turns), h, d) && turns != []
    requires h + SuspectThreshold(cfg.ts) + d <= turns[|turns| - 1].t
    ensures j < |turns| && turns[j].a.GossipTick?
    ensures h + SuspectThreshold(cfg.ts) <= turns[j].t <= h + SuspectThreshold(cfg.ts) + d
    ensures (forall i :: 0 <= i <= j ==> Untouched(ps[i].core, x, h)) && x !in ps[j + 1].core.table
  {
    hide Taken, Ignores, Silence, BeatsOf, Untouched, Dense, SuspectThreshold, Gossips;
    HistoryIsSilence(cfg, false, x, ps, turns);
    BeatTimes(turns);
    SameLength(turns);
    j := RemovedOnTime(cfg.opts, cfg.ts, x, Cores(ps), BeatsOf(turns), h, d);
    forall i | 0 <= i <= j ensures Untouched(ps[i].core, x, h) {
      assert Untouched(Cores(ps)[i], x, h);
    }
  }

  /** A process that runs the ping/ack detector removes a suspected member it is told nothing about if and only if
      its check finds it suspected for too long before the manager confirms the suspicion. */
  lemma ProcessRemovesOnlyInTime(cfg: Config, x: NodeID, ps: seq<Proc>, turns: seq<Turn>, since: Instant,
          first: Option<int>, n: nat)
    requires SilentTurns(cfg, x, ps, turns) && Pings(turns) && UnderSuspicion(ps[0].core, x, since, first) && n < |ps|
    ensures |MomentsOf(turns)| == |turns| >= n
    ensures x !in ps[n].core.table <==> InTime(cfg.opts, cfg.ts, MomentsOf(turns), since, first, n)
  {
    hide Taken, Ignores, Quiet, MomentsOf, InTime, UnderSuspicion;
    HistoryIsQuiet(cfg, x, ps, turns);
    SameLength(turns);
    RemovedOnlyInTime(cfg.opts, cfg.ts, x, Cores(ps), MomentsOf(turns), since, first, n);
  }
}
