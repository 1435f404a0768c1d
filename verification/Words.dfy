/** What one message makes of one member: the handlers of both detectors against one table of judgements. The
    handlers write the record first and then turn to the suspicion manager, which writes it again; a judgement
    says in one go what comes of it. */
module Words {
  import opened Types
  import opened SuspicionSpec
  import opened UpdateLogSpec
  import opened DetectorSpec
  import opened PingAckSpec
  import opened GossipSpec
  import opened Cluster
  import opened Refutation

  // ----- what a process has about one member

  datatype About = About(rec: Option<Rec>, entry: Option<Entry>)

  function Of(c: Core, x: NodeID): About {
    About(if x in c.table then Some(c.table[x]) else None, if x in c.entries then Some(c.entries[x]) else None)
  }

  /** The log records about `x`, in order. */
  function RecordsOf(log: seq<Update>, x: NodeID): seq<Update> {
    if log == [] then []
    else
      var n := |log| - 1;
      RecordsOf(log[..n], x) + if log[n].id == x then [log[n]] else []
  }

  lemma {:induction false} RecordsConcat(a: seq<Update>, b: seq<Update>, x: NodeID)
    ensures RecordsOf(a + b, x) == RecordsOf(a, x) + RecordsOf(b, x)
  {
    if b == [] {
      assert a + b == a;
    } else {
      var n := |b| - 1;
      assert (a + b)[..|a + b| - 1] == a + b[..n];
      RecordsConcat(a, b[..n], x);
    }
  }

  lemma RecordsOne(log: seq<Update>, u: Update, x: NodeID)
    ensures RecordsOf(log + [u], x) == RecordsOf(log, x) + if u.id == x then [u] else []
  {
    assert (log + [u])[..|log + [u]| - 1] == log;
  }

  /** Expiry and the choice of one member's records do not get in each other's way. */
  lemma {:induction false} RecordsLive(log: seq<Update>, now: int, x: NodeID)
    ensures RecordsOf(Live(log, now), x) == Live(RecordsOf(log, x), now)
  {
    if log != [] {
      var n := |log| - 1;
      RecordsLive(log[..n], now, x);
      RecordsOne(Live(log[..n], now), log[n], x);
      LiveOne(RecordsOf(log[..n], x), log[n], now);
      assert log[n].id != x ==> RecordsOf(log, x) == RecordsOf(log[..n], x);
    }
  }

  lemma LiveOne(log: seq<Update>, u: Update, now: int)
    ensures Live(log + [u], now) == Live(log, now) + if u.stamp > now - WINDOW then [u] else []
  {
    assert (log + [u])[..|log + [u]| - 1] == log;
  }

  // ----- judgements

  /** What comes of a message for its subject: its record and its entry, what is put in the log about it, and
      the callback launched for it. */
  datatype Judgement = Judgement(about: About, logged: seq<Update>, task: Option<Task>)

  function Fresh(inc: int, now: int): Rec {
    Rec(inc, Alive, At(now), Zero)
  }

  /** A record that is written and logged. */
  function Write(v: About, x: NodeID, r: Rec, now: int): Judgement {
    Judgement(v.(rec := Some(r)), [Update(x, r.inc, r.status, now)], None)
  }

  /** A record that is written in silence. */
  function Note(v: About, r: Rec): Judgement {
    Judgement(v.(rec := Some(r)), [], None)
  }

  function Nothing(v: About): Judgement {
    Judgement(v, [], None)
  }

  /** The member is deleted and its failure logged. */
  function Dropped(v: About, x: NodeID, now: int): Judgement {
    match v.rec
    case None => Nothing(v)
    case Some(r) => Judgement(v.(rec := None), [Update(x, r.inc, Failed, now)], None)
  }

  /** The manager suspects `x` at a higher incarnation than `inc`. */
  predicate Barred(v: About, inc: int) {
    v.entry.Some? && inc < v.entry.value.inc
  }

  /** After `j`, word that `x` lives at `inc` reaches the manager: unless it is barred, a suspicion is called off
      and a record no newer than `inc` is Alive, with nothing logged. */
  function Cleared(j: Judgement, x: NodeID, inc: int): Judgement {
    if Barred(j.about, inc) then j
    else
      var rec :=
        if j.about.rec.Some? && j.about.rec.value.inc <= inc
        then Some(j.about.rec.value.(status := Alive, inc := inc)) else j.about.rec;
      j.(about := About(rec, None), task := if j.about.entry.Some? then Some(OnClear(x, inc)) else j.task)
  }

  /** A report does not count when it is older than the suspicion, or, where there is none, than the record. */
  predicate Old(v: About, inc: int) {
    match v.entry
    case Some(e) => inc < e.inc
    case None => inc < (if v.rec.Some? then v.rec.value.inc else 0)
  }

  /** The reports that a new one at `inc` joins. */
  function Earlier(v: About, inc: int): Entry {
    if v.entry.Some? && v.entry.value.inc == inc then v.entry.value else NewEntry(inc)
  }

  /** After `j`, a report of `x` at `inc` reaches the manager. The one that completes the quorum makes the record
      Suspected as of now, with nothing logged, and launches OnSuspect. */
  function Accused(j: Judgement, o: Options, reporter: NodeID, x: NodeID, inc: int, now: int): Judgement {
    var v := j.about;
    if Old(v, inc) then j
    else
      var e := Earlier(v, inc);
      var all := e.reporters[reporter := now];
      var completes := e.firstReport.Zero? && |all| >= o.requireReports;
      var e' := e.(reporters := all, firstReport := if completes then At(now) else e.firstReport);
      var rec := if completes && v.rec.Some? then Some(v.rec.value.(status := Suspected, since := At(now))) else v.rec;
      j.(about := About(rec, Some(e')),
         task := if completes then Some(OnSuspect(x, inc, all.Keys)) else j.task)
  }

  /** How a message may speak about a member. `k` is the place among the updates it carries. */
  datatype Word = Direct | Hearsay(k: nat) | Asking | Acknowledged | Relayed | Declared | Suspicion | Confirmation
    | Leaving | Joining | Replaced | Listed(k: nat)

  predicate NoneAbout(us: seq<Update>, x: NodeID) {
    forall u :: u in us ==> u.id != x
  }

  predicate OnlyAbout(us: seq<Update>, k: nat, x: NodeID) {
    k < |us| && us[k].id == x && NoneAbout(us[..k], x) && NoneAbout(us[k + 1..], x)
  }

  /** The message speaks about `x`, once and in this way. */
  predicate Speaks(msg: Message, x: NodeID, w: Word) {
    match w
    case Direct => (msg.kind.Ping? || msg.kind.Heartbeat?) && msg.sender == x && NoneAbout(msg.members, x)
    case Hearsay(k) => Piggybacks(msg) && msg.sender != x && OnlyAbout(msg.members, k, x)
    case Asking => msg.kind.IndirectPing? && msg.sender == x && NoneAbout(msg.members, x)
    case Acknowledged => msg.kind.Ack? && msg.sender == x
    case Relayed => msg.kind.IndirectAck? && msg.target == x
    case Declared => msg.kind.AliveMsg? && msg.sender == x
    case Suspicion => msg.kind.Suspect? && msg.target == x
    case Confirmation => msg.kind.Confirm? && msg.target == x
    case Leaving => msg.kind.Leave? && msg.sender == x
    case Joining => msg.kind.Join? && msg.sender == x
    case Replaced => msg.kind.Join? && Displaces(msg.sender, x)
    case Listed(k) => msg.kind.JoinResponse? && OnlyAbout(msg.members, k, x)
  }

  /** A sign of life from `x` itself: it counts unless it is older than the record, but a member that has failed
      at this very incarnation stays failed. */
  function Sign(v: About, x: NodeID, inc: int, now: int): Judgement {
    match v.rec
    case None => Write(v, x, Fresh(inc, now), now)
    case Some(r) =>
      if inc < r.inc then Nothing(v)
      else if inc > r.inc || r.status.Suspected? then Write(v, x, Fresh(inc, now), now)
      else Note(v, r.(heartbeat := At(now)))
  }

  /** Does the update take the place of the record? */
  predicate Overrides(u: Update, r: Rec) {
    u.inc > r.inc || (u.inc == r.inc && u.status != r.status && !u.status.Failed? && !r.status.Failed?)
  }

  /** The record after an update that does. Word of life refreshes the heartbeat, word of a suspicion starts its
      clock (with suspicion off, at a new incarnation, it leaves the clock as it was), word of a failure does
      neither. */
  function Overridden(u: Update, r: Rec, susp: bool, now: int): Rec {
    match u.status
    case Alive => Fresh(u.inc, now)
    case Suspected => Rec(u.inc, Suspected, r.heartbeat, if susp || u.inc == r.inc then At(now) else r.since)
    case Failed => Rec(u.inc, Failed, r.heartbeat, r.since)
  }

  /** A piggybacked update. Of a member it does not know a process takes over everything, without turning to
      the manager. */
  function Rumour(v: About, o: Options, susp: bool, u: Update, reporter: NodeID, now: int): Judgement {
    match v.rec
    case None => Write(v, u.id, Rec(u.inc, u.status, At(now), if u.status.Suspected? then At(now) else Zero), now)
    case Some(r) =>
      var j := if Overrides(u, r) then Write(v, u.id, Overridden(u, r, susp, now), now) else Nothing(v);
      if u.status.Alive? then Cleared(j, u.id, u.inc)
      else if u.status.Suspected? && susp then Accused(j, o, reporter, u.id, u.inc, now)
      else j
  }

  predicate Novel(v: About, inc: int) {
    v.rec.Some? ==> inc > v.rec.value.inc
  }

  /** A member listed in the answer to a join: when it is unknown or newer it is taken over, with a fresh heartbeat
      whatever its status. */
  function Taken(v: About, u: Update, now: int): Judgement {
    if !Novel(v, u.inc) then Nothing(v)
    else
      var since :=
        if u.status.Suspected? then At(now)
        else if u.status.Alive? || v.rec.None? then Zero
        else v.rec.value.since;
      Write(v, u.id, Rec(u.inc, u.status, At(now), since), now)
  }

  function ListedAs(v: About, u: Update, now: int): Judgement {
    if Novel(v, u.inc) && u.status.Alive? then Cleared(Taken(v, u, now), u.id, u.inc) else Taken(v, u, now)
  }

  /** The judgement on `x`, another than the node itself, when it handles `msg`. */
  function Heard(v: About, o: Options, susp: bool, msg: Message, x: NodeID, w: Word, now: int): Judgement
    requires Speaks(msg, x, w)
  {
    var inc := msg.inc;
    match w
    case Direct => Sign(v, x, inc, now)
    case Acknowledged => Cleared(Sign(v, x, inc, now), x, inc)
    case Asking => if v.rec.Some? && inc >= v.rec.value.inc then Note(v, v.rec.value.(heartbeat := At(now))) else Nothing(v)
    case Relayed =>
      Cleared(if v.rec.None? || inc < v.rec.value.inc then Nothing(v)
              else if v.rec.value.status.Alive? then Note(v, v.rec.value.(inc := inc, heartbeat := At(now)))
              else Write(v, x, Fresh(inc, now), now), x, inc)
    case Declared =>
      Cleared(if v.rec.None? || inc < v.rec.value.inc || (v.rec.value.status.Alive? && inc == v.rec.value.inc) then Nothing(v)
              else Write(v, x, Fresh(inc, now), now), x, inc)
    case Hearsay(k) => Rumour(v, o, susp, msg.members[k], msg.sender, now)
    case Listed(k) => ListedAs(v, msg.members[k], now)
    case Suspicion => if susp then Accused(Nothing(v), o, msg.sender, x, inc, now) else Nothing(v)
    case Confirmation =>
      if v.rec.None? || inc < v.rec.value.inc then Nothing(v)
      else Write(v, x, v.rec.value.(status := Failed, inc := inc), now)
    case Joining => Write(v, x, Fresh(inc, now), now)
    case _ => Dropped(v, x, now)
  }

  // ----- judgements carried out

  function Launched(task: Option<Task>): multiset<Task> {
    if task.Some? then multiset{task.value} else multiset{}
  }

  /** `c'` is what `c` becomes by the judgement on `x`, whatever happens to others. */
  ghost predicate Carried(c: Core, c': Core, x: NodeID, j: Judgement) {
    && c'.local == c.local
    && Of(c', x) == j.about
    && RecordsOf(c'.log, x) == RecordsOf(c.log, x) + j.logged
    && forall task: Task :: task.target == x ==> c'.tasks[task] == c.tasks[task] + Launched(j.task)[task]
  }

  /** Nothing happens to `x`. */
  ghost predicate Passes(c: Core, c': Core, x: NodeID) {
    Carried(c, c', x, Nothing(Of(c, x)))
  }

  lemma PassesTwice(c: Core, c1: Core, c2: Core, x: NodeID)
    requires Passes(c, c1, x) && Passes(c1, c2, x)
    ensures Passes(c, c2, x)
  {
    hide RecordsOf;
  }

  /** What happens to others before and after does not matter. */
  lemma CarriedBetween(c: Core, c1: Core, c2: Core, c3: Core, x: NodeID, j: Judgement)
    requires Passes(c, c1, x) && Carried(c1, c2, x, j) && Passes(c2, c3, x)
    ensures Carried(c, c3, x, j) && Of(c1, x) == Of(c, x)
  {
    hide RecordsOf;
  }

  // ----- the manager

  lemma ClearCarries(c: Core, x: NodeID, inc: int)
    ensures Carried(c, ClearSuspect(c, x, inc), x, Cleared(Nothing(Of(c, x)), x, inc))
  {
    hide RecordsOf;
  }

  lemma ClearPasses(c: Core, id: NodeID, inc: int, x: NodeID)
    requires id != x
    ensures Passes(c, ClearSuspect(c, id, inc), x)
  {
    hide RecordsOf;
  }

  lemma LodgeCarries(c: Core, o: Options, e: Entry, reporter: NodeID, x: NodeID, now: int)
    requires !Old(Of(c, x), e.inc) && e == Earlier(Of(c, x), e.inc)
    ensures Carried(c, Lodge(c, o, e, reporter, x, now), x, Accused(Nothing(Of(c, x)), o, reporter, x, e.inc, now))
  {
    hide RecordsOf;
  }

  lemma LodgePasses(c: Core, o: Options, e: Entry, reporter: NodeID, id: NodeID, now: int, x: NodeID)
    requires id != x
    ensures Passes(c, Lodge(c, o, e, reporter, id, now), x)
  {
    hide RecordsOf, AddReport, Fires;
  }

  lemma ReportCarries(c: Core, o: Options, reporter: NodeID, x: NodeID, inc: int, now: int)
    requires x != c.local
    ensures Carried(c, ProcessSuspicion(c, o, reporter, x, inc, now), x,
                    Accused(Nothing(Of(c, x)), o, reporter, x, inc, now))
  {
    hide RecordsOf, Lodge;
    var v := Of(c, x);
    if !Old(v, inc) {
      LodgeCarries(c, o, Earlier(v, inc), reporter, x, now);
    }
  }

  lemma ReportPasses(c: Core, o: Options, reporter: NodeID, id: NodeID, inc: int, now: int, x: NodeID)
    requires id != x
    ensures Passes(c, ProcessSuspicion(c, o, reporter, id, inc, now), x)
  {
    hide RecordsOf, Lodge, Broadcast;
    LodgePasses(c, o, NewEntry(inc), reporter, id, now, x);
    if id in c.entries {
      LodgePasses(c, o, c.entries[id], reporter, id, now, x);
    }
  }

  lemma WriteCarries(c: Core, x: NodeID, r: Rec, now: int)
    ensures Carried(c, PutLogged(c, x, r, now), x, Write(Of(c, x), x, r, now))
    ensures forall k :: k != x ==> Passes(c, PutLogged(c, x, r, now), k)
  {
    forall k ensures RecordsOf(PutLogged(c, x, r, now).log, k)
      == RecordsOf(c.log, k) + if x == k then [Update(x, r.inc, r.status, now)] else []
    {
      RecordsOne(c.log, Update(x, r.inc, r.status, now), k);
    }
    hide RecordsOf;
  }

  /** One judgement after another. */
  lemma ThenCleared(c: Core, c1: Core, c2: Core, x: NodeID, j: Judgement, inc: int)
    requires Carried(c, c1, x, j) && j.task.None?
    requires Carried(c1, c2, x, Cleared(Nothing(Of(c1, x)), x, inc))
    ensures Carried(c, c2, x, Cleared(j, x, inc))
  {
    hide RecordsOf;
  }

  lemma ThenAccused(c: Core, c1: Core, c2: Core, x: NodeID, j: Judgement, o: Options, reporter: NodeID, inc: int, now: int)
    requires Carried(c, c1, x, j) && j.task.None?
    requires Carried(c1, c2, x, Accused(Nothing(Of(c1, x)), o, reporter, x, inc, now))
    ensures Carried(c, c2, x, Accused(j, o, reporter, x, inc, now))
  {
    hide RecordsOf;
  }

  // ----- signs of life

  /** The core is the same but for the table's record of `x`. */
  lemma NoteCarries(c: Core, x: NodeID, r: Rec)
    ensures var c' := c.(table := c.table[x := r]);
      Carried(c, c', x, Note(Of(c, x), r)) && forall k :: k != x ==> Passes(c, c', k)
  {
    hide RecordsOf;
  }

  lemma TouchCarries(c: Core, x: NodeID, inc: int, now: int)
    ensures Carried(c, Touch(c, x, inc, now), x, Sign(Of(c, x), x, inc, now))
    ensures forall k :: k != x ==> Passes(c, Touch(c, x, inc, now), k)
  {
    hide RecordsOf, Carried, Passes;
    WriteCarries(c, x, Fresh(inc, now), now);
    if x in c.table {
      NoteCarries(c, x, c.table[x].(heartbeat := At(now)));
    }
    NothingPasses(c);
  }

  lemma NothingPasses(c: Core)
    ensures forall k :: Passes(c, c, k) && Carried(c, c, k, Nothing(Of(c, k)))
  {
  }

  lemma RefreshCarries(c: Core, x: NodeID, inc: int, now: int)
    ensures var v := Of(c, x);
      Carried(c, Refresh(c, x, inc, now), x,
              if v.rec.Some? && inc >= v.rec.value.inc then Note(v, v.rec.value.(heartbeat := At(now))) else Nothing(v))
    ensures forall k :: k != x ==> Passes(c, Refresh(c, x, inc, now), k)
  {
    hide RecordsOf, Carried, Passes;
    if x in c.table {
      NoteCarries(c, x, c.table[x].(heartbeat := At(now)));
    }
    NothingPasses(c);
  }

  lemma SendPasses(c: Core, msg: Message, dest: Addr)
    ensures forall k :: Passes(c, Send(c, msg, dest), k)
  {
    hide RecordsOf;
  }

  // ----- piggybacked updates

  lemma MergeCarries(c: Core, susp: bool, u: Update, now: int)
    requires u.id in c.table
    ensures var v := Of(c, u.id);
      Carried(c, MergeRecord(c, susp, u, now), u.id,
              if Overrides(u, v.rec.value) then Write(v, u.id, Overridden(u, v.rec.value, susp, now), now) else Nothing(v))
    ensures forall k :: k != u.id ==> Passes(c, MergeRecord(c, susp, u, now), k)
  {
    hide RecordsOf, Carried, Passes;
    WriteCarries(c, u.id, Overridden(u, c.table[u.id], susp, now), now);
    NothingPasses(c);
  }

  lemma UpdateCarries(c: Core, o: Options, susp: bool, u: Update, reporter: NodeID, now: int)
    requires u.id != c.local
    ensures Carried(c, ProcessUpdate(c, o, susp, u, reporter, now), u.id, Rumour(Of(c, u.id), o, susp, u, reporter, now))
  {
    hide RecordsOf, Carried, Passes, MergeRecord, ProcessSuspicion, ClearSuspect, Cleared, Accused, Overridden, Overrides;
    if u.id !in c.table {
      WriteCarries(c, u.id, Learned(u, now), now);
    } else {
      var x := u.id;
      var c1 := MergeRecord(c, susp, u, now);
      MergeCarries(c, susp, u, now);
      CarriedLocal(c, c1, x);
      ClearCarries(c1, x, u.inc);
      ReportCarries(c1, o, reporter, x, u.inc, now);
      var v := Of(c, x);
      var j := if Overrides(u, v.rec.value) then Write(v, x, Overridden(u, v.rec.value, susp, now), now) else Nothing(v);
      ThenCleared(c, c1, ClearSuspect(c1, x, u.inc), x, j, u.inc);
      ThenAccused(c, c1, ProcessSuspicion(c1, o, reporter, x, u.inc, now), x, j, o, reporter, u.inc, now);
    }
  }

  lemma CarriedLocal(c: Core, c': Core, x: NodeID)
    ensures forall j :: Carried(c, c', x, j) ==> c'.local == c.local
    ensures Passes(c, c', x) ==> c'.local == c.local && Of(c', x) == Of(c, x)
  {
    hide RecordsOf;
  }

  lemma UpdatePasses(c: Core, o: Options, susp: bool, u: Update, reporter: NodeID, now: int, x: NodeID)
    requires u.id != x
    ensures Passes(c, ProcessUpdate(c, o, susp, u, reporter, now), x)
  {
    hide Passes, MergeRecord, ProcessSuspicion, ClearSuspect;
    var c1 := if u.id in c.table && u.id != c.local then MergeRecord(c, susp, u, now) else c;
    NothingPasses(c);
    NothingPasses(c1);
    if u.id in c.table {
      MergeCarries(c, susp, u, now);
    } else {
      WriteCarries(c, u.id, Learned(u, now), now);
    }
    ReportPasses(c1, o, reporter, u.id, u.inc, now, x);
    ClearPasses(c1, u.id, u.inc, x);
    EscalatePasses(c, c1, o, susp, u, reporter, now, x);
  }

  lemma EscalatePasses(c: Core, c1: Core, o: Options, susp: bool, u: Update, reporter: NodeID, now: int, x: NodeID)
    requires u.id != x && Passes(c, c1, x)
    ensures Passes(c, Escalate(c1, o, susp, u, reporter, now), x)
  {
    hide Passes, ProcessSuspicion, ClearSuspect;
    NothingPasses(c1);
    ReportPasses(c1, o, reporter, u.id, u.inc, now, x);
    ClearPasses(c1, u.id, u.inc, x);
    PassesTwice(c, c1, Escalate(c1, o, susp, u, reporter, now), x);
  }

  lemma {:induction false} UpdatesPass(c: Core, o: Options, susp: bool, us: seq<Update>, reporter: NodeID, now: int, x: NodeID)
    requires NoneAbout(us, x)
    ensures Passes(c, ProcessUpdates(c, o, susp, us, reporter, now), x)
  {
    hide Passes, ProcessUpdate;
    if us == [] {
      NothingPasses(c);
    } else {
      var n := |us| - 1;
      var c1 := ProcessUpdates(c, o, susp, us[..n], reporter, now);
      UpdatesPass(c, o, susp, us[..n], reporter, now, x);
      UpdatePasses(c1, o, susp, us[n], reporter, now, x);
      PassesTwice(c, c1, ProcessUpdate(c1, o, susp, us[n], reporter, now), x);
    }
  }

  /** Of many updates the one about `x` decides. */
  lemma {:induction false} UpdatesCarry(c: Core, o: Options, susp: bool, us: seq<Update>, reporter: NodeID, now: int,
          x: NodeID, k: nat)
    requires OnlyAbout(us, k, x) && x != c.local
    ensures Carried(c, ProcessUpdates(c, o, susp, us, reporter, now), x, Rumour(Of(c, x), o, susp, us[k], reporter, now))
    decreases |us|
  {
    hide Carried, Passes, ProcessUpdate, Rumour;
    var n := |us| - 1;
    var c1 := ProcessUpdates(c, o, susp, us[..n], reporter, now);
    var c2 := ProcessUpdate(c1, o, susp, us[n], reporter, now);
    NothingPasses(c);
    NothingPasses(c2);
    if k == n {
      UpdatesPass(c, o, susp, us[..n], reporter, now, x);
      CarriedLocal(c, c1, x);
      UpdateCarries(c1, o, susp, us[n], reporter, now);
      CarriedBetween(c, c1, c2, c2, x, Rumour(Of(c, x), o, susp, us[k], reporter, now));
    } else {
      assert us[k + 1..][|us[k + 1..]| - 1] == us[n];
      assert us[..n][..k] == us[..k] && us[..n][k + 1..] == us[k + 1..][..n - k - 1];
      UpdatesCarry(c, o, susp, us[..n], reporter, now, x, k);
      UpdatePasses(c1, o, susp, us[n], reporter, now, x);
      CarriedBetween(c, c, c1, c2, x, Rumour(Of(c, x), o, susp, us[k], reporter, now));
    }
  }

  // ----- the answer to a join

  lemma AbsorbCarries(c: Core, u: Update, now: int)
    requires u.id != c.local
    ensures Carried(c, Absorb(c, u, now), u.id, Taken(Of(c, u.id), u, now))
    ensures News(c, u) <==> Novel(Of(c, u.id), u.inc)
  {
    hide RecordsOf, Carried;
    NothingPasses(c);
    forall r: Rec ensures Carried(c, PutLogged(c, u.id, r, now), u.id, Write(Of(c, u.id), u.id, r, now)) {
      WriteCarries(c, u.id, r, now);
    }
  }

  lemma AbsorbPasses(c: Core, u: Update, now: int, x: NodeID)
    requires u.id != x
    ensures Passes(c, Absorb(c, u, now), x)
  {
    hide RecordsOf, Passes;
    NothingPasses(c);
    forall r: Rec ensures Passes(c, PutLogged(c, u.id, r, now), x) {
      WriteCarries(c, u.id, r, now);
    }
  }

  /** How the list `us` and the clears it gives rise to speak of `x`. */
  lemma {:induction false} AbsorbAllPasses(c: Core, us: seq<Update>, now: int, x: NodeID)
    requires NoneAbout(us, x)
    ensures Passes(c, AbsorbAll(c, us, now), x) && NoneAbout(Clears(c, us, now), x)
  {
    hide Passes, Absorb, News;
    if us == [] {
      NothingPasses(c);
    } else {
      var n := |us| - 1;
      var c1 := AbsorbAll(c, us[..n], now);
      AbsorbAllPasses(c, us[..n], now, x);
      AbsorbPasses(c1, us[n], now, x);
      PassesTwice(c, c1, Absorb(c1, us[n], now), x);
    }
  }

  lemma {:induction false} AbsorbAllCarries(c: Core, us: seq<Update>, now: int, x: NodeID, k: nat) returns (i: nat)
    requires OnlyAbout(us, k, x) && x != c.local
    ensures Carried(c, AbsorbAll(c, us, now), x, Taken(Of(c, x), us[k], now))
    ensures var clears := Clears(c, us, now);
      if Novel(Of(c, x), us[k].inc) && us[k].status.Alive? then OnlyAbout(clears, i, x) && clears[i] == us[k]
      else NoneAbout(clears, x)
    decreases |us|
  {
    hide Carried, Passes, Absorb, News, Novel, Taken;
    var n := |us| - 1;
    var c1 := AbsorbAll(c, us[..n], now);
    var c2 := Absorb(c1, us[n], now);
    var before := Clears(c, us[..n], now);
    NothingPasses(c);
    NothingPasses(c2);
    if k == n {
      AbsorbAllPasses(c, us[..n], now, x);
      CarriedLocal(c, c1, x);
      AbsorbCarries(c1, us[n], now);
      CarriedBetween(c, c1, c2, c2, x, Taken(Of(c, x), us[k], now));
      i := |before|;
    } else {
      assert us[k + 1..][|us[k + 1..]| - 1] == us[n];
      assert us[..n][..k] == us[..k] && us[..n][k + 1..] == us[k + 1..][..n - k - 1];
      i := AbsorbAllCarries(c, us[..n], now, x, k);
      AbsorbPasses(c1, us[n], now, x);
      CarriedBetween(c, c, c1, c2, x, Taken(Of(c, x), us[k], now));
      OneMoreOther(before, Clears(c, us, now), us[n], i, x);
    }
  }

  lemma OneMoreOther(us: seq<Update>, us': seq<Update>, u: Update, i: nat, x: NodeID)
    requires u.id != x && (us' == us || us' == us + [u])
    ensures OnlyAbout(us, i, x) ==> OnlyAbout(us', i, x) && us'[i] == us[i]
    ensures NoneAbout(us, x) ==> NoneAbout(us', x)
  {
    if i < |us| && us' == us + [u] {
      assert us'[i + 1..] == us[i + 1..] + [u] && us'[..i] == us[..i];
    }
  }

  lemma {:induction false} ClearAllPasses(c: Core, us: seq<Update>, x: NodeID)
    requires NoneAbout(us, x)
    ensures Passes(c, ClearAll(c, us), x)
  {
    hide Passes, ClearSuspect;
    if us == [] {
      NothingPasses(c);
    } else {
      var n := |us| - 1;
      var c1 := ClearAll(c, us[..n]);
      ClearAllPasses(c, us[..n], x);
      ClearPasses(c1, us[n].id, us[n].inc, x);
      PassesTwice(c, c1, ClearSuspect(c1, us[n].id, us[n].inc), x);
    }
  }

  lemma {:induction false} ClearAllCarries(c: Core, us: seq<Update>, x: NodeID, k: nat)
    requires OnlyAbout(us, k, x)
    ensures Carried(c, ClearAll(c, us), x, Cleared(Nothing(Of(c, x)), x, us[k].inc))
    decreases |us|
  {
    hide Carried, Passes, ClearSuspect, Cleared;
    var n := |us| - 1;
    var c1 := ClearAll(c, us[..n]);
    var c2 := ClearSuspect(c1, us[n].id, us[n].inc);
    NothingPasses(c);
    NothingPasses(c2);
    if k == n {
      ClearAllPasses(c, us[..n], x);
      CarriedLocal(c, c1, x);
      ClearCarries(c1, x, us[n].inc);
      CarriedBetween(c, c1, c2, c2, x, Cleared(Nothing(Of(c, x)), x, us[k].inc));
    } else {
      assert us[k + 1..][|us[k + 1..]| - 1] == us[n];
      assert us[..n][..k] == us[..k] && us[..n][k + 1..] == us[k + 1..][..n - k - 1];
      ClearAllCarries(c, us[..n], x, k);
      ClearPasses(c1, us[n].id, us[n].inc, x);
      CarriedBetween(c, c, c1, c2, x, Cleared(Nothing(Of(c, x)), x, us[k].inc));
    }
  }

  lemma ResponseCarries(c: Core, us: seq<Update>, now: int, x: NodeID, k: nat)
    requires OnlyAbout(us, k, x) && x != c.local
    ensures Carried(c, HandleJoinResponse(c, us, now), x, ListedAs(Of(c, x), us[k], now))
  {
    hide Carried, Passes, AbsorbAll, Clears, ClearAll, Cleared, Novel;
    var c1 := AbsorbAll(c, us, now);
    var i := AbsorbAllCarries(c, us, now, x, k);
    var v := Of(c, x);
    if Novel(v, us[k].inc) && us[k].status.Alive? {
      ClearAllCarries(c1, Clears(c, us, now), x, i);
      ThenCleared(c, c1, ClearAll(c1, Clears(c, us, now)), x, Taken(v, us[k], now), us[k].inc);
    } else {
      ClearAllPasses(c1, Clears(c, us, now), x);
      NothingPasses(c);
      CarriedBetween(c, c, c1, ClearAll(c1, Clears(c, us, now)), x, Taken(v, us[k], now));
    }
  }

  // ----- the other messages

  lemma LeaveCarries(c: Core, x: NodeID, now: int)
    ensures Carried(c, HandleLeave(c, x, now), x, Dropped(Of(c, x), x, now))
  {
    if x in c.table {
      RecordsOne(c.log, Update(x, c.table[x].inc, Failed, now), x);
    }
    hide RecordsOf;
  }

  /** Of the Failed records for `ids` at most one is about `x`. */
  lemma {:induction false} FailedRecordsOf(ids: seq<NodeID>, table: map<NodeID, Rec>, now: int, x: NodeID)
    requires forall i, j :: 0 <= i < j < |ids| ==> ids[i] != ids[j]
    ensures RecordsOf(FailedRecords(ids, table, now), x)
         == if x in ids then [Update(x, RecordedInc(table, x), Failed, now)] else []
  {
    var all := FailedRecords(ids, table, now);
    if ids == [] {
      assert all == [];
    } else {
      var n := |ids| - 1;
      FailedRecordsOf(ids[..n], table, now, x);
      assert all[..n] == FailedRecords(ids[..n], table, now);
      assert ids == ids[..n] + [ids[n]];
    }
  }

  lemma JoinRecordsOf(c: Core, sender: NodeID, inc: int, now: int, displaced: seq<NodeID>, x: NodeID)
    requires Enumerates(displaced, Displaced(c.table, sender))
    ensures RecordsOf(c.log + FailedRecords(displaced, c.table, now) + [Update(sender, inc, Alive, now)], x)
         == RecordsOf(c.log, x)
            + (if x in c.table && Displaces(sender, x) then [Update(x, c.table[x].inc, Failed, now)] else [])
            + (if x == sender then [Update(sender, inc, Alive, now)] else [])
  {
    hide RecordsOf, FailedRecords;
    FailedRecordsOf(displaced, c.table, now, x);
    RecordsConcat(c.log, FailedRecords(displaced, c.table, now), x);
    RecordsOne(c.log + FailedRecords(displaced, c.table, now), Update(sender, inc, Alive, now), x);
  }

  lemma JoinCarries(c: Core, sender: NodeID, inc: int, now: int, displaced: seq<NodeID>, listing: seq<NodeID>, x: NodeID)
    requires Enumerates(displaced, Displaced(c.table, sender))
    requires forall k :: k in listing ==> k in JoinedTable(c, sender, inc, now)
    ensures var v := Of(c, x);
      Carried(c, HandleJoin(c, sender, inc, now, displaced, listing), x,
              if x == sender then Write(v, x, Fresh(inc, now), now)
              else if Displaces(sender, x) then Dropped(v, x, now)
              else Nothing(v))
  {
    JoinRecordsOf(c, sender, inc, now, displaced, x);
    hide RecordsOf, FailedRecords, Listing;
  }

  lemma ConfirmCarries(c: Core, x: NodeID, inc: int, now: int)
    ensures var v := Of(c, x);
      Carried(c, HandleConfirm(c, x, inc, now), x,
              if v.rec.None? || inc < v.rec.value.inc then Nothing(v)
              else Write(v, x, v.rec.value.(status := Failed, inc := inc), now))
  {
    hide RecordsOf, Carried;
    NothingPasses(c);
    if x in c.table {
      WriteCarries(c, x, c.table[x].(status := Failed, inc := inc), now);
    }
  }

  lemma AliveCarries(c: Core, x: NodeID, inc: int, now: int)
    ensures var v := Of(c, x);
      Carried(c, HandleAlive(c, x, inc, now), x,
              Cleared(if v.rec.None? || inc < v.rec.value.inc || (v.rec.value.status.Alive? && inc == v.rec.value.inc)
                      then Nothing(v) else Write(v, x, Fresh(inc, now), now), x, inc))
  {
    hide RecordsOf, Carried, ClearSuspect, Cleared;
    var v := Of(c, x);
    NothingPasses(c);
    WriteCarries(c, x, Fresh(inc, now), now);
    var same := v.rec.None? || inc < v.rec.value.inc || (v.rec.value.status.Alive? && inc == v.rec.value.inc);
    var c1 := if same then c else PutLogged(c, x, Fresh(inc, now), now);
    ClearCarries(c1, x, inc);
    ThenCleared(c, c1, ClearSuspect(c1, x, inc), x, if same then Nothing(v) else Write(v, x, Fresh(inc, now), now), inc);
  }

  lemma RelayedCarries(c: Core, x: NodeID, inc: int, now: int)
    ensures var v := Of(c, x);
      Carried(c, Reported(c, x, inc, now), x,
              if v.rec.None? || inc < v.rec.value.inc then Nothing(v)
              else if v.rec.value.status.Alive? then Note(v, v.rec.value.(inc := inc, heartbeat := At(now)))
              else Write(v, x, Fresh(inc, now), now))
  {
    hide RecordsOf, Carried;
    NothingPasses(c);
    WriteCarries(c, x, Fresh(inc, now), now);
    if x in c.table {
      NoteCarries(c, x, c.table[x].(inc := inc, heartbeat := At(now)));
    }
  }

  // ----- every message

  /** `c'` is what `c` becomes by the judgement on `x`, the log having been expired since, if it has. */
  ghost predicate Heeded(c: Core, c': Core, x: NodeID, j: Judgement, expired: Option<int>) {
    && c'.local == c.local
    && Of(c', x) == j.about
    && RecordsOf(c'.log, x) == (if expired.None? then RecordsOf(c.log, x) + j.logged
                               else Live(RecordsOf(c.log, x) + j.logged, expired.value))
    && forall task: Task :: task.target == x ==> c'.tasks[task] == c.tasks[task] + Launched(j.task)[task]
  }

  lemma CarriedHeeded(c: Core, c': Core, x: NodeID, j: Judgement)
    requires Carried(c, c', x, j)
    ensures Heeded(c, c', x, j, None)
  {
    hide RecordsOf;
  }

  /** Messages that carry updates. */
  lemma PiggybackCarries(cfg: Config, p: Proc, a: Action, x: NodeID, w: Word)
    requires a.Receive? && Piggybacks(a.msg) && Speaks(a.msg, x, w) && x != p.core.local
    ensures Carried(p.core, ProcessUpdates(Opening(p, a), cfg.opts, a.susp, a.msg.members, a.msg.sender, a.now), x,
                    Heard(Of(p.core, x), cfg.opts, a.susp, a.msg, x, w, a.now))
  {
    hide RecordsOf, Carried, Passes, ProcessUpdates, Touch, Refresh, Sign, Rumour;
    var c, msg, now := p.core, a.msg, a.now;
    var acked := Send(c, Message(Ack, c.local, msg.sender, c.own, msg.seqNum, []), msg.sender.Address());
    var c0 := if msg.kind.Ping? then acked else c;
    var c1 := Opening(p, a);
    var c2 := ProcessUpdates(c1, cfg.opts, a.susp, msg.members, msg.sender, now);
    SendPasses(c, Message(Ack, c.local, msg.sender, c.own, msg.seqNum, []), msg.sender.Address());
    NothingPasses(c);
    NothingPasses(c1);
    NothingPasses(c2);
    TouchCarries(c0, msg.sender, msg.inc, now);
    RefreshCarries(c0, msg.sender, msg.inc, now);
    CarriedLocal(c, c0, x);
    var j := Heard(Of(c, x), cfg.opts, a.susp, msg, x, w, now);
    if w.Hearsay? {
      PassesTwice(c, c0, c1, x);
      CarriedLocal(c, c1, x);
      UpdatesCarry(c1, cfg.opts, a.susp, msg.members, msg.sender, now, x, w.k);
      CarriedBetween(c, c1, c2, c2, x, j);
    } else {
      UpdatesPass(c1, cfg.opts, a.susp, msg.members, msg.sender, now, x);
      CarriedBetween(c, c0, c1, c2, x, j);
    }
  }

  lemma AckCarries(c: Core, x: NodeID, inc: int, now: int)
    ensures Carried(c, ClearSuspect(Touch(c, x, inc, now), x, inc), x, Cleared(Sign(Of(c, x), x, inc, now), x, inc))
  {
    hide RecordsOf, Carried, ClearSuspect, Cleared, Touch;
    TouchCarries(c, x, inc, now);
    ClearCarries(Touch(c, x, inc, now), x, inc);
    ThenCleared(c, Touch(c, x, inc, now), ClearSuspect(Touch(c, x, inc, now), x, inc), x, Sign(Of(c, x), x, inc, now), inc);
  }

  lemma IndirectAckCarries(c: Core, x: NodeID, inc: int, now: int)
    ensures var v := Of(c, x);
      Carried(c, ClearSuspect(Reported(c, x, inc, now), x, inc), x,
              Cleared(if v.rec.None? || inc < v.rec.value.inc then Nothing(v)
                      else if v.rec.value.status.Alive? then Note(v, v.rec.value.(inc := inc, heartbeat := At(now)))
                      else Write(v, x, Fresh(inc, now), now), x, inc))
  {
    hide RecordsOf, Carried, ClearSuspect, Cleared, Reported;
    var v := Of(c, x);
    var j :=
      if v.rec.None? || inc < v.rec.value.inc then Nothing(v)
      else if v.rec.value.status.Alive? then Note(v, v.rec.value.(inc := inc, heartbeat := At(now)))
      else Write(v, x, Fresh(inc, now), now);
    RelayedCarries(c, x, inc, now);
    ClearCarries(Reported(c, x, inc, now), x, inc);
    ThenCleared(c, Reported(c, x, inc, now), ClearSuspect(Reported(c, x, inc, now), x, inc), x, j, inc);
  }

  lemma OthersCarry(cfg: Config, p: Proc, a: Action, x: NodeID, w: Word)
    requires a.Receive? && ReceiveEnabled(p, a) && !Piggybacks(a.msg) && Speaks(a.msg, x, w) && x != p.core.local
    ensures Carried(p.core, Handle(cfg, p, a).core, x, Heard(Of(p.core, x), cfg.opts, a.susp, a.msg, x, w, a.now))
  {
    hide RecordsOf, Carried, ClearSuspect, Touch, Reported, HandleAlive, HandleConfirm, HandleLeave, HandleJoin,
      HandleJoinResponse, ProcessSuspicion, Sign, Cleared, Accused, ListedAs, Notify, SignalDirect, SignalIndirect;
    var c, msg, inc, now := p.core, a.msg, a.msg.inc, a.now;
    match w
    case Acknowledged => AckCarries(c, x, inc, now);
    case Relayed => IndirectAckCarries(c, x, inc, now);
    case Declared => AliveCarries(c, x, inc, now);
    case Suspicion =>
      ReportCarries(c, cfg.opts, msg.sender, x, inc, now);
      NothingPasses(c);
    case Confirmation => ConfirmCarries(c, x, inc, now);
    case Leaving => LeaveCarries(c, x, now);
    case Joining => JoinCarries(c, msg.sender, inc, now, a.displaced, a.listing, x);
    case Replaced => JoinCarries(c, msg.sender, inc, now, a.displaced, a.listing, x);
    case Listed(k) => ResponseCarries(c, msg.members, now, x, k);
    case _ =>
  }

  lemma PiggybackHandled(cfg: Config, p: Proc, a: Action, x: NodeID)
    requires a.Receive? && ReceiveEnabled(p, a) && Piggybacks(a.msg)
    ensures var c' := Handle(cfg, p, a).core;
      var c1 := ProcessUpdates(Opening(p, a), cfg.opts, a.susp, a.msg.members, a.msg.sender, a.now);
      && c'.local == c1.local && Of(c', x) == Of(c1, x) && c'.tasks == c1.tasks
      && RecordsOf(c'.log, x) == if a.msg.kind.IndirectPing? then Live(RecordsOf(c1.log, x), a.now) else RecordsOf(c1.log, x)
  {
    var c1 := ProcessUpdates(Opening(p, a), cfg.opts, a.susp, a.msg.members, a.msg.sender, a.now);
    RecordsLive(c1.log, a.now, x);
    hide RecordsOf, Live, Prefix, ProcessUpdates, Touch, Refresh, ReceiveEnabled;
  }

  /** What a message makes of a member it speaks about, another than the receiver: the judgement on it, whatever
      else the message says. (A member about which one message speaks more than once is left to Merge and
      JoinHandshake.) */
  lemma EveryWordHeard(cfg: Config, p: Proc, a: Action, x: NodeID, w: Word)
    requires Enabled(cfg, p, a) && a.Receive? && Speaks(a.msg, x, w) && x != p.core.local
    ensures Heeded(p.core, Act(cfg, p, a).core, x, Heard(Of(p.core, x), cfg.opts, a.susp, a.msg, x, w, a.now),
                   if a.msg.kind.IndirectPing? then Some(a.now) else None)
  {
    hide Act, Handle, Enabled, ReceiveEnabled, Speaks, Heard, RecordsOf, Live, ProcessUpdates, Opening;
    ReceiveActs(cfg, p, a);
    if Piggybacks(a.msg) {
      PiggybackCarries(cfg, p, a, x, w);
      PiggybackHandled(cfg, p, a, x);
    } else {
      OthersCarry(cfg, p, a, x, w);
    }
  }
}
