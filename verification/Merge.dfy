/** Piggybacked updates may arrive in any order and more than once. */
module Merge {
  import opened Types
  import opened SuspicionSpec
  import opened DetectorSpec
  import opened Monotone

  /** The record of `k` in `c'` is the join of its record in `c` and the updates `us`: present if either
      has it, and at the largest incarnation of both. */
  ghost predicate Joined(c: Core, us: seq<Update>, c': Core, k: NodeID) {
    && (k in c'.table <==> k in c.table || exists u :: u in us && u.id == k)
    && (k in c'.table ==>
          && (k in c.table ==> c.table[k].inc <= c'.table[k].inc)
          && (forall u :: u in us && u.id == k ==> u.inc <= c'.table[k].inc)
          && ((k in c.table && c'.table[k].inc == c.table[k].inc)
              || exists u :: u in us && u.id == k && u.inc == c'.table[k].inc))
  }

  /** Escalating an update no newer than the record leaves the incarnation alone. */
  lemma EscalateIncs(c: Core, o: Options, susp: bool, u: Update, reporter: NodeID, now: int, k: NodeID)
    requires k == u.id && k in c.table ==> u.inc <= c.table[k].inc
    ensures var c' := Escalate(c, o, susp, u, reporter, now);
      && c'.local == c.local
      && (k in c'.table <==> k in c.table)
      && (k in c.table ==> c'.table[k].inc == c.table[k].inc)
  {
    hide ProcessSuspicion;
    ProcessSuspicionSame(c, o, reporter, u.id, u.inc, now);
  }

  /** One update changes the incarnation of its own subject only. */
  lemma UpdateJoins(c: Core, o: Options, susp: bool, u: Update, reporter: NodeID, now: int, k: NodeID)
    requires k != c.local
    ensures var c' := ProcessUpdate(c, o, susp, u, reporter, now);
      && c'.local == c.local
      && (k in c'.table <==> k in c.table || u.id == k)
      && (k in c'.table ==>
            c'.table[k].inc == if u.id != k then c.table[k].inc
                               else if k in c.table then Max(c.table[k].inc, u.inc) else u.inc)
  {
    hide Escalate;
    if u.id == c.local {
      EscalateIncs(c, o, susp, u, reporter, now, k);
    } else if u.id in c.table {
      EscalateIncs(MergeRecord(c, susp, u, now), o, susp, u, reporter, now, k);
    }
  }

  /** A batch joins every member's record, whatever the suspicion flag and the entries are. */
  lemma {:induction false} BatchJoins(c: Core, o: Options, susp: bool, us: seq<Update>, reporter: NodeID,
          now: int, k: NodeID)
    requires k != c.local
    ensures var c' := ProcessUpdates(c, o, susp, us, reporter, now);
      c'.local == c.local && Joined(c, us, c', k)
  {
    hide ProcessUpdate;
    if us != [] {
      var n := |us| - 1;
      var c1 := ProcessUpdates(c, o, susp, us[..n], reporter, now);
      BatchJoins(c, o, susp, us[..n], reporter, now, k);
      UpdateJoins(c1, o, susp, us[n], reporter, now, k);
      JoinedSnoc(c, us, c1, ProcessUpdates(c, o, susp, us, reporter, now), k);
    }
  }

  lemma JoinedSnoc(c: Core, us: seq<Update>, c1: Core, c2: Core, k: NodeID)
    requires us != [] && Joined(c, us[..|us| - 1], c1, k)
    requires var u := us[|us| - 1];
      && (k in c2.table <==> k in c1.table || u.id == k)
      && (k in c2.table ==>
            c2.table[k].inc == if u.id != k then c1.table[k].inc
                               else if k in c1.table then Max(c1.table[k].inc, u.inc) else u.inc)
    ensures Joined(c, us, c2, k)
  {
    var n := |us| - 1;
    assert us == us[..n] + [us[n]];
    assert us[n] in us;
  }

  /** The join is determined by the set of updates. */
  lemma JoinedUnique(c1: Core, c2: Core, us1: seq<Update>, us2: seq<Update>, d1: Core, d2: Core, k: NodeID)
    requires SameIncs(c1, c2) && (forall u :: u in us1 <==> u in us2)
    requires Joined(c1, us1, d1, k) && Joined(c2, us2, d2, k)
    ensures k in d1.table <==> k in d2.table
    ensures k in d1.table ==> d1.table[k].inc == d2.table[k].inc
  {
  }

  /** Two nodes with the same incarnations that process the same updates, in any order, any number of
      times, under any suspicion flags, reporters, clocks and pending suspicions, end up with the same
      incarnations for everyone but themselves. */
  lemma OrderInsensitive(c1: Core, c2: Core, o1: Options, o2: Options, susp1: bool, susp2: bool,
                         us1: seq<Update>, us2: seq<Update>, r1: NodeID, r2: NodeID, now1: int, now2: int, k: NodeID)
    requires SameIncs(c1, c2) && (forall u :: u in us1 <==> u in us2) && k != c1.local
    ensures var d1 := ProcessUpdates(c1, o1, susp1, us1, r1, now1);
      var d2 := ProcessUpdates(c2, o2, susp2, us2, r2, now2);
      && (k in d1.table <==> k in d2.table)
      && (k in d1.table ==> d1.table[k].inc == d2.table[k].inc)
  {
    hide ProcessUpdates, Joined;
    BatchJoins(c1, o1, susp1, us1, r1, now1, k);
    BatchJoins(c2, o2, susp2, us2, r2, now2, k);
    JoinedUnique(c1, c2, us1, us2, ProcessUpdates(c1, o1, susp1, us1, r1, now1), ProcessUpdates(c2, o2, susp2, us2, r2, now2), k);
  }

  // ----- statuses, with suspicion disabled and no entry pending

  /** The status after an update at the recorded incarnation. */
  function Blend(was: Status, told: Status): Status {
    match told
    case Alive => Alive
    case Suspected => if was.Alive? then Suspected else was
    case Failed => was
  }

  function StatusAfter(c: Core, u: Update): Status {
    if u.id !in c.table || u.inc > c.table[u.id].inc then u.status
    else if u.inc == c.table[u.id].inc then Blend(c.table[u.id].status, u.status)
    else c.table[u.id].status
  }

  lemma UpdateStatus(c: Core, o: Options, u: Update, reporter: NodeID, now: int, k: NodeID)
    requires c.entries == map[] && k != c.local
    ensures var c' := ProcessUpdate(c, o, false, u, reporter, now);
      && c'.entries == map[] && c'.local == c.local
      && (u.id != k && k in c.table ==> k in c'.table && c'.table[k] == c.table[k])
      && (u.id == k ==> k in c'.table && c'.table[k].status == StatusAfter(c, u))
  {
    if u.id == c.local {
    } else if u.id !in c.table {
    } else {
      MergeStatus(c, u, now);
    }
  }

  lemma MergeStatus(c: Core, u: Update, now: int)
    requires u.id in c.table
    ensures var c' := MergeRecord(c, false, u, now);
      && c'.entries == c.entries && c'.local == c.local
      && c'.table.Keys == c.table.Keys
      && (forall k :: k in c.table && k != u.id ==> c'.table[k] == c.table[k])
      && c'.table[u.id].inc == Max(c.table[u.id].inc, u.inc)
      && (!u.status.Alive? || u.inc < c.table[u.id].inc ==> c'.table[u.id].status == StatusAfter(c, u))
  {
  }

  /** `u` is about `k` at incarnation `m`. */
  predicate AtTop(u: Update, k: NodeID, m: int) {
    u.id == k && u.inc == m
  }

  /** Some update about `k` at incarnation `m` carries status `st`. */
  ghost predicate Says(us: seq<Update>, k: NodeID, m: int, st: Status) {
    Update(k, m, st, 0) in Bare(us)
  }

  ghost predicate Heard(us: seq<Update>, k: NodeID, m: int) {
    Says(us, k, m, Alive) || Says(us, k, m, Suspected) || Says(us, k, m, Failed)
  }

  /** The updates without their time stamps, which play no part in merging. */
  ghost function Bare(us: seq<Update>): set<Update> {
    set u | u in us :: u.(stamp := 0)
  }

  predicate RecordedAt(c: Core, k: NodeID, m: int) {
    k in c.table && c.table[k].inc == m
  }

  /** `m` bounds what is recorded of `k` and what `us` say of it. */
  ghost predicate Bounds(c: Core, us: seq<Update>, k: NodeID, m: int) {
    && (k in c.table ==> c.table[k].inc <= m)
    && (forall u :: u in us && u.id == k ==> u.inc <= m)
  }

  /** `m` is the largest incarnation of `k` recorded or received. */
  ghost predicate Tops(c: Core, us: seq<Update>, k: NodeID, m: int) {
    Bounds(c, us, k, m) && (RecordedAt(c, k, m) || exists u :: u in us && AtTop(u, k, m))
  }

  /** The updates at the top disagree in a way that makes their order matter: Alive against Suspected, or
      Suspected against Failed when nothing was recorded at that incarnation. */
  ghost predicate Contested(c: Core, us: seq<Update>, k: NodeID, m: int) {
    || (Says(us, k, m, Alive) && Says(us, k, m, Suspected))
    || (!RecordedAt(c, k, m) && Says(us, k, m, Suspected) && Says(us, k, m, Failed))
  }

  /** The status at the top when the updates are not contested. */
  ghost function Settled(c: Core, us: seq<Update>, k: NodeID, m: int): Status {
    if Says(us, k, m, Alive) then Alive
    else if RecordedAt(c, k, m) then (if Says(us, k, m, Suspected) then Blend(c.table[k].status, Suspected) else c.table[k].status)
    else if Says(us, k, m, Suspected) then Suspected
    else Failed
  }

  lemma SaysSnoc(us: seq<Update>, u: Update, k: NodeID, m: int, st: Status)
    ensures Says(us + [u], k, m, st) <==> Says(us, k, m, st) || (AtTop(u, k, m) && u.status == st)
  {
    if Says(us + [u], k, m, st) {
      var v :| v in us + [u] && v.(stamp := 0) == Update(k, m, st, 0);
    }
    if Says(us, k, m, st) {
      var v :| v in us && v.(stamp := 0) == Update(k, m, st, 0);
      assert v in us + [u];
    }
    if AtTop(u, k, m) && u.status == st {
      assert u in us + [u] && u.(stamp := 0) == Update(k, m, st, 0);
    }
  }

  lemma SaysSource(us: seq<Update>, k: NodeID, m: int, st: Status) returns (u: Update)
    requires Says(us, k, m, st)
    ensures u in us && AtTop(u, k, m) && u.status == st
  {
    u :| u in us && u.(stamp := 0) == Update(k, m, st, 0);
  }

  lemma SaidIsHeard(us: seq<Update>, u: Update, k: NodeID, m: int)
    requires u in us && AtTop(u, k, m)
    ensures Says(us, k, m, u.status) && Heard(us, k, m)
  {
    assert u.(stamp := 0) == Update(k, m, u.status, 0);
    match u.status
    case Alive =>
    case Suspected =>
    case Failed =>
  }

  /** One more update, as far as the top is concerned. */
  lemma SettledSnoc(c: Core, us: seq<Update>, u: Update, k: NodeID, m: int)
    requires !Contested(c, us + [u], k, m)
    ensures !Contested(c, us, k, m)
    ensures AtTop(u, k, m) && (RecordedAt(c, k, m) || Heard(us, k, m)) ==>
      Settled(c, us + [u], k, m) == Blend(Settled(c, us, k, m), u.status)
    ensures AtTop(u, k, m) && !RecordedAt(c, k, m) && !Heard(us, k, m) ==>
      Settled(c, us + [u], k, m) == u.status
    ensures !AtTop(u, k, m) ==> Settled(c, us + [u], k, m) == Settled(c, us, k, m)
  {
    hide Says;
    SaysSnoc(us, u, k, m, Alive);
    SaysSnoc(us, u, k, m, Suspected);
    SaysSnoc(us, u, k, m, Failed);
  }

  /** Has `k` been recorded at `m` by the time `us` have been processed? */
  lemma ReachedTop(c: Core, o: Options, us: seq<Update>, reporter: NodeID, now: int, k: NodeID, m: int)
    requires k != c.local && Bounds(c, us, k, m)
    ensures RecordedAt(ProcessUpdates(c, o, false, us, reporter, now), k, m)
       <==> RecordedAt(c, k, m) || Heard(us, k, m)
  {
    hide ProcessUpdates;
    var c' := ProcessUpdates(c, o, false, us, reporter, now);
    BatchJoins(c, o, false, us, reporter, now, k);
    if Heard(us, k, m) {
      var st :| Says(us, k, m, st);
      var u := SaysSource(us, k, m, st);
    }
    if u :| u in us && AtTop(u, k, m) {
      SaidIsHeard(us, u, k, m);
    }
  }

  lemma {:induction false} BatchStatus(c: Core, o: Options, us: seq<Update>, reporter: NodeID, now: int, k: NodeID, m: int)
    requires c.entries == map[] && k != c.local && Bounds(c, us, k, m) && !Contested(c, us, k, m)
    ensures var c' := ProcessUpdates(c, o, false, us, reporter, now);
      && c'.entries == map[] && c'.local == c.local
      && (RecordedAt(c', k, m) ==> c'.table[k].status == Settled(c, us, k, m))
  {
    hide ProcessUpdate, Contested, Settled, Says;
    if us == [] {
      NothingSaid(c, k, m);
    } else {
      var n := |us| - 1;
      var before, u := us[..n], us[n];
      var c1 := ProcessUpdates(c, o, false, before, reporter, now);
      assert us == before + [u] && u in us;
      SettledSnoc(c, before, u, k, m);
      BatchStatus(c, o, before, reporter, now, k, m);
      ReachedTop(c, o, before, reporter, now, k, m);
      BatchJoins(c, o, false, before, reporter, now, k);
      UpdateStatus(c1, o, u, reporter, now, k);
      UpdateJoins(c1, o, false, u, reporter, now, k);
    }
  }

  lemma NothingSaid(c: Core, k: NodeID, m: int)
    ensures RecordedAt(c, k, m) ==> Settled(c, [], k, m) == c.table[k].status
  {
  }

  ghost predicate SameUpdates(us: seq<Update>, vs: seq<Update>) {
    forall u :: u in us <==> u in vs
  }

  /** What is recorded of the status of `k` after a batch. */
  function FinalStatus(c: Core, o: Options, us: seq<Update>, reporter: NodeID, now: int, k: NodeID): Option<Status> {
    var c' := ProcessUpdates(c, o, false, us, reporter, now);
    if k in c'.table then Some(c'.table[k].status) else None
  }

  /** Every order and repetition of the batch, from whomever and whenever, leads to the same status. */
  ghost predicate Convergent(c: Core, o: Options, us: seq<Update>, k: NodeID) {
    forall vs, ws, r1, r2, t1, t2 :: SameUpdates(us, vs) && SameUpdates(us, ws) ==>
      FinalStatus(c, o, vs, r1, t1, k) == FinalStatus(c, o, ws, r2, t2, k)
  }

  lemma UncontestedFinal(c: Core, o: Options, us: seq<Update>, vs: seq<Update>, r: NodeID, t: int, k: NodeID, m: int)
    requires c.entries == map[] && k != c.local && Tops(c, us, k, m) && !Contested(c, us, k, m) && SameUpdates(us, vs)
    ensures FinalStatus(c, o, vs, r, t, k) == Some(Settled(c, us, k, m))
  {
    hide ProcessUpdates, Contested, Settled;
    assert Bare(us) == Bare(vs);
    assert !Contested(c, vs, k, m) && Settled(c, us, k, m) == Settled(c, vs, k, m) by {
      SaidAlike(c, us, vs, k, m);
    }
    BatchStatus(c, o, vs, r, t, k, m);
    BatchJoins(c, o, false, vs, r, t, k);
    if !RecordedAt(c, k, m) {
      var u :| u in us && AtTop(u, k, m);
      assert u in vs;
    }
  }

  lemma SaidAlike(c: Core, us: seq<Update>, vs: seq<Update>, k: NodeID, m: int)
    requires Bare(us) == Bare(vs)
    ensures Contested(c, us, k, m) == Contested(c, vs, k, m) && Settled(c, us, k, m) == Settled(c, vs, k, m)
  {
    hide Bare;
  }

  // ----- contested updates

  lemma {:induction false} BatchInTwo(c: Core, o: Options, us: seq<Update>, vs: seq<Update>, r: NodeID, now: int)
    ensures ProcessUpdates(c, o, false, us + vs, r, now)
         == ProcessUpdates(ProcessUpdates(c, o, false, us, r, now), o, false, vs, r, now)
    decreases |vs|
  {
    hide ProcessUpdate;
    if vs == [] {
      assert us + vs == us;
    } else {
      var n := |vs| - 1;
      assert (us + vs)[..|us + vs| - 1] == us + vs[..n];
      BatchInTwo(c, o, us, vs[..n], r, now);
    }
  }

  lemma OneUpdate(c: Core, o: Options, u: Update, r: NodeID, now: int)
    ensures ProcessUpdates(c, o, false, [u], r, now) == ProcessUpdate(c, o, false, u, r, now)
  {
    hide ProcessUpdate;
    assert [u][..0] == [];
  }

  /** A top update that comes last: Alive has the last word, and Suspected has it over Alive. */
  lemma LastWord(c: Core, o: Options, u: Update, r: NodeID, now: int, k: NodeID, m: int)
    requires c.entries == map[] && k != c.local && RecordedAt(c, k, m) && AtTop(u, k, m)
    ensures var c' := ProcessUpdates(c, o, false, [u], r, now);
      c'.entries == map[] && c'.local == c.local && RecordedAt(c', k, m) && c'.table[k].status == Blend(c.table[k].status, u.status)
  {
    hide ProcessUpdate;
    OneUpdate(c, o, u, r, now);
    UpdateStatus(c, o, u, r, now, k);
    UpdateJoins(c, o, false, u, r, now, k);
  }

  lemma {:induction false} NoEntries(c: Core, o: Options, us: seq<Update>, r: NodeID, now: int, k: NodeID)
    requires c.entries == map[] && k != c.local
    ensures ProcessUpdates(c, o, false, us, r, now).entries == map[] && ProcessUpdates(c, o, false, us, r, now).local == c.local
  {
    hide ProcessUpdate;
    if us != [] {
      var n := |us| - 1;
      NoEntries(c, o, us[..n], r, now, k);
      UpdateStatus(ProcessUpdates(c, o, false, us[..n], r, now), o, us[n], r, now, k);
    }
  }

  /** The batch followed by two of its own top updates. */
  lemma TwoMore(c: Core, o: Options, us: seq<Update>, u: Update, v: Update, r: NodeID, now: int, k: NodeID, m: int)
    requires c.entries == map[] && k != c.local && Bounds(c, us, k, m)
    requires u in us && v in us && AtTop(u, k, m) && AtTop(v, k, m)
    ensures SameUpdates(us, us + [u] + [v])
    ensures exists was :: FinalStatus(c, o, us + [u] + [v], r, now, k) == Some(Blend(Blend(was, u.status), v.status))
  {
    hide ProcessUpdates;
    var c1 := ProcessUpdates(c, o, false, us, r, now);
    NoEntries(c, o, us, r, now, k);
    SaidIsHeard(us, u, k, m);
    ReachedTop(c, o, us, r, now, k, m);
    BatchInTwo(c, o, us, [u], r, now);
    BatchInTwo(c, o, us + [u], [v], r, now);
    LastWord(c1, o, u, r, now, k, m);
    LastWord(ProcessUpdates(c1, o, false, [u], r, now), o, v, r, now, k, m);
  }

  /** The batch preceded by a top update of its own, when nothing was recorded at the top and nobody says
      Alive: whichever comes first stays. */
  lemma OneFirst(c: Core, o: Options, us: seq<Update>, u: Update, r: NodeID, now: int, k: NodeID, m: int)
    requires c.entries == map[] && k != c.local && Bounds(c, us, k, m) && !RecordedAt(c, k, m)
    requires u in us && AtTop(u, k, m) && !u.status.Alive? && !Says(us, k, m, Alive)
    ensures SameUpdates(us, [u] + us)
    ensures FinalStatus(c, o, [u] + us, r, now, k) == Some(u.status)
  {
    hide ProcessUpdate;
    var c1 := ProcessUpdates(c, o, false, [u], r, now);
    OneUpdate(c, o, u, r, now);
    UpdateStatus(c, o, u, r, now, k);
    UpdateJoins(c, o, false, u, r, now, k);
    assert RecordedAt(c1, k, m) && c1.table[k].status == u.status;
    BatchInTwo(c, o, [u], us, r, now);
    hide ProcessUpdates;
    BatchStatus(c1, o, us, r, now, k, m);
    ReachedTop(c1, o, us, r, now, k, m);
  }

  lemma ContestedDiverges(c: Core, o: Options, us: seq<Update>, k: NodeID, m: int)
    requires c.entries == map[] && k != c.local && Tops(c, us, k, m) && Contested(c, us, k, m)
    ensures !Convergent(c, o, us, k)
  {
    hide FinalStatus, Says, Bounds;
    var r, t := k, 0;
    assert Bounds(c, us, k, m);
    var s := SaysSource(us, k, m, Suspected);
    if Says(us, k, m, Alive) {
      var a := SaysSource(us, k, m, Alive);
      TwoMore(c, o, us, s, a, r, t, k, m);
      TwoMore(c, o, us, a, s, r, t, k, m);
      assert FinalStatus(c, o, us + [s] + [a], r, t, k) != FinalStatus(c, o, us + [a] + [s], r, t, k);
    } else {
      var f := SaysSource(us, k, m, Failed);
      OneFirst(c, o, us, s, r, t, k, m);
      OneFirst(c, o, us, f, r, t, k, m);
      assert FinalStatus(c, o, [s] + us, r, t, k) != FinalStatus(c, o, [f] + us, r, t, k);
    }
  }

  /** With suspicion disabled and no suspicion pending, the final status of a member is the same for every
      order and repetition of a batch if and only if the updates at its largest incarnation are not
      contested. */
  lemma StatusConverges(c: Core, o: Options, us: seq<Update>, k: NodeID, m: int)
    requires c.entries == map[] && k != c.local && Tops(c, us, k, m)
    ensures Convergent(c, o, us, k) <==> !Contested(c, us, k, m)
    ensures !Contested(c, us, k, m) ==> forall r, t :: FinalStatus(c, o, us, r, t, k) == Some(Settled(c, us, k, m))
  {
    hide FinalStatus, Says, Tops, Contested, Settled;
    if Contested(c, us, k, m) {
      ContestedDiverges(c, o, us, k, m);
    } else {
      forall vs, r, t | SameUpdates(us, vs)
        ensures FinalStatus(c, o, vs, r, t, k) == Some(Settled(c, us, k, m))
      {
        UncontestedFinal(c, o, us, vs, r, t, k, m);
      }
    }
  }

  /** The shortest contest: Suspected and Alive at the recorded incarnation, in the two orders. */
  lemma LastWriterWins(c: Core, o: Options, k: NodeID, r: NodeID, now: int)
    requires c.entries == map[] && k != c.local && k in c.table && c.table[k].status.Alive?
    ensures var inc := c.table[k].inc;
      var s, a := Update(k, inc, Suspected, now), Update(k, inc, Alive, now);
      var d1, d2 := ProcessUpdates(c, o, false, [s, a], r, now), ProcessUpdates(c, o, false, [a, s], r, now);
      k in d1.table && d1.table[k].status.Alive? && k in d2.table && d2.table[k].status.Suspected?
  {
    hide ProcessUpdate;
    var inc := c.table[k].inc;
    var s, a := Update(k, inc, Suspected, now), Update(k, inc, Alive, now);
    TwoUpdates(c, o, s, a, r, now);
    TwoUpdates(c, o, a, s, r, now);
    UpdateStatus(c, o, s, r, now, k);
    UpdateJoins(c, o, false, s, r, now, k);
    UpdateStatus(ProcessUpdate(c, o, false, s, r, now), o, a, r, now, k);
    UpdateStatus(c, o, a, r, now, k);
    UpdateJoins(c, o, false, a, r, now, k);
    UpdateStatus(ProcessUpdate(c, o, false, a, r, now), o, s, r, now, k);
  }

  lemma TwoUpdates(c: Core, o: Options, u: Update, v: Update, r: NodeID, now: int)
    ensures ProcessUpdates(c, o, false, [u, v], r, now) == ProcessUpdate(ProcessUpdate(c, o, false, u, r, now), o, false, v, r, now)
  {
    hide ProcessUpdate;
    assert [u, v][..1] == [u] && [u][..0] == [];
    assert ProcessUpdates(c, o, false, [u], r, now) == ProcessUpdate(c, o, false, u, r, now);
  }
}
