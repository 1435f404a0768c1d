/** Why the goroutines of a process never wait for each other in a circle. */
module Locks {
  import opened Types

  /** The manager's mutex, the ping/ack detector's mutex, the gossip detector's mutex, and the membership
      list's read-write lock. */
  datatype Lock = ManagerMu | PingAckMu | GossipMu | Membership

  /** The locking a piece of code does. */
  datatype Code =
    | Nop
    | Acquire(lock: Lock, shared: bool)
    | Release(lock: Lock)
    | Then(first: Code, second: Code)
    | Either(left: Code, right: Code)
    | Repeat(body: Code)

  /** What a goroutine holds. */
  datatype Hold = Hold(lock: Lock, shared: bool)

  /** A goroutine: the code it still has to run, and the lock it holds. */
  datatype Thread = Thread(todo: seq<Code>, held: Option<Hold>)

  // ----- the discipline

  datatype Verdict = Rejected | Leaves(held: Option<Hold>)

  /** Follows the code from a given hold: no lock is acquired while one is held, none is released that is
      not held, both branches of a choice agree, and a loop ends as it started. */
  function Follow(code: Code, held: Option<Hold>): Verdict {
    match code
    case Nop => Leaves(held)
    case Acquire(l, shared) => if held.None? then Leaves(Some(Hold(l, shared))) else Rejected
    case Release(l) => if held.Some? && held.value.lock == l then Leaves(None) else Rejected
    case Then(a, b) =>
      (match Follow(a, held)
       case Rejected => Rejected
       case Leaves(h) => Follow(b, h))
    case Either(a, b) => if Follow(a, held) == Follow(b, held) then Follow(a, held) else Rejected
    case Repeat(a) => if Follow(a, held) == Leaves(held) then Leaves(held) else Rejected
  }

  function FollowAll(todo: seq<Code>, held: Option<Hold>): Verdict {
    if todo == [] then Leaves(held)
    else
      match Follow(todo[0], held)
      case Rejected => Rejected
      case Leaves(h) => FollowAll(todo[1..], h)
  }

  /** The goroutine will end without a lock, and never asks for one while it holds one. */
  predicate Disciplined(t: Thread) {
    FollowAll(t.todo, t.held) == Leaves(None)
  }

  // ----- running

  predicate Holds(threads: map<nat, Thread>, j: nat, l: Lock) {
    j in threads && threads[j].held.Some? && threads[j].held.value.lock == l
  }

  predicate Asks(threads: map<nat, Thread>, j: nat, l: Lock, shared: bool) {
    j in threads && threads[j].todo != [] && threads[j].todo[0] == Acquire(l, shared)
  }

  /** May a goroutine take the lock now? An exclusive hold needs nobody to hold it; a shared one needs no
      exclusive holder and, as Go's RWMutex has it, no exclusive request waiting. */
  ghost predicate Available(threads: map<nat, Thread>, l: Lock, shared: bool) {
    && (forall j :: Holds(threads, j, l) ==> shared && threads[j].held.value.shared)
    && (shared ==> forall j :: !Asks(threads, j, l, false))
  }

  /** One step of goroutine `i` turns it into `t'`. */
  ghost predicate Steps(threads: map<nat, Thread>, i: nat, t': Thread)
    requires i in threads
  {
    var t := threads[i];
    t.todo != [] &&
    var rest := t.todo[1..];
    match t.todo[0]
    case Nop => t' == Thread(rest, t.held)
    case Acquire(l, shared) => Available(threads, l, shared) && t' == Thread(rest, Some(Hold(l, shared)))
    case Release(l) => t.held.Some? && t.held.value.lock == l && t' == Thread(rest, None)
    case Then(a, b) => t' == Thread([a, b] + rest, t.held)
    case Either(a, b) => t' == Thread([a] + rest, t.held) || t' == Thread([b] + rest, t.held)
    case Repeat(a) => t' == Thread(rest, t.held) || t' == Thread([a, Repeat(a)] + rest, t.held)
  }

  lemma FollowTwo(a: Code, b: Code, rest: seq<Code>, held: Option<Hold>)
    ensures FollowAll([a, b] + rest, held) ==
      match Follow(Then(a, b), held)
      case Rejected => Rejected
      case Leaves(h) => FollowAll(rest, h)
  {
    assert ([a, b] + rest)[1..] == [b] + rest && ([b] + rest)[1..] == rest;
  }

  lemma FollowOne(a: Code, rest: seq<Code>, held: Option<Hold>)
    ensures FollowAll([a] + rest, held) ==
      match Follow(a, held)
      case Rejected => Rejected
      case Leaves(h) => FollowAll(rest, h)
  {
    assert ([a] + rest)[1..] == rest;
  }

  /** A disciplined goroutine stays disciplined. */
  lemma StaysDisciplined(threads: map<nat, Thread>, i: nat, t': Thread)
    requires i in threads && Disciplined(threads[i]) && Steps(threads, i, t')
    ensures Disciplined(t')
  {
    var t := threads[i];
    var rest := t.todo[1..];
    assert t.todo == [t.todo[0]] + rest;
    match t.todo[0]
    case Then(a, b) => FollowTwo(a, b, rest, t.held);
    case Either(a, b) =>
      FollowOne(a, rest, t.held);
      FollowOne(b, rest, t.held);
    case Repeat(a) =>
      FollowTwo(a, Repeat(a), rest, t.held);
    case _ =>
  }

  /** A disciplined goroutine that holds a lock is not waiting for one. */
  lemma HolderMoves(threads: map<nat, Thread>, i: nat) returns (t': Thread)
    requires i in threads && Disciplined(threads[i])
    requires threads[i].todo != [] && !threads[i].todo[0].Acquire?
    ensures Steps(threads, i, t')
  {
    var t := threads[i];
    var rest := t.todo[1..];
    match t.todo[0]
    case Nop => t' := Thread(rest, t.held);
    case Release(_) => t' := Thread(rest, None);
    case Then(a, b) => t' := Thread([a, b] + rest, t.held);
    case Either(a, _) => t' := Thread([a] + rest, t.held);
    case Repeat(_) => t' := Thread(rest, t.held);
  }

  lemma HolderNotAsking(t: Thread)
    requires Disciplined(t) && t.held.Some?
    ensures t.todo != [] && !t.todo[0].Acquire?
  {
  }

  /** Deadlock freedom: however many disciplined goroutines there are and however they have been
      interleaved, as long as one is unfinished, one of them can take a step. */
  lemma SomeoneMoves(threads: map<nat, Thread>, i: nat) returns (j: nat, t': Thread)
    requires forall k :: k in threads ==> Disciplined(threads[k])
    requires i in threads && threads[i].todo != []
    ensures j in threads && Steps(threads, j, t')
  {
    hide Disciplined;
    if !threads[i].todo[0].Acquire? {
      j := i;
      t' := HolderMoves(threads, j);
    } else {
      var Acquire(l, shared) := threads[i].todo[0];
      if k :| Holds(threads, k, l) {
        HolderNotAsking(threads[k]);
        j := k;
        t' := HolderMoves(threads, j);
      } else if k :| Asks(threads, k, l, false) {
        j := k;
        t' := Thread(threads[k].todo[1..], Some(Hold(l, false)));
      } else {
        j := i;
        t' := Thread(threads[i].todo[1..], Some(Hold(l, shared)));
      }
    }
  }

  /** Any interleaving, with goroutines started at any time. */
  ghost predicate Schedule(pools: seq<map<nat, Thread>>) {
    && pools != []
    && (forall k :: k in pools[0] ==> Disciplined(pools[0][k]))
    && forall n :: 0 <= n < |pools| - 1 ==> Scheduled(pools[n], pools[n + 1])
  }

  ghost predicate Scheduled(pool: map<nat, Thread>, pool': map<nat, Thread>) {
    || (exists i: nat, t: Thread :: Moved(pool, pool', i, t))
    || (exists i: nat, t: Thread :: Joined(pool, pool', i, t))
  }

  ghost predicate Moved(pool: map<nat, Thread>, pool': map<nat, Thread>, i: nat, t: Thread) {
    i in pool && Steps(pool, i, t) && pool' == pool[i := t]
  }

  ghost predicate Joined(pool: map<nat, Thread>, pool': map<nat, Thread>, i: nat, t: Thread) {
    i !in pool && Disciplined(t) && t.held.None? && pool' == pool[i := t]
  }

  lemma {:induction false} NeverStuck(pools: seq<map<nat, Thread>>, n: nat, i: nat)
    requires Schedule(pools) && n < |pools| && i in pools[n] && pools[n][i].todo != []
    ensures exists j, t' :: j in pools[n] && Steps(pools[n], j, t')
  {
    hide Steps;
    PoolDisciplined(pools, n);
    var j, t' := SomeoneMoves(pools[n], i);
  }

  lemma {:induction false} PoolDisciplined(pools: seq<map<nat, Thread>>, n: nat)
    requires Schedule(pools) && n < |pools|
    ensures forall k :: k in pools[n] ==> Disciplined(pools[n][k])
    decreases n
  {
    hide Steps, Disciplined;
    if n > 0 {
      PoolDisciplined(pools, n - 1);
      var pool, pool' := pools[n - 1], pools[n];
      assert Scheduled(pool, pool');
      if i: nat, t: Thread :| Moved(pool, pool', i, t) {
        StaysDisciplined(pool, i, t);
      }
    }
  }

  // ----- the code

  function Critical(l: Lock): Code {
    Then(Acquire(l, false), Release(l))
  }

  const READ := Then(Acquire(Membership, true), Release(Membership))
  const WRITE := Critical(Membership)

  /** The tail of ProcessSuspicion from the point where the entry is at hand: the report is added, the
      lock released, and the table updated if the threshold was reached. */
  const LODGE := Then(Release(ManagerMu), Either(Nop, WRITE))

  /** No entry: the lock is given up to read the table, and taken again if the report is current. */
  const ABSENT_ENTRY :=
    Then(Release(ManagerMu), Then(WRITE, Either(Nop, Then(Acquire(ManagerMu, false), LODGE))))

  /** A suspicion of oneself takes the membership lock for the counter and again for the recipients. */
  const PROCESS_SUSPICION :=
    Either(
      Then(WRITE, WRITE),
      Then(Acquire(ManagerMu, false),
           Either(Release(ManagerMu), Either(LODGE, ABSENT_ENTRY))))

  const CLEAR_SUSPECT :=
    Then(Acquire(ManagerMu, false),
         Either(Then(Release(ManagerMu), WRITE), Either(Release(ManagerMu), Then(Release(ManagerMu), WRITE))))

  const CHECK := Then(Critical(ManagerMu), Either(Nop, WRITE))

  const ESCALATE := Then(Either(Nop, PROCESS_SUSPICION), Either(Nop, CLEAR_SUSPECT))

  const PROCESS_UPDATE :=
    Either(
      Either(PROCESS_SUSPICION, Either(CLEAR_SUSPECT, Nop)),
      Then(Acquire(Membership, false),
           Either(Release(Membership), Then(Release(Membership), ESCALATE))))

  const DECLARE_SUSPICION := Either(Then(WRITE, PROCESS_SUSPICION), WRITE)

  /** The sequence number, the update log, the pending probe. */
  const BEGIN_PERIOD := Then(Critical(PingAckMu), Then(WRITE, Critical(PingAckMu)))

  const GIVE_UP := Then(Critical(PingAckMu), DECLARE_SUSPICION)

  const NO_DIRECT_ACK := Then(READ, Either(GIVE_UP, Either(Critical(PingAckMu), GIVE_UP)))

  const ADVERTISE_SELF := Then(READ, Either(Nop, WRITE))

  const ADVERTISE_OTHERS := Then(Repeat(WRITE), Then(READ, Then(Repeat(WRITE), WRITE)))

  datatype Operation =
    | ProcessSuspicion | ClearSuspect | ManagerCheck | ManagerStart | ManagerStop
    | PingPeriod | PingCheck | PingCleanup
    | HandlePing | HandleAck | HandleIndirectPing | ProxyWaiter | HandleIndirectAck
    | HandleJoin | HandleJoinResponse | HandleAlive | HandleSuspect | HandleLeave | HandleConfirm
    | GossipRound | GossipCheck | GossipStart | GossipStop
    | JoinGroup | LeaveGroup | RunCallback

  /** The locking of every operation, in program order. */
  function CodeOf(op: Operation): Code {
    match op
    case ProcessSuspicion => PROCESS_SUSPICION
    case ClearSuspect => CLEAR_SUSPECT
    case ManagerCheck => CHECK
    case ManagerStart => Then(Acquire(ManagerMu, false), Either(Release(ManagerMu), Release(ManagerMu)))
    case ManagerStop =>
      Then(Acquire(ManagerMu, false), Either(Release(ManagerMu), Then(Release(ManagerMu), Critical(ManagerMu))))
    case PingPeriod => Then(READ, Either(Nop, Then(BEGIN_PERIOD, Either(Critical(PingAckMu), NO_DIRECT_ACK))))
    case PingCheck => Then(WRITE, Repeat(WRITE))
    case PingCleanup => Critical(PingAckMu)
    case HandlePing => Either(Nop, Then(WRITE, Repeat(PROCESS_UPDATE)))
    case HandleAck => Either(Nop, Then(WRITE, Then(CLEAR_SUSPECT, Then(Critical(PingAckMu), Critical(PingAckMu)))))
    case HandleIndirectPing => Either(Nop, Then(WRITE, Then(Critical(PingAckMu), Then(Repeat(PROCESS_UPDATE), WRITE))))
    case ProxyWaiter => Critical(PingAckMu)
    case HandleIndirectAck => Either(Nop, Then(Critical(PingAckMu), Then(WRITE, CLEAR_SUSPECT)))
    case HandleJoin => Either(Nop, Then(WRITE, Then(Repeat(WRITE), WRITE)))
    case HandleJoinResponse => Either(Nop, Then(WRITE, Repeat(CLEAR_SUSPECT)))
    case HandleAlive => Either(Nop, Then(WRITE, CLEAR_SUSPECT))
    case HandleSuspect => Either(Nop, PROCESS_SUSPICION)
    case HandleLeave => WRITE
    case HandleConfirm => Either(Nop, WRITE)
    case GossipRound => Then(READ, Either(Nop, Then(ADVERTISE_SELF, ADVERTISE_OTHERS)))
    case GossipCheck => Then(WRITE, Then(Repeat(Then(WRITE, Either(Nop, PROCESS_SUSPICION))), Repeat(WRITE)))
    case GossipStart =>
      Then(Acquire(GossipMu, false), Either(Release(GossipMu), Release(GossipMu)))
    case GossipStop =>
      Then(Acquire(GossipMu, false), Either(Release(GossipMu), Then(Release(GossipMu), Critical(GossipMu))))
    case JoinGroup => Either(Nop, WRITE)
    case LeaveGroup => READ
    case RunCallback => WRITE
  }

  /** Code that starts and ends without a lock. */
  predicate Clean(code: Code) {
    Follow(code, None) == Leaves(None)
  }

  lemma CleanRules()
    ensures Clean(Nop)
    ensures forall l {:trigger Clean(Critical(l))} :: Clean(Critical(l))
    ensures forall a, b {:trigger Clean(Then(a, b))} :: Clean(a) && Clean(b) ==> Clean(Then(a, b))
    ensures forall a, b {:trigger Clean(Either(a, b))} :: Clean(a) && Clean(b) ==> Clean(Either(a, b))
    ensures forall a {:trigger Clean(Repeat(a))} :: Clean(a) ==> Clean(Repeat(a))
  {
    forall l ensures Clean(Critical(l)) {
      assert Follow(Acquire(l, false), None) == Leaves(Some(Hold(l, false)));
      assert Follow(Release(l), Some(Hold(l, false))) == Leaves(None);
    }
  }

  /** The pieces that release a lock in the middle of a branch. */
  lemma PiecesClean()
    ensures Clean(READ) && Clean(WRITE)
    ensures Clean(PROCESS_SUSPICION) && Clean(CLEAR_SUSPECT) && Clean(CHECK)
    ensures Clean(PROCESS_UPDATE) && Clean(DECLARE_SUSPICION)
    ensures Clean(CodeOf(GossipStart)) && Clean(CodeOf(GossipStop))
    ensures Clean(CodeOf(ManagerStart)) && Clean(CodeOf(ManagerStop))
  {
  }

  /** Every operation holds at most one of the locks at a time and asks for none while it holds one. */
  lemma OperationsDisciplined(op: Operation)
    ensures Disciplined(Thread([CodeOf(op)], None))
  {
    assert Clean(CodeOf(op)) by {
      hide Follow, Clean, Critical;
      PiecesClean();
      CleanRules();
    }
    FollowOne(CodeOf(op), [], None);
    assert [CodeOf(op)] + [] == [CodeOf(op)];
  }
}
