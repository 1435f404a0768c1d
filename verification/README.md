# A SWIM-style membership protocol, modelled and proved in Dafny

The system keeps a membership table on every node of a cluster. Nodes watch each other with one of two
failure detectors (ping/ack with indirect probes, or gossiped heartbeats), suspect a silent node before
declaring it failed, and let a node that is suspected wrongly refute the suspicion by raising its
*incarnation* number. The scheme is that of Das, Gupta and Motivala, "SWIM: Scalable Weakly-consistent
Infection-style Process Group Membership Protocol" (DSN 2002); suspicion and incarnations are its section 4.2.

The project models it at two levels that share one specification.

**Transitions on values** (`SuspicionSpec`, `DetectorSpec`, `PingAckSpec`, `GossipSpec`, `CallbackSpec`,
`UpdateLogSpec`). Every operation is a function from the state of one process to its next state, with the
code's branches, thresholds, defaults and 32-bit increment.

**Objects** (`MembershipList.dfy`, `SuspicionManager.dfy`, `Detector.dfy`, `PingAckManager.dfy`,
`GossipManager.dfy`, `Controller.dfy`). The same operations as methods that change member records, suspicion
entries, pending probes, proxy waiters and the update log in place, with the source's loops. Each method is
proved equal, through the object's `View`, to the transition of the same name, for its whole new state.

**The cluster** (`Cluster.dfy`). Any number of processes, a network that may lose, duplicate, delay and
reorder every packet, callbacks that run late, and one step per handler, timer tick, segment of the ping
loop, proxy goroutine or callback. Map iteration orders, random selections and clock readings are free
arguments of a step. The theorems about runs are inductive invariants of this system.

What a message or a timer makes of one member is pinned by an independent table of judgements (`Words.dfy`,
`Timers.dfy`): the handlers write a record and then turn to the manager, which writes it again, and the table says in
one go what comes of both. `Verdicts.dfy` and `Records.dfy` draw the consequences; `Probes.dfy`, `Spreading.dfy` and
`JoinHandshake.dfy` follow packets from end to end.

Three properties are proved on machines of their own: the life of a suspicion at the granularity of the
manager's lock sections (`SuspicionHistory.dfy`, `ConfirmationSpacing.dfy`), the time the two detectors' checks
need (`Removal.dfy`, `PingRemoval.dfy`), and deadlock freedom (`Locks.dfy`). `SuspicionInRuns.dfy` carries the
first back to the cluster: every step of a process moves its suspicion entries by a sequence of the manager's
operations. `SilentHistory.dfy` does the same for the second: a step that does not concern a member, its callbacks
run at once, is one of the moments those theorems are about.

## What the code does not guarantee

Seven claims one would like to make are false of the code. Each is stated with the exact condition under
which it holds, and with runs or inputs that show the failure.

- README.md:120 says that incarnation numbers avoid stale overwrites. Exactly four kinds of step lower the
  incarnation of a member they do not delete (`Monotone.StaleOverwrite`): a late `OnSuspect`, a late `OnConfirm`
  and a Join delivered again, each with a run of its own in `StaleOverwrites`, and the taking over of a recorded
  identity. The last lowers nothing as long as no node is credited with more than its own counter
  (`StaleOverwrites.TakeoverHarmless`); once that bound is broken and a clock is set back, it does
  (`StaleOverwrites.TakeoverLowers`).
- `OnClear` signs the cleared member's incarnation in the name of the node that runs it. It keeps "no node is
  credited with more than its own counter" if and only if that incarnation is no larger than the local
  counter or there is nobody to tell (`Incarnations.DishonestClearBreaks`); a run of thirteen steps of two
  processes breaks it (`BorrowedIncarnation.BoundBroken`). For the same reason a clear does not spread: its message
  says nothing of the cleared member to anyone (`Spreading.ClearMisattributed`).
- Statuses need not converge. With suspicion off and no entry pending, the status of a member after a batch of
  updates is the same for every order and repetition of the batch if and only if the updates at its largest
  incarnation do not contain both Alive and Suspected, nor, when nothing was recorded at that incarnation, both
  Suspected and Failed (`Merge.StatusConverges`).
- Two confirmations of one suspicion need not be a retention and a timeout apart, because `ProcessSuspicion` reads
  its clock before it first takes the manager's lock (utils/suspicion.go:90, 98) and lets go of the lock in the
  middle. `LateLookupConfirmsTwice` and `RaceConfirmsTwice` are the shortest failures. With positive timeouts, all
  later confirmations are spaced if and only if the clock has already passed the retention and no call is left that
  read it before and can still bring a new suspicion to the threshold (`ConfirmationSpacing.ConfirmedExactly`);
  `DroppedExactly` says the same at the tick that ends the retention. Whole operations on a rising clock are always
  spaced (`ConfirmationsSpaced`).
- A Ping or a Heartbeat from a suspected member makes its record Alive, and detectors/gossip.go:302 logs the
  suspicion as refuted, but the manager's entry stays. The member is failed at the first tick at which that entry is
  due unless a clear at its incarnation or a report above it has come since (`Leftover.FailedUnlessCalledOff`),
  even if it has been Alive all along (`Leftover.AliveYetFailed`).

- A failed member that makes itself heard is not taken back at the incarnation at which it failed if it is by its own
  Ping or Heartbeat, but it is if it is by an Ack, an Alive message, a proxy's word or a mere rumour. `Records.Revival`
  has the exact condition for every kind of message.
- Giving a suspected member its time is not independent of how the suspicion was heard. With suspicion off a rumour
  of it at a new incarnation does not start the member's clock, so that the next check of either detector removes
  the member at once unless an earlier suspicion started it (`Records.RumourTimesRemoval`).

Two comments differ from the code, which the model follows: utils/suspicion.go:50 speaks of a default
retention of 30 seconds where the code sets 3, and README.md:130 calls the gossip detector something still to
be activated, though it is implemented.

## Reading order

`Types`, the `...Spec` files, `Cluster`; then `Claims` and `Incarnations`, `Refutation`, and the other theorem
files in any order; the object files last. Maps the code keys by strings are keyed here by the values behind
the strings, which `Keys.dfy` justifies.

## Model

| member | source | states |
|---|---|---|
| Incarnations.Ceiling | utils/suspicion.go:202-211 | In every reachable state, late callbacks included, every incarnation in a table, log, entry, waiter, pending callback or packet is at most the largest own counter of any process, which is at most the number of self-refutations so far |
| Incarnations.NoOverflow | utils/suspicion.go:204-211 | With fewer than 2^31-1 refutations in the run, no refutation wraps: it yields the larger of the two incarnations plus one |
| Incarnations.WrapsExactly | utils/suspicion.go:204-211 | A refutation exceeds both the counter and the suspicion if and only if neither is 2147483647; otherwise it wraps to -2147483648 |
| Incarnations.OwnerBound | utils/suspicion.go:202-218 | In a run whose OnClear callbacks sign nothing above the local counter (or reach nobody), nothing attributes to a node more than its own process's counter, and the counter is exactly the number of that process's refutations |
| Refutation.LargerNeverArrives | utils/suspicion.go:204-211 | From a state within the bound no step takes the branch for a larger incoming incarnation: every refutation moves the counter by exactly one, and a Suspect message or any update of a piggyback about the process is not above the counter when its turn comes |
| Incarnations.DishonestClearBreaks | main.go:97-125 | An OnClear step keeps the bound per owner if and only if its incarnation is at most the local counter or it has no recipients |
| BorrowedIncarnation.BoundBroken | main.go:116-123 | For every configuration there is a thirteen-step run in which the bound holds until its last step, an OnClear callback, breaks it |
| Claims.ActAdvances | utils/suspicion.go:202-211 | For any bound on the claims about each node: no step other than a change of identity or an OnClear that signs beyond the bound makes a claim above it, except about its own node, whose counter rises by at least the number of its refutations and ends at most that number above the bound |
| Refutation.AnswersSuspicion | detectors/pingack.go:280-286 | A process told by any update of any piggybacking message that it is suspected at i sends everyone it knows by then, whoever told it included, an AliveMsg above i, whatever the other updates of the message do |
| Refutation.AnswersSuspectMessage | detectors/pingack.go:826-834 | A Suspect message naming its receiver moves the counter above the message's incarnation and is answered to every peer |
| Refutation.ActShields | utils/suspicion.go:163-186 | Across every kind of step after which x is still recorded at n or more, entries for x stay at n or more |
| Refutation.EndToEnd | utils/suspicion.go:202-233 | On any path: the answer exceeds the suspicion, stays deliverable, removes every entry at or below it wherever it is handled, and until that record is deleted or overwritten a suspicion at i or less has no effect there |
| Refutation.EndToEndMessage | detectors/pingack.go:826-834 | The same when the process learns of the suspicion from a Suspect message |
| BorrowedIncarnation.RefutationTravels | detectors/pingack.go:801-820 | The theorem is not vacuous: for every configuration there is a ten-step run in which X is suspected, refutes, is cleared at B, and a repeated suspicion then has no effect |
| Monotone.StaleOverwrite | detectors/pingack.go:308-330 | A step lowers the incarnation of a member it does not delete if and only if it is a late OnSuspect or OnConfirm, a Join of a recorded identity, or the taking over of a recorded identity, with a smaller incarnation |
| Monotone.NeverLowered | detectors/gossip.go:355-393 | Over any history of a process without such a step for k, the incarnation recorded for k never drops |
| StaleOverwrites.RepeatedJoinLowers | detectors/pingack.go:710-717 | For every configuration: a run at whose end a Join delivered a second time lowers a record from 1 to 0 |
| StaleOverwrites.LateCallbackLowers | main.go:44-49 | When one report is enough, as the controller has it: a run at whose end OnSuspect, and one at whose end OnConfirm, still waiting when the refutation was heard, lowers the record from 1 to 0 |
| StaleOverwrites.TakeoverHarmless | utils/membership.go:195-218 | While the bound per owner holds, taking over a recorded identity lowers nothing |
| StaleOverwrites.TakeoverLowers | utils/membership.go:195-218 | Without it: a run, continuing the thirteen steps, at whose end a process that returns to an earlier identity lowers the record of it from 1 to 0 |
| OwnEntry.OwnEntryKept | detectors/pingack.go:682-717 | A process loses its own table entry if and only if it handles a Join that displaces it or its own Leave |
| OwnEntry.OwnEntryAlive | detectors/gossip.go:443-457 | Its own entry stops being Alive if and only if a Confirm naming it, not older than the entry, is handled |
| OwnEntry.OwnEntryInRuns | detectors/pingack.go:280-287 | In every run without those messages and with fresh rejoin identities each process lists itself and never works towards suspecting itself; without Confirm it lists itself as Alive |
| AckProvenance.OnlyTheTargetAnswers | detectors/pingack.go:548-567 | In every reachable state a signalled probe of T with number s goes back to an Ack with s sent by the process owning T, every forwarded acknowledgement carries the incarnation of such an Ack, and no probe is pending between periods |
| AckProvenance.ProvenanceInRuns | detectors/pingack.go:587-639 | The inductive invariant behind it: authentic Acks, witnessed probes, waiters and forwards, handles linked to running proxies, one probe at a time |
| AckProvenance.OneProbeKept | detectors/pingack.go:132-237 | Every step keeps the pending probes to exactly the one of the current period |
| Merge.BatchJoins | detectors/pingack.go:277-340 | A batch of updates leaves each other node at exactly the maximum of its recorded and received incarnations, present if either had it |
| Merge.OrderInsensitive | detectors/gossip.go:324-409 | Two nodes that process the same set of updates in any order, with repetitions, flags, reporters and entries of their own, agree on every other node's incarnation |
| Merge.StatusConverges | detectors/pingack.go:319-330 | With suspicion off and no entries: every order and repetition of a batch leads to the same status of a member if and only if the updates at its top incarnation are not contested, and then to the stated one |
| Merge.LastWriterWins | detectors/pingack.go:319-329 | The shortest contest: Alive and Suspected at the recorded incarnation end differently in the two orders |
| JoinHandshake.JoinReplaces | detectors/pingack.go:682-734 | After a Join exactly one entry has the joiner's address, all others are untouched, and the log gains one Failed record per displaced identity and one Alive record |
| JoinHandshake.ResponseLists | detectors/pingack.go:719-743 | The response lists every entry of the new table exactly once |
| JoinHandshake.ResponseJoins | detectors/pingack.go:747-799 | A join response never changes the local entry and takes the pointwise maximum elsewhere, clears included |
| JoinHandshake.ResponseStatuses | detectors/pingack.go:747-799 | Of every other member the record after a response has the status and incarnation of the first update at the largest incarnation, a fresh heartbeat and, if Suspected, a clock that starts, if that update was news; else it is as it was |
| JoinHandshake.ReplayHarmless | detectors/gossip.go:525-577 | Handling the same response again, at any later time, changes nothing in the whole state |
| JoinHandshake.HandshakeTransfers | detectors/gossip.go:459-577 | After both halves the joiner knows everyone the introducer knows, at least as recently, and nobody else new; whoever it knew less recently or not at all it has with the introducer's incarnation and status |
| JoinHandshake.JoinEndToEnd | detectors/pingack.go:849-866 | On any path: a process takes an identity, its Join is in flight to the introducer, which lists it Alive at the counter; the answer is in flight to the new address; and after handling it the process has the introducer's record of everybody it knew less recently and its own of the others |
| SuspicionHistory.QuorumAndDelay | utils/suspicion.go:98-139 | Over every interleaving of lock sections an entry is confirmed at i only if since it was opened at i nothing cleared, replaced or confirmed it, RequireReports distinct reporters each reported i into it, and the tipping report is SuspicionTimeout old |
| SuspicionHistory.EntriesLive | utils/suspicion.go:134-139 | The invariant: firstReport is set exactly when the reporters have reached the threshold, to the time of the report that did it |
| ConfirmationSpacing.ConfirmedExactly | utils/suspicion.go:89-139 | With positive timeouts, at a confirmation: in every continuation on clocks from w on in which no clear takes effect the next confirmations of that suspicion are more than retention plus timeout away, if and only if w is past the retention and no call that read its clock before still waits for its first lock (or, where one report is enough, for any lock) |
| ConfirmationSpacing.DroppedExactly | utils/suspicion.go:265-283 | At a tick that ends the retention: every continuation is spaced if and only if no such call is left or the tick comes more than a timeout after the retention |
| ConfirmationSpacing.SectionsSpaced | utils/suspicion.go:98-139 | Over every interleaving of lock sections and any clocks: two confirmations are spaced if every report of that suspicion that found it gone in between had read its clock after the retention and, where one report is enough, so had every call then between its sections |
| ConfirmationSpacing.ConfirmationsSpaced | utils/suspicion.go:260-282 | So two confirmations are always spaced when reports are not interrupted, the clock does not go back and no clear takes effect |
| ConfirmationSpacing.RaceConfirmsTwice | utils/suspicion.go:114-132 | Two callers that both miss the entry get the suspicion confirmed twice at the same tick time |
| ConfirmationSpacing.LateLookupConfirmsTwice | utils/suspicion.go:90-98 | From any state with no call under way, when one report is enough: a call that reads its clock just after a confirmation and gets the lock after the retention has the suspicion confirmed again at most retention plus timeout later |
| SuspicionHistory.SectionsCompose | utils/suspicion.go:98-139 | The lock sections of one uninterrupted report compose to the atomic operation |
| SuspicionInRuns.ActMoves | utils/suspicion.go:89-200 | Every step of a process, of whatever kind, moves its entries by exactly the reports, clears and checks it makes |
| SuspicionInRuns.EntriesInRuns | utils/suspicion.go:33 | In every reachable state of the cluster the entries of a process are what its operations so far make of nothing |
| SuspicionInRuns.ConfirmedByQuorum | utils/suspicion.go:98-139 | In every run a process confirms x at an incarnation only if since some operation of its own RequireReports distinct nodes reported x to it at exactly that incarnation, no clear took effect, and the report that took their number to RequireReports is a timeout old |
| SuspicionInRuns.QuorumExactly | utils/suspicion.go:134-139 | Undisturbed by clears, other incarnations and due checks, a suspicion holds exactly the nodes that have reported it, and its clock is set exactly when they are RequireReports or more |
| SuspicionInRuns.UnsetOptions | utils/suspicion.go:40-61 | Without settings one report is confirmed from two seconds after it on, and forgotten more than three seconds after that |
| SuspicionInRuns.SpacedInRuns | utils/suspicion.go:260-282 | In every run, on a clock that does not go back, two confirmations of one suspicion by one process are more than retention plus timeout apart unless a clear took effect in between |
| Removal.RemovedOnTime | detectors/gossip.go:189-250 | With suspicion off and checker ticks at most D apart, a member silent since h is left untouched until a tick in [h+F, h+F+D] removes it |
| Removal.RemovedEventually | detectors/gossip.go:189-250 | With suspicion on, whichever of checker and manager acts first, a checker tick removes it by h+2F+Cleanup+2D |
| Removal.DeadlineStep | utils/suspicion.go:251-304 | The measure: no tick of either kind moves the member's deadline back, and a checker tick at the deadline removes it |
| Removal.FailedForever | detectors/gossip.go:226-229 | Without a positive cleanup timeout a Failed record is never removed |
| Removal.UnsetTimeouts | detectors/gossip.go:191-201 | Without settings a member is silent after three seconds, a suspected one removed after four, a failed one never |
| PingRemoval.FailedStays | detectors/pingack.go:420-426 | In ping/ack mode a Failed record nobody speaks about is never removed, whatever the timeouts |
| PingRemoval.RemovedOnlyInTime | detectors/pingack.go:408-444 | In ping/ack mode a suspected member nobody speaks about, whether or not the manager has an entry that counts, is removed if and only if the check finds it suspected for too long before the manager confirms the suspicion; otherwise, once the manager does, it ends Failed |
| PingRemoval.ShortTimeoutRemoves | detectors/pingack.go:342-354 | With checks at most d apart, a suspicion timeout that ends with d to spare before the manager's, or without the manager counting, does remove the member |
| PingRemoval.LongTimeoutKeeps | utils/suspicion.go:285-295 | A tick of the manager that falls between its own timeout and the detector's keeps the member for good |
| SilentHistory.ActSpares | detectors/gossip.go:355-393 | A step of a process, of whatever kind, that brings no word of a member and gives up no probe of it leaves its record and entry as they were and launches no callback about it |
| SilentHistory.ProcessRemoves | detectors/gossip.go:189-250 | So a process with the gossip detector and suspicion on removes a member it is told nothing about by h+2F+Cleanup+2D, whatever else it does meanwhile, its callbacks run at once |
| SilentHistory.ProcessRemovesOnTime | detectors/gossip.go:189-250 | With suspicion off it does so within [h+F, h+F+D] |
| SilentHistory.ProcessRemovesOnlyInTime | detectors/pingack.go:408-444 | A process with the ping/ack detector removes a suspected member it is told nothing about if and only if its check is in time |
| Leftover.FailedUnlessCalledOff | utils/suspicion.go:260-295 | Over any steps of a process on clocks from p on: the first manager tick at which an entry under way is due fails the member unless a clear at its incarnation or above or a report above it came before, and, within a timeout of p, only then |
| Leftover.AliveYetFailed | detectors/pingack.go:486-502 | After a Ping or Heartbeat from a suspected member the record is Alive with that heartbeat until the tick at which the entry left behind is due, which fails the member and launches OnConfirm |
| Words.EveryWordHeard | detectors/pingack.go:277-340 | For every kind of message and every other member of which it speaks once: record, entry, log and launched callback afterwards are those of the table of judgements, whatever else the message says |
| Timers.EveryTimerJudged | detectors/gossip.go:189-250 | The same for the checks of both detectors and the manager and for probes given up |
| Timers.ChecksSpareSelf | detectors/gossip.go:203-207 | The checks of either detector leave the node itself alone: record, log, counter, and no packet |
| Verdicts.SuspicionStarts | utils/suspicion.go:134-159 | Over every such step OnSuspect is launched, once, exactly when the suspicion gets its quorum at an incarnation, and names everyone who reported it; then the suspicion clock starts, and a member in the table is Suspected as of now |
| Verdicts.PunctualInRuns | utils/suspicion.go:134-139 | What that supposes of the entry holds in every reachable state: firstReport is set exactly when the quorum is complete |
| Verdicts.UnreachableRemoved | detectors/pingack.go:265-274 | With suspicion off, giving up a probe deletes its target and nobody else, logs exactly one Failed record at its incarnation if it was known, leaves entries and callbacks alone and ends the period |
| Verdicts.UnreachableSuspected | detectors/pingack.go:239-264 | With suspicion on it leaves the target in the table as Suspected at the incarnation it had, logged unless it was so already, and a suspicion, in which this node is a reporter, at that incarnation or one above it |
| Records.Revival | detectors/pingack.go:492-499 | A failed member is Alive after a step about it if and only if the step is a message that, by its kind and incarnation, brings it back |
| Records.RecordClocks | detectors/pingack.go:312-317 | The heartbeat moves exactly when a message vouches for the member; the suspicion clock starts when the member comes under suspicion, stops when it is put down as Alive, and otherwise runs on |
| Records.LogTellsChanges | detectors/pingack.go:332-339 | The log gains exactly what changed about a member, at its new incarnation and status, or Failed when it is gone, except for a listed few changes that are silent |
| Records.RumourTimesRemoval | detectors/pingack.go:308-318 | After a rumour of suspicion at a new incarnation the next check removes the member if and only if its time is up, counted from the rumour with suspicion on and from whatever was there before with suspicion off |
| Probes.DirectProbe | detectors/pingack.go:132-182 | On any path: a Ping is in flight to the target, its Ack to the prober, and if the Ack is handled while the ping loop waits, the period can end without suspicion |
| Probes.IndirectProbe | detectors/pingack.go:184-230 | On any path: request, relayed Ping, Ack and the proxy's word each reach the next node, the last one the requester with the target's incarnation, and handled in time it ends the period without suspicion |
| Probes.RequestReachesTarget | detectors/pingack.go:570-646 | The way out, with a proxy that waits under the handle of the request |
| Probes.AnswerReachesRequester | detectors/pingack.go:600-638 | The way back, from any state in which a proxy waits |
| Probes.SignalledExactly | detectors/pingack.go:548-567 | A pending probe is signalled by an Ack of its target or a proxy's word of it with its number, and by nothing else, and who answered is noted |
| Spreading.FailureSpreads | main.go:71-96 | On any path: a confirmed suspicion launches OnConfirm, which has a Confirm in flight to every other member; whoever handles it with a record no newer has the member Failed at that incarnation, and logs it |
| Spreading.SuspicionSpreads | main.go:44-70 | OnSuspect has a Suspect in flight to every other member, and whoever handles it counts a report of the sender unless its record or suspicion is newer |
| Spreading.ClearMisattributed | main.go:97-125 | The Alive message of OnClear leaves record and entry of the cleared member at the receiver as they were, and raises the record of the sender to the other's incarnation |
| Spreading.DepartureSpreads | detectors/pingack.go:868-888 | A leaving node has a Leave in flight to every other member, and whoever handles it deletes the leaver alone and logs its failure |
| Spreading.ConfirmTold | main.go:71-96 | OnConfirm puts the member down as Failed and tells exactly everyone but the member and the node itself |
| Spreading.SuspectTold | main.go:44-70 | The same for OnSuspect, which starts the suspicion clock anew |
| Spreading.ClearTold | main.go:97-125 | OnClear puts the member down as Alive and just heard from, at no lower incarnation, and tells the same people |
| UpdateLog.LogIsTimedQueue | utils/membership.go:111-144 | After any adds and reads on a monotone clock the log is what had been added and not expired at the last read, then what was added since; everything added, if it was never read |
| UpdateLog.LiveDropsPrefix | utils/membership.go:115-122 | On a log in clock order the filter drops exactly the expired prefix |
| UpdateLog.LogIsSuffix | utils/membership.go:111-144 | The log stays in clock order and is a suffix of the add history |
| UpdateLog.ReadReturns | utils/membership.go:124-132 | A read returns the first min(limit, count) records added within the window before it |
| Keys.NodesDistinct | utils/types.go:15-17 | NodeID.String is injective for every IP string, colons included |
| Keys.AddressesDistinct | utils/types.go:19-21 | So is NodeID.Address on address pairs |
| Keys.WaitersDistinct | detectors/pingack.go:587 | The waiter key determines sequence number and target |
| Keys.StringMapsFaithful | utils/membership.go:18-35 | A string-keyed map answers every lookup, insertion and deletion as the map keyed by NodeID does |
| Locks.SomeoneMoves | utils/suspicion.go:98-155 | In any pool of goroutines that never ask for a lock while holding one, an unfinished goroutine implies that one of them can step, writer preference of the read-write lock included |
| Locks.NeverStuck | detectors/pingack.go:514-561 | That holds at every point of every interleaving, goroutines starting at any time |
| Locks.OperationsDisciplined | detectors/pingack.go:436-439 | Every operation's lock sequence, in program order, holds at most one lock at a time, never re-acquires and ends holding none |
| Selections.SelectionSet | utils/membership.go:80-109 | A selection is min(n, eligible) distinct eligible members, and all of them when there are no more than n |
| Selections.HelpersExact | detectors/pingack.go:189-217 | An indirect probe sends at most k packets, all to alive members other than the target and the node itself |
| Selections.HelpersComplete | detectors/pingack.go:189-217 | When there are at most k candidates each of them is asked |
| Selections.AloneGivesUp | detectors/pingack.go:194-201 | A direct timeout without helpers happens only when no other member is believed alive |
| Selections.ProbesOthers | detectors/pingack.go:133-160 | A period probes an alive member other than the node itself and sends nothing else |
| Selections.RoundsBounded | detectors/gossip.go:125-172 | A gossip round sends at most three packets, all heartbeats to alive members other than the node itself |
| Selections.RoundsReach | detectors/gossip.go:125-172 | A round logs the node's own record, the targets' and the extras', in this order, and sends every one of its min(3, eligible) targets the same heartbeat with its counter and the first ten unexpired records |
| MembershipLists.MembershipList.constructor | utils/membership.go:18-35 | The new list holds exactly the local node, Alive at incarnation 0 |
| MembershipLists.MembershipList.AddMember | utils/membership.go:37-46 | Only a strictly newer record replaces one; otherwise neither table nor log changes |
| MembershipLists.MembershipList.UpdateMember | utils/membership.go:48-67 | An update not older than the record is taken over with its time fields and logged; any other changes nothing |
| MembershipLists.MembershipList.RemoveMember | utils/membership.go:69-78 | The member goes and its failure is logged at its incarnation |
| MembershipLists.MembershipList.GetRandomMembers | utils/membership.go:80-109 | Every outcome of the shuffle is min(n, eligible) pairwise distinct Alive, non-local, non-excluded members of the table |
| MembershipLists.MembershipList.GetRecentUpdates | utils/membership.go:111-133 | The in-place filter keeps the live records and returns a prefix of them |
| MembershipLists.MembershipList.AddRecentUpdate | utils/membership.go:136-144 | Appends one stamped record |
| MembershipLists.MembershipList.RefreshLocalNode | utils/membership.go:195-218 | The old own entry is replaced by one under a fresh timestamp that carries the counter |
| MembershipLists.MembershipList.Recipients | utils/suspicion.go:220-228 | The addresses collected are exactly those of the members not excepted |
| SuspicionManagers.SuspicionManager.constructor | utils/suspicion.go:40-61 | The manager starts empty with defaults filled in, so no threshold is below one and no timeout zero |
| SuspicionManagers.SuspicionManager.ProcessSuspicion | utils/suspicion.go:89-161 | The objects change exactly as the transition says: stale reports ignored, newer ones replace the entry, the report that reaches the threshold suspects the member and launches OnSuspect |
| SuspicionManagers.SuspicionManager.ClearSuspect | utils/suspicion.go:163-200 | Entry, record and pending callbacks after a clear, for each of its three cases |
| SuspicionManagers.SuspicionManager.HandleSelfRefutation | utils/suspicion.go:202-233 | The counter passes the incoming incarnation and every other member is told, the own record untouched |
| SuspicionManagers.SuspicionManager.Check | utils/suspicion.go:251-304 | The two loops together confirm exactly the due entries, forget exactly the spent ones, fail exactly the confirmed members in the table and launch one OnConfirm for each |
| SuspicionManagers.SuspicionManager.ScanEntries | utils/suspicion.go:260-283 | The loop over the entries, in any order, equals the simultaneous update of all of them |
| SuspicionManagers.SuspicionManager.MarkFailed | utils/suspicion.go:285-303 | The loop over the confirmed members, in any order, fails them all and no others |
| Detectors.Detector.ProcessUpdate | detectors/pingack.go:277-340 | One piggybacked update, in place, table, log and manager together |
| Detectors.Detector.ProcessUpdates | detectors/pingack.go:509-511 | The loop over the piggybacked updates processes them in order |
| Detectors.Detector.Touch | detectors/pingack.go:468-503 | A sign of life: a new, newer, suspected or merely refreshed record; an older claim changes nothing |
| Detectors.Detector.HandleAlive | detectors/pingack.go:801-824 | An alive message when active; nothing otherwise |
| Detectors.Detector.HandleSuspect | detectors/pingack.go:826-834 | A suspect message only when suspicion is enabled and the node active |
| Detectors.Detector.HandleLeave | detectors/pingack.go:836-847 | The leaver is deleted and its failure logged, active or not |
| Detectors.Detector.HandleJoin | detectors/pingack.go:682-745 | For some traversal orders of the two maps, which it returns, table, log and response are those of the transition |
| Detectors.Detector.HandleJoinResponse | detectors/pingack.go:747-799 | Both loops together: absorb in order, then clear what was news of living members |
| Detectors.Detector.JoinGroup | detectors/pingack.go:849-866 | Joins under a fresh identity and reactivates; nothing at all without an introducer |
| Detectors.Detector.LeaveGroup | detectors/pingack.go:868-888 | Every other member is told and the node becomes inactive |
| PingAckManagers.PingAckManager.BeginPeriod | detectors/pingack.go:132-170 | A period probes one selected member under a new number, or nothing happens because nobody is eligible |
| PingAckManagers.PingAckManager.AwaitAck | detectors/pingack.go:175-182 | The period ends early exactly when its probe has been signalled |
| PingAckManagers.PingAckManager.DirectTimeout | detectors/pingack.go:184-218 | Helpers are any selection of k others; without any the target is suspected at once and the probe forgotten |
| PingAckManagers.PingAckManager.IndirectTimeout | detectors/pingack.go:231-236 | The probe is forgotten and its target suspected |
| PingAckManagers.PingAckManager.DeclareSuspicion | detectors/pingack.go:239-275 | Suspects (creating the member if need be) and reports, or deletes when suspicion is off |
| PingAckManagers.PingAckManager.HandlePing | detectors/pingack.go:454-512 | Acknowledges, takes the ping for a sign of life, processes the updates; nothing when inactive |
| PingAckManagers.PingAckManager.HandleAck | detectors/pingack.go:514-568 | Record, entry, the one matching probe and the one matching waiter, and nothing else |
| PingAckManagers.PingAckManager.HandleIndirectPing | detectors/pingack.go:570-646 | A new proxy goroutine takes over the handle of its key and the target is pinged |
| PingAckManagers.PingAckManager.HandleIndirectAck | detectors/pingack.go:648-680 | The matching probe is signalled and the target's record and entry cleared |
| PingAckManagers.PingAckManager.ForwardAck | detectors/pingack.go:620-638 | The requester gets the received incarnation; the goroutine and the handle of its key go |
| PingAckManagers.PingAckManager.Retire | detectors/pingack.go:623-627 | A goroutine that ends takes the handle of its key with it even if that leads to another goroutine |
| PingAckManagers.PingAckManager.CheckFailures | detectors/pingack.go:408-444 | Exactly the overdue suspected members are deleted, each with one Failed record |
| PingAckManagers.PingAckManager.Links | detectors/pingack.go:602-604 | The object invariant implies that every handle leads to a running waiter for that request |
| GossipManagers.GossipManager.HandleHeartbeat | detectors/gossip.go:262-322 | A sign of life, then the piggybacked updates; nothing when inactive |
| GossipManagers.GossipManager.HandleConfirm | detectors/gossip.go:443-457 | The target is failed at an incarnation not older than its record; nothing when inactive |
| GossipManagers.GossipManager.Judge | detectors/gossip.go:191-230 | The nested thresholds and status switch decide exactly silence and removability |
| GossipManagers.GossipManager.Sweep | detectors/gossip.go:203-237 | The loop over the map, in any order, suspects exactly the silent and deletes exactly the removable members |
| GossipManagers.GossipManager.CheckFailures | detectors/gossip.go:189-250 | Sweep, one log record and report per silent member, one Failed record per removed one, in the orders it returns |
| GossipManagers.GossipManager.PerformRound | detectors/gossip.go:125-172 | One round for some pair of selections, or nothing when nobody is eligible |
| Controllers.Controller.OnSuspect | main.go:44-70 | The late write is unconditional and everyone but the target and the node itself is told |
| Controllers.Controller.OnConfirm | main.go:71-96 | The same for a confirmation |
| Controllers.Controller.OnClear | main.go:97-125 | The record is raised, never lowered, and the broadcast carries the target's incarnation under the local name |
| Controllers.Controller.Run | utils/suspicion.go:157-159 | A launched callback runs once, at any later time |

## Left out

- UDP sockets, JSON, the drop rate and the receive queue (utils/network.go): a packet once sent may be
  delivered any number of times, at any time, or never.
- Counting copies: what a process has sent is a set, so two identical packets are one. Delivery may repeat anyway.
- HTTP control server, command line, daemonisation, client mode, log querier and scripts: no protocol logic.
- `Start`, `Stop`, `SwitchMode` and the tickers: timers are steps that may happen at any time. The cluster has no
  `active` flag, since a message an inactive node ignores may as well have been lost; the objects do have it.
- `cleanupOrphanedEntries`: a fallback that removes handles of goroutines that end by themselves.
- Interleaving inside an operation: operations are atomic steps, except in SuspicionHistory, ConfirmationSpacing
  and Locks.
- Several clock readings within one operation: an operation reads its clock once. Between operations the clock
  is free, except where a theorem asks for a monotone one.
- The 64-bit sequence number does not wrap.
- Randomness quality and detection probabilities: a random selection is any possible outcome.
- Agreement of statuses between nodes, and of manager entries with table statuses: the code keeps neither.
- `GetAllMembers`, `GetSuspectedMembers` and log texts: reading only.
- The handlers both detectors define alike are written once, in `Detector`.
- The three callbacks are always set, as the controller sets them. A callback is a value in a bag instead of a
  goroutine, and a proxy goroutine is a waiter with its one-slot channel; the cancelled context of a proxy is the
  same step as its timeout.
- OwnerBound: asks each process for fewer than 2^31 refutations, as the counter has 32 bits.
- NeverLowered: speaks of a member as long as it is not deleted; a deleted member that is learned of again
  starts afresh.
- StatusConverges: asks for suspicion to be off and no entry to be pending, because a pending entry can
  keep or change the status independently of the updates.
- EveryWordHeard: speaks of members other than the receiver and of which a message speaks once; what several updates
  about one member in one message come to is left to Merge and ResponseStatuses, the node's own record to OwnEntry.
- LogTellsChanges, RecordClocks, Revival: the same, and not the callbacks, a gossip round or a change of identity, which
  ConfirmTold, SuspectTold, ClearTold, RoundsReach and JoinEndToEnd describe.
- SpacedInRuns: the steps of the cluster are whole operations, so a report is never interrupted there;
  ConfirmedExactly and DroppedExactly say what interruptions do.
- ConfirmedExactly: asks for a positive timeout and retention, which the defaults give unless a negative one is set.
- ProcessRemoves: callbacks run at once and in the step's time, because a late one may write the record at any time.
- LateCallbackLowers: gives its runs for a threshold of one report, which is what the controller sets.
