# Crash-safe responsibility accounting of the agent host

The host answers for work it accepted: a generated body is owed to a channel, a
settled notification is owed a follow-up turn, a committed fact is owed to every
later reader. This project models what is written, in what order, and what a
restart reads back, and proves what the accounts keep over whole runs.

Every durable write, barrier, read and send is its own step. It may fail, it may
fail after it landed, and the process may stop at it; from a stop on nothing
reaches the log or the channel until the next boot. What a stop leaves is any
mixture the log contract allows: for each key on its own, the stored value or any
value staged since the last barrier (`FactLog.MayStand`).

## What is proved

**Delivery** (`DeliveryIds`, `FactLog`, `DeliveryLedger`, `DeliverySteps`,
`DeliveryReview`, `DeliveryHost`). The class `Host` carries the review table, the hold counter and
the log as fields, and its methods take the code's steps. What one public call may do
is the relation `CallMoves`; that each call stays inside it, potential included, is
the content of the contracts of `Host`, and the theorems over runs of such calls are
short inductions over it: the channel accepts one keyed entry body at most once more
than durable calls failed or were cut (a potential over what may stand and over the
table pays for every send); a stored obligation stays stored with its content and
target; and a record reads sent, refused or headless for its own cause only.
`DeliveryHost.Lifetime` makes a host and runs any number of its processes by contract
alone, so those runs are runs of the class. In a quiet process every body a delivery,
a hand-off or a boot is responsible for ends with a stored record that is no longer
owed. What the ruler and the channel are asked, and what they answer, is kept in order
beside the ledger: no body reaches the channel but behind an allowing or recording
ruling, and the answer of the channel decides the outcome.

**Settlement** (`GeneratedBodies`, `TurnBodies`, `SettleAccount`, `SettleRuns`,
`SettleStranding`, `SettleDriver`, `SettleFaces`). The account is a machine of ten
steps, each under the guard the code gives it: a seat offered, claimed or handed back,
an attempt record, a turn, facts of other work, a closing read, a receipt, a move of
the host, a restart. Every step keeps the account sound, so the theorems hold of every
run from an account that holds nothing: a landed attempt keeps its terminal and starts
no further turn, restarts included; a consumed notification stays consumed; and a
receipt beside a completed turn stands over no body the closing read answered and
nothing records, unless a terminal could not be recorded. That exception is exact:
behind the record of a landed terminal some continuation strands a body if and only
if the record reported a failure to a process that lived to see it. Every method of
the class `Driver` takes steps of that machine and no others, and
`SettleDriver.Lifetime` runs a driver over any number of processes by contract alone.

**Fact chain** (`EventBody`, `FactWindow`, `KeyBuffer`, `MappedSequence`,
`FactReplays`, `FactBoundary`, `SegmentIndex`, `FactLedger`, `FactChain`,
`FactRestart`, `FinalRound`). The class `Run` commits facts into a map, an order buffer compacted
in place, per-session counts, mapped sequences and a segment index. Trimming after
every commit keeps exactly the window of the whole history; the ended boundary has a
closed form over the commits and only advances, in every sequence a run registers and
over all its commits since the last restart; the notice cursor reports every
notice once; slots stay unique and contiguous; every commit keeps the tier the mirror
of the history, and a restart of a run so filed rebuilds the window, the count, the
mapped sequence and the slots it held; and whatever commits, trims and filings
interleave, a range in flight keeps at most one final round request.

**Re-entry** (`Reentry`), **query** (`Sorting`, `EventQuery`), **call pairing**
(`CallPairing`), **delivery replay** (`ReplayEngine`), **compression**
(`Compression`) and **close report** (`CloseReport`) are each modelled with the
property their documentation promises.

## Where the code and its documentation part

- The record of a landed terminal is reported and passed over (assembly/host.go:1088-1090).
  From there the receipt of a turn whose terminal nothing recorded may be left staged, the
  next wake drives the notification again, and the record of that turn stores the receipt
  beside a completed attempt before the bodies are registered.
  `SettleStranding.StrandingRun` is such a run for every notification and address, and
  `SettleStranding.StrandsIffMissed` says that a refused record is the one way there.
- The bodies of a landed turn are read from the hot window. A body the window cut
  before the closing read gets no record although the receipt is written:
  `SettleStranding.TrimmedBodyStranded` is a run that ends so, and
  `SettleStranding.ClosingReadCovers` gives the exact condition by position.
- A face that finds the settlement marker taken reports a settlement. Once both faces
  are done a receipt stands without a registration exactly when the fire face skipped an
  account the delivery face held and then failed to register
  (`SettleFaces.StrandedIffSkippedRefusal`, with a witness in
  `SettleFaces.SkippedRefusalStrands`). A wait that answers only behind the delivery face
  excludes it (`SettleFaces.WaitStrandsNothing`), and `SettleDriver.Driver.Fire` takes that
  wait; a wait the code answers from an earlier segment of the same notice
  (runtime/agent/consumer.go:1354-1378) does not promise it.
- The segment index answers its records by partition, window and slot, not in commit
  order. `FactRestart.RestartOrder`: a chain is read back in its commit order exactly
  when its event times never stepped back.
- The live ledger and the durable record do not always judge one identity alike: a
  trimmed fact committed again under other stamps leaves a live copy with another
  judgment. `EventBody.JudgeAlike` gives the exact condition.
- A fact committed again after the window cut it can move the ended boundary back:
  `MappedSequence.RecommitMovesBack` says exactly when, and `FactReplays.RecommitReached`
  reaches such a boundary by commits.
- Beside a tier, a registration that succeeds reports keyed bodies only
  (`DeliverySteps.RegistrationAnswer`), so an unkeyed entry body is not sent there,
  although the comment at assembly/host_delivery.go:864-866 says it is.
- The close merges unsettled items without their fact key, so two notifications of one
  address, task and reason are reported as one item.

## Assumptions

- Delivery calls do not overlap, and neither do two commits of one identity; the code
  reads and writes under two lock holds there.
- A fact never changes the body its key names (`Ledger.origin`).
- The log answers only stored pairs, a completed barrier stores everything staged,
  and a stop keeps for each key the stored or a staged value (docs/api of the state
  package). The segment store publishes a record whole or not at all.
- The facts of a session chain outlive a stop; what a restart makes of their order is
  `FactRestart`.
- Both settlement faces of one drive read one answer, and the delivery face has ended
  when the wait of the fire face answers (assembly/host.go:1196-1208).

## Model

| member | source | states |
|---|---|---|
| DeliveryIds.MintedSeq | assembly/host_delivery.go:464-467 | the order number of a minted hold identity is the counter value, and a minted identity is never one of a generated body |
| DeliveryIds.FreshSeq | assembly/host_delivery.go:572-580 | an identity of a generated body carries no order number |
| FactLog.StageStep | assembly/host_delivery.go:293-295 | a put adds one value that may stand and removes none |
| FactLog.BarrierStep | assembly/host_delivery.go:296-298 | a barrier brings nothing back and loses no stored key |
| FactLog.SurvivorStep | assembly/host_delivery.go:490-497 | whatever a stop or a half-landed barrier leaves could stand before it |
| DeliveryLedger.AcceptedBounded | assembly/host_delivery.go:56-90 | over any run under one entry the accepted sends of one keyed entry body never exceed one plus the failed or cut durable calls |
| DeliveryLedger.ObligationKept | assembly/host_delivery.go:302-371 | a stored obligation has a stored record of the same content and target in every later state |
| DeliveryLedger.ClosedForCause | assembly/host_delivery.go:606-655 | sent only after an acceptance, refused only after a refusal of that identity, headless only after a boot under another entry |
| DeliveryLedger.OwedStagedEffect | assembly/host_delivery.go:322-371 | a registration that ends at any point costs no credit and closes nothing; one that failed pays for sending every body |
| DeliverySteps.MintIsFresh | assembly/host_delivery.go:464-470 | a minted identity collides with no record and no table entry, and publishing it touches no other identity |
| DeliverySteps.HoldEffect | assembly/host_delivery.go:453-476 | a hold spends at most the send in hand, touches no other identity and parks nothing a stop could lose |
| DeliverySteps.ReceiptEffect | assembly/host_delivery.go:646-655 | the receipt of an accepted send leaves no second send owed unless a durable call failed |
| DeliverySteps.DecisionMoves | assembly/host_delivery.go:182-260 | an approval or a refusal is paid by the table entry it took or by the faults it met |
| DeliverySteps.BootingEnd | assembly/host_delivery.go:495-537 | behind the first pass every parked record waits in the table, the counter has passed every identity, and only owed records of other addresses were retired |
| DeliverySteps.BootEffect | assembly/host_delivery.go:490-550 | a boot is one step of a run, and in a quiet boot every record read ends no longer owed |
| DeliveryHost.Host.constructor | assembly/host_delivery.go:265-270 | the state every run starts from, under the declared entry and over the facts given |
| DeliveryHost.Host.RecordDeliveryState | assembly/host_delivery.go:277-300 | success means the record is what stands and nothing else may; failure is a fault |
| DeliveryHost.Host.HoldDelivery | assembly/host_delivery.go:453-476 | the body waits under its obligation or a minted identity nothing used, recorded when the answer says so; a closed host parks nothing |
| DeliveryHost.Host.DeliverObligation | assembly/host_delivery.go:621-655 | the ruler is asked once for this delivery and the channel only behind an allowing or recording ruling, for its body; every other ruling ends held and sends nothing, and the answer of the channel decides between sent, counted once with its receipt, and refused, which waits |
| DeliveryReview.SentIsAllowed | assembly/host_delivery.go:625-645 | whatever a list of deliveries sends stands right behind an allowing or recording ruling on that body |
| DeliveryReview.UnreviewedAsksAll | assembly/host_delivery.go:622-645 | beside no ruler the channel is asked for every body of the list in order and for nothing else; beside no sender nobody is asked |
| DeliveryHost.Host.RecordDeliveryOwed | assembly/host_delivery.go:322-371 | a confirmed registration leaves every keyed body a stored record and reports exactly the bodies still owed |
| DeliveryHost.Host.DeliverFresh | assembly/host_delivery.go:56-90 | one step of a run; behind a confirmed registration the bodies still owed are delivered, beside no tier, away from the entry or behind a refused registration every body is, and a turn without bodies delivers its notice; in a quiet process every keyed entry body ends with a record no longer owed |
| DeliveryHost.Host.HandoffSettledBodies | assembly/host_delivery.go:408-425 | one step of a run; success leaves every keyed entry body stored and delivers exactly the owed ones in order, a refused registration asks nobody |
| DeliveryHost.Host.RestoreHeldDelivery | assembly/host_delivery.go:432-444 | the body waits again under its identity, recorded when the answer says so; a closed host restores nothing |
| DeliveryHost.Host.ApproveDelivery | assembly/host_delivery.go:194-225 | the channel is asked once for the body held and the ruler is not; accepted means carried, removed and recorded sent, or landed without a receipt beside a fault; refused means failed with nothing counted, and a restored entry is recorded under the state it waits in |
| DeliveryHost.Host.RefuseDelivery | assembly/host_delivery.go:235-260 | carried means removed, never sent, and nothing but the refused record stands |
| DeliveryHost.Host.RetireHeadlessDelivery | assembly/host_delivery.go:559-570 | the record reads headless, or stays owed beside a fault; no other identity moves |
| DeliveryHost.Host.RestoreRecord | assembly/host_delivery.go:509-537 | one record read: parked into the table, retired, left for the second pass or left as it stands, and the counter passes it |
| DeliveryHost.Host.Boot | assembly/host_delivery.go:490-550 | one step of a run from any stop; every parked record is covered by the table and, in a quiet boot, every restored record is no longer owed |
| DeliveryHost.Lifetime | assembly/host_delivery.go:490-550 | a host of any number of processes is a run of calls, so the bound on accepted sends holds of the class |
| GeneratedBodies.GeneratedBodiesOf | assembly/host_delivery.go:829-862 | exactly the first body under each key that the invocation carries, in fact order, no key twice |
| GeneratedBodies.LeadingFrom | assembly/host_delivery.go:811-862 | membership in the answer in terms of positions of the facts |
| GeneratedBodies.LaterFactsAddNothing | assembly/host_delivery.go:823-828 | facts of other invocations behind a turn leave the bodies read back unchanged |
| TurnBodies.ReadWindow | assembly/host_delivery.go:408-412 | the bodies a hand-off reads are those of the window of the session, in chain order, each fact once |
| TurnBodies.AnsweredAt | assembly/facts.go:168-187 | the read answers the body at a position exactly while it is among the most recent facts or no turn-end fact stands behind it |
| SettleAccount.StepKeeps | assembly/settle_turn.go:518-594 | every step of the driver, of the host, of a stop and of a restart keeps the account sound and takes back no landed attempt and no receipt |
| SettleAccount.AttemptKeeps | runtime/state/durable.go:324-357 | an attempt record, confirmed, refused or cut, keeps every notification sound |
| SettleAccount.ReceiptKeeps | runtime/state/mailbox.go:255-287 | a receipt written or refused keeps every notification sound |
| SettleAccount.RegisterKeeps | assembly/host.go:1092-1100 | a closing read carries the notification it was made for and leaves every other as it was |
| SettleAccount.ReopenKeeps | runtime/state/durable.go:213-306 | the carrier a restart loads keeps every landed attempt, every receipt and every carried body |
| SettleRuns.LandedForever | assembly/settle_turn.go:518-560 | over every run a landed attempt keeps its terminal, nothing else may stand in its place, and its notification starts no further turn |
| SettleRuns.ConsumedForever | assembly/settle_turn.go:196-203 | over every run a consumed notification stays consumed, durably, and is driven no more |
| SettleRuns.NoBodyStranded | assembly/host.go:1066-1112 | in every state of every run under one entry a receipt beside a completed attempt means every body lies before its closing read and has a record if that read answered it by position |
| SettleRuns.MissedReported | assembly/host.go:1088-1090 | the one exception: a terminal whose record reported a failure to a process that lived to see it |
| SettleStranding.StrandsIffMissed | assembly/host.go:1088-1090 | behind the record of a landed terminal some continuation strands a body if and only if that record reported a failure |
| SettleStranding.StrandingRun | assembly/host.go:1088-1103 | a run from an empty account that strands a body, for every notification and address |
| SettleStranding.ClosingReadCovers | assembly/host_delivery.go:408-415 | every body of a notification ends recorded exactly when each unrecorded one was among the most recent facts or had no turn-end fact behind it |
| SettleStranding.TrimmedBodyStranded | assembly/host_delivery.go:412-415 | a run in which every record succeeds ends with a receipt, a completed attempt and a body the window cut without a record |
| SettleDriver.Driver.constructor | assembly/settle_turn.go:279-294 | an account that holds nothing, where every run of the account starts |
| SettleDriver.Driver.RecordAttempt | runtime/state/memory.go:397-416 | the attempt is known exactly when its write was confirmed, a repeat of the same content writes nothing, and a terminal a running process failed to record is marked missed |
| SettleDriver.Driver.ClaimSeat | runtime/state/mailbox.go:228-245 | only a pending seat is claimed, and no other seat moves |
| SettleDriver.Driver.Release | runtime/state/mailbox.go:318-338 | a claimed seat returns to pending and a settled one never does |
| SettleDriver.Driver.Consume | runtime/state/mailbox.go:255-287 | a claimed seat closes behind its receipt, a repeat is answered as settled, an unclaimed one is refused |
| SettleDriver.Driver.SettleTerminal | assembly/host.go:1066-1112 | a cancel of the close settles nothing, a taken marker is reported and moves nothing, a refused registration hands the marker back and writes no receipt, and a calm landed terminal closes its entry |
| SettleDriver.Driver.RegisterTerminal | assembly/host.go:1087-1103 | a completed turn is carried before its receipt |
| SettleDriver.Driver.Fire | assembly/host.go:1210-1267 | in a calm process the account closes exactly when the flying segment had paired the task, or the turn landed and its delivery or its wait met the account, but for a cancel beside a closing host; its faces met the account one after the other |
| SettleDriver.Driver.DriveSeat | assembly/settle_turn.go:518-594 | a claimed seat ends consumed or pending unless a receipt write failed or the process stopped; in a calm process it ends consumed behind its receipt exactly when its attempt had landed or a dispatch to a declared target closed its account, an already paired task included, and a turn is counted exactly when one was fired; no turn runs before its in-flight marker is stored or outside the declared targets |
| SettleDriver.Driver.CloseLanded | assembly/settle_turn.go:535-550 | a landed attempt is consumed only with its bodies carried |
| SettleDriver.Driver.RestoreOwed | runtime/state/memory.go:427-447 | exactly the committed notifications without a receipt are seated, each once |
| SettleDriver.Driver.Drain | assembly/settle_turn.go:459-497 | a pass ends, drives a notification at most once, and ends by itself only when every pending terminal seat was tried |
| SettleDriver.Driver.Restart | runtime/state/durable.go:200-306 | the new process is one step of the account, knows exactly the stored receipts and attempts, and if it runs every call of the driver may follow |
| SettleDriver.Lifetime | assembly/settle_turn.go:459-497 | a driver of any number of processes under one entry runs the account, and strands no body of a notification whose terminals were all recorded |
| SettleFaces.SettledOnce | assembly/settle_turn.go:117-139 | two interleaved faces write at most one receipt and never both hold the account |
| SettleFaces.StrandedIffSkippedRefusal | assembly/host.go:1057-1081 | once both faces are done a receipt stands without a registration exactly when the fire face skipped an account the delivery face held and then failed to register |
| SettleFaces.WaitStrandsNothing | assembly/host.go:1196-1208 | behind a wait that answers when the delivery face has ended no receipt ever stands without its registration |
| EventBody.BodyRoundTrip | memory/event_body.go:208-231 | a restored event projects to the body it was restored from |
| EventBody.EventRoundTrip | memory/event_body.go:101-129 | an event reads back unchanged exactly when its time has no part below a millisecond |
| EventBody.SameFactReflexive | memory/event_body.go:244-259 | a body is the same fact as itself exactly when it is keyed |
| EventBody.SameFactSymmetric | memory/event_body.go:244-290 | the judgment is symmetric |
| EventBody.SameFactNotTransitive | memory/event_body.go:267-290 | three bodies for which it is not transitive |
| EventBody.TransitiveThrough | memory/event_body.go:244-290 | a chain through a body always closes exactly when that body declares every stamp |
| EventBody.CanonicalReads | memory/event_body.go:300-314 | what the judgment compares and what it leaves out |
| EventBody.JudgeAlike | assembly/facts.go:61-68 | two bodies of one fact judge every later commit alike exactly when they declare the same stamps |
| FactWindow.WindowKeeps | assembly/facts.go:168-187 | a fact stays exactly while it is among the most recent or no turn-end fact stands behind it |
| FactWindow.SegmentKept | assembly/facts.go:173-187 | the last turn-end fact and everything behind it stay |
| FactWindow.ShortChainKept | assembly/facts.go:93-98 | the count guard skips no trim |
| FactWindow.TrimOnce | assembly/facts.go:90-137 | trimming after every commit keeps exactly what one trim of the whole history keeps |
| FactWindow.TrimSessionChains | assembly/facts.go:117-137 | a trim holds its session to the window and touches no other |
| KeyBuffer.KeyBuffer.Compact | assembly/facts.go:191-203 | the in-place compaction is the order without the dropped identities |
| KeyBuffer.KeyBuffer.Append | assembly/facts.go:92-92 | an identity enters at the end of the order |
| FactLedger.CommitWindowed | assembly/facts.go:90-99 | one commit keeps every session on the window of its history |
| FactLedger.LandedStays | assembly/facts.go:173-187 | a commit never trims the fact it landed |
| FactLedger.TrimmedAll | assembly/facts.go:143-166 | trimming all sessions at once puts each on its window |
| SegmentIndex.SlotTaken | assembly/facts.go:243-256 | the next slot keeps every partition unique and contiguous |
| SegmentIndex.LastSlots | assembly/run.go:1540-1552 | the largest slot read back is the last one committed |
| SegmentIndex.EventKeys | memory/ledger/segment_store.go:289-314 | the index answers every record once in index order |
| FactChain.Run.constructor | assembly/run.go:390-402 | an empty run is valid |
| FactChain.Run.CommitFactChecked | assembly/facts.go:69-107 | an event without an identity is minted one; a commit that does not land changes nothing, and the tier gains the one record of the fact or none |
| FactChain.Run.CommitKeyed | assembly/facts.go:69-107 | the same fact is answered as it stands, another content is refused and changes nothing, a new fact lands in the ledger, in one sequence and as the one new record of the tier; its sequence closes behind an output, opens its range at the first input that may start one, and moves on nothing else |
| FactChain.Run.SequenceBoundary | assembly/facts.go:320-354 | over every commit since the last restart, the ended prefix of each registered sequence covers all restored material and every output, and nothing from the first input of an open range on |
| FactBoundary.CommitFollows | assembly/facts.go:337-354 | a commit keeps every registration what its own commits make of the entries the restart seeded, and registers nothing else |
| FactBoundary.CommitMoves | assembly/facts.go:337-354 | a commit moves the one sequence it enters by the rules of the boundary and leaves every other as it was |
| FactBoundary.RegistrationEnded | assembly/request.go:411-437 | a registered sequence holds what was restored and behind it its commits, each as its entry, and where its ended material stands |
| FactBoundary.SlotChosen | assembly/request.go:553-562 | an entry enters the registration of its own address, else the agent-less one of its session, else one it registers |
| FactBoundary.FactsForOwn | assembly/facts.go:337-342 | in a session no agent-less registration shares, the commits that reach an address are exactly its own mapped facts, and the first registers it |
| FactBoundary.SeededFollows | assembly/run.go:1486-1511 | a restart seeds every registration with ended material alone |
| FactChain.Run.PersistFact | assembly/facts.go:214-287 | exactly one record enters the tier, under the next slot, or the stored record answers the very fact, or nothing moves |
| FactChain.Run.AppendFact | assembly/facts.go:88-99 | the fact is live and its session on its window with an exact count |
| FactChain.Run.WindowCutLocked | assembly/facts.go:173-187 | the backward scan computes the cut of the window |
| FactChain.Run.TrimFactsLocked | assembly/facts.go:117-137 | map, order and count are trimmed to the window of one session |
| FactChain.Run.TrimSeededFacts | assembly/facts.go:143-166 | every seeded chain is held to its window with an exact count |
| FactChain.Run.SeedLandedSeq | assembly/run.go:1540-1552 | every partition continues at the slot the tier holds |
| FactChain.Run.Restart | assembly/run.go:1460-1535 | the tier alone rebuilds a valid run: windows, counts, slots and sequences |
| FactReplays.CommitTracks | assembly/facts.go:337-354 | every sequence carries exactly the entries its history owes it |
| FactReplays.SeedTracks | assembly/run.go:1486-1511 | a restart seeds exactly those entries, all as ended material |
| FactRestart.CommitFiles | assembly/facts.go:243-256 | a first commit files its chain behind the slots before it |
| FactRestart.RestartOrder | memory/ledger/segment_store.go:300-312 | a chain is read back in commit order exactly when its times never stepped back |
| FactRestart.RestartWindow | assembly/run.go:1444-1450 | the rebuilt window is the window the process held |
| FactRestart.RestartRefines | assembly/run.go:1460-1521 | an owned session of a mirrored tier comes back in commit order exactly when its times never stepped back, and then with its window, count and mapped sequence |
| FactRestart.CommitOnce | assembly/facts.go:69-107 | a commit of a live or never committed identity keeps the tier the mirror of the history and every owned session filed |
| FactRestart.RestartOnce | assembly/run.go:1460-1535 | the restart of a run rebuilds the live window, the live count, the mapped sequence and every slot it held, and leaves the tier filed for the next |
| FactRestart.Lifetime | assembly/run.go:1460-1535 | a run from its constructor, over any commits the tier takes or refuses, meets what its restart asks for |
| MappedSequence.MappedWhen | assembly/facts.go:613-649 | a fact maps onto an entry exactly where its message carries a text, a call or a tool name and it changes no configuration; the text stands as it is, and beside no text no call is lost |
| MappedSequence.ReadEndedPrefix | assembly/request.go:421-437 | the scan answers the position the boundary names |
| MappedSequence.BoundaryResolved | assembly/facts.go:337-354 | the boundary in closed form over the commits |
| MappedSequence.BoundaryAdvances | assembly/facts.go:320-354 | one commit never moves the prefix back, an output closes everything before it, input beside an open range moves nothing |
| MappedSequence.PrefixMonotone | assembly/request.go:421-437 | the ended prefix never moves backwards |
| MappedSequence.EndedMaterial | assembly/request.go:411-437 | every output is ended material, and nothing from an open range's first input on is |
| MappedSequence.RecommitMovesBack | assembly/facts.go:337-354 | a fact committed again moves the boundary back exactly when it is an output or opens a range beside none and its old entry resolves before the boundary |
| FactReplays.RecommitReached | assembly/facts.go:69-107 | commits reach such a boundary: the window has cut the fact, and its second commit takes the boundary back behind the first entry |
| MappedSequence.NoticesFrom | assembly/facts.go:512-543 | the notices from the re-anchored cursor on, in chain order, and the end as the next cursor |
| MappedSequence.NoticesReportedOnce | assembly/facts.go:501-543 | however commits and reads interleave, every notice below the cursor was reported once or ended when passed over, none twice |
| MappedSequence.ReadIsStep | assembly/facts.go:512-543 | one call of the cursor read is one read of that reader: the same notices at the positions it reports, and the same next cursor |
| FinalRound.FinalRoundSegmentOf | assembly/run.go:2172-2210 | by position: the range the newest fact in flight that names one names, how many tool rounds of that range are in flight, and the moment the earliest fact in flight landed; no segment exactly without a named range or a set moment |
| FinalRound.TrimInvisible | assembly/run.go:2161-2210 | the trimmed ledger answers the segment the whole history answers |
| FinalRound.FileFinalRoundRequest | assembly/run.go:2221-2254 | a live request of either reason files nothing, and a range in flight keeps at most one |
| FinalRound.OtherCommitKeeps | assembly/run.go:2212-2220 | commits of other facts keep that bound |
| FinalRound.RunRounds | assembly/run.go:2212-2254 | however commits, trims and filings interleave, the facts in flight carry at most one request after every one of them |
| Reentry.StepSound | assembly/host_tools.go:225-281 | every step of every caller keeps the three tables consistent |
| Reentry.SentIsServed | assembly/host_tools.go:203-210 | a sent answer means the round of task and ledger is the caller's own, in the slot it alone holds |
| Reentry.RefusedLeavesNothing | assembly/host_tools.go:262-279 | a refused caller leaves no round, no ledger move and no slot behind, or a broken receipt |
| Reentry.OnlyItsOwn | assembly/host_tools.go:398-406 | no step releases a slot, rolls back a round or withdraws an entry of another caller |
| Reentry.ReentryPort.ReenterTask | assembly/host_tools.go:225-281 | sent exactly when every table takes its step, otherwise everything but the used round number stands as before or the broken receipt is filed |
| Reentry.ReentryPort.Unwind | assembly/host_tools.go:398-406 | what the compensation puts back and when it is broken |
| Sorting.SortedUnique | memory/query_events.go:276-289 | a set has one sorted arrangement |
| EventQuery.ResolvePartitions | memory/query_events.go:104-124 | the named scope, deduplicated; nothing named scans nothing |
| EventQuery.QueryEventRecords | memory/query_events.go:248-298 | a page is ordered by time and then by key, backwards when descending, and an unpaged one holds the references of exactly the records in the partitions, times, kinds and keyword asked for; an unknown order or a negative bound is refused by name |
| EventQuery.CutOrdered | memory/query_events.go:275-298 | every page of the sorted keys is ordered by the time and key fields of its references |
| EventQuery.AdmitsAsked | memory/query_events.go:256-274 | the filter admits exactly the records a query asks for, the keyword matched at some place of summary or content with case folded |
| EventQuery.DescendingReverses | memory/query_events.go:275-289 | descending is exactly ascending read backwards |
| EventQuery.PagesConcatenate | memory/query_events.go:290-298 | pages of one size concatenate to the unpaged answer |
| EventQuery.QueryPages | memory/query_events.go:290-298 | every page is the slice of the unpaged answer |
| EventQuery.HighestWindow | memory/query_events.go:204-222 | the stored record of a key is the one of its highest window |
| EventQuery.StoreOrderIrrelevant | memory/query_events.go:204-222 | the table does not depend on arrival order or repetition |
| EventQuery.MemoryEventQuery.Store | memory/query_events.go:208-222 | one record stored, an unkeyed one refused |
| EventQuery.StoreQuerySource.LandEvent | memory/store_query.go:45-66 | an event that does not decode or disagrees on its key lands nothing, any other lands as its record |
| EventQuery.StoreQuerySource.ObserveStore | memory/store_query.go:71-82 | the events before the first refusal land, in order, and nothing behind it |
| EventQuery.SourcesAgree | memory/query_events.go:242-247 | both sources answer every query alike over the same events |
| EventQuery.ObserveTwice | memory/store_query.go:68-70 | observing again over unchanged state moves nothing |
| CallPairing.CallIdentityOf | assembly/request.go:1198-1224 | the identity and name the fact states itself, or for a settled delivery those of the earliest live result of its task that states one, else none |
| CallPairing.CallArgumentsOf | assembly/request.go:1226-1248 | the arguments of the earliest captured call that carries any, or the empty object |
| CallPairing.RestoreCallPairing | assembly/request.go:1149-1191 | one entry adds its message, and before it the issue no earlier message carries, with its tool name and arguments |
| CallPairing.ProjectedSegment | assembly/request.go:1075-1101 | every answered call was issued before, a pair is minted once and right before its answer with the name and arguments of the call, and without the minted messages the segment is one message per entry in order |
| ReplayEngine.Replay.Run | memory/replay.go:145-174 | one outcome per obligation in order, each skipped, refused or delivered as its answers say, and the confirmed set grows by exactly the delivered |
| ReplayEngine.DeliveredOnce | memory/replay.go:145-174 | duplicates in one call are delivered once |
| ReplayEngine.AcceptedAtMostOnce | memory/replay.go:89-103 | over any sequence of calls a sink accepts one identity at most once |
| Compression.CoveredOf | assembly/compress_consumer.go:340-353 | the parts that name a key, in order |
| Compression.CoveredReadsBack | assembly/compress_consumer.go:340-353 | covered keys read back exactly when each is non-empty and carries no separator |
| Compression.ProductRoundTrip | assembly/compress_consumer.go:296-336 | a product event reads back as its product exactly when key and judgment are named and every covered key is plain |
| Compression.CompressionConsumer.Record | assembly/compress_consumer.go:134-146 | a judgment is noted once per session |
| Compression.CompressionConsumer.NoteProduct | assembly/compress_consumer.go:151-158 | a product on the chain answers its judgment |
| Compression.CompressionConsumer.Pending | assembly/compress_consumer.go:216-231 | the unanswered judgments in filing order |
| Compression.CompressionConsumer.Execute | assembly/compress_consumer.go:169-212 | the ledger gains exactly the products the plan names last for the first pending judgments, in filing order and up to a refused filing, each with its key, covered keys and text; a judgment is answered and its fold applied exactly when its product is on record, at most once |
| Compression.CompressionConsumer.FileCompressProduct | assembly/compress_consumer.go:250-269 | a product enters under its identity once, one on record is left as it stands, and a refused filing changes nothing |
| CloseReport.MergeUnsettled | assembly/invoke.go:564-595 | the merged list as a function of its arguments |
| CloseReport.MergedUnion | assembly/invoke.go:556-595 | the union names exactly the work of its arguments, each once, sorted |
| CloseReport.MergedEitherWay | assembly/invoke.go:564-595 | the work it names does not depend on argument order |
| CloseReport.MergedAgain | assembly/invoke.go:564-595 | merging a merged list changes nothing |
| CloseReport.SpellingNames | assembly/invoke.go:569-571 | over NUL-free parts the merge key names address, task and reason and nothing else |
| CloseReport.SpellingCollides | assembly/invoke.go:569-571 | with a NUL inside, two different pieces of work share a key |
| CloseReport.CutApprovalWaits | assembly/invoke.go:254-280 | exactly the approval waits no hold carries and whose cancel commits are cut |
| CloseReport.Close | assembly/invoke.go:102-141 | quiesced exactly when nothing was cut, the criterion rests, writers stopped and no landing is owed; then and only then the list is empty; the failed answers are reported as read |
| CloseReport.MergeFailedAnswers | assembly/host.go:1592-1606 | the failed answers of both reports, first order kept |
| CloseReport.FoldReports | assembly/host.go:1576-1587 | the fold of the host's and the run's report |
| CloseReport.FoldedWorse | assembly/host.go:1572-1621 | the fold is never better than either report and hides no open work and no failed answer |

## Left out

- The hold counter is unbounded; the wrap of a 64-bit order number is not modelled.
- Hold times, lineage and the texts of failure notices: carried, never decided on. The failure notice of a turn without a body is an unkeyed delivery.
- Record bytes: a delivery record, an attempt or a body that does not decode refuses the boot by name; records are values here, and the JSON encoding of a canonical body is taken as injective.
- DeliveryHost.Host.Boot: reads the scanned keys in an arbitrary order where the code sorts them; the contract holds for every order.
- The close flag may be raised by another goroutine at any durable call or send; it never falls within a process.
- The delivery records and the settle account share one fact log in the code and are two logs here, so a barrier of one is not seen to complete staged records of the other.
- A settle driver wired beside no hand-off or beside no attempt face, and mailbox sites that are closed or retired.
- A segment that consumed a notice beside other input closes under another invocation; the bodies of a notification are those of its own invocation here.
- SettleRuns.NoBodyStranded: speaks of notifications no terminal of which a running process failed to record; SettleStranding.StrandsIffMissed shows that the code keeps no more.
- The landing of the failure observation and of the refusal notice on the chain, the query table and the vector pipeline behind a commit.
- Folds of a mapped sequence (`PlanByAge`, `ApplyProducts`, `RestoreProducts`): a product is placed and appends no entry, and the budget assembly presents every entry as it is. memory/replay's packing is not part of this model.
- FactRestart.RestartOnce: speaks of sessions whose facts all name their owner at one address and of commits whose identity is live or was never committed, because the code keeps no more than that.
- Product and final round request identities are digests in the code; here they are the content they address, and the two request identities of a range are named by the caller.
- Keyword matching folds ASCII case only, the trim of a body drops ASCII white space only, and strings are ordered by character where the code orders bytes.
- The source address of an unsettled item, which no comparison reads; wall-clock budgets, which appear as a nondeterministic stop.
- Reentry: the first round of a delegation is one step, and a continuation is never released; the rows are those of one task identity.
- HTTP faces, configuration decoding, prompt assembly, telemetry and tool wiring: plumbing or easy members beside these properties.
