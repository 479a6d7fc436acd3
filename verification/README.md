# Ormuz Ledger: a verified model

Ormuz Ledger commands drone missions across four nations. Brokers receive mission requests from sensors, charge the
nation one credit on a consortium ledger and queue the mission; stations lend missions to drones; drones fly them and
file reports on the ledger. This project models the ledger application, the brokers' queue and tables, the stations'
lease table, the Lamport clock, the idempotency filter and the grid, and proves what they guarantee over whole chains
and whole runs. `dafny verify dfyconfig.toml` checks everything.

## How it is laid out

| files | what they hold |
|---|---|
| `LedgerState`, `LedgerTheorems` | the replicated state machine on values (balances, processed operations, reports); closed form of a block, replay, audit, order independence |
| `Authentication`, `OperationKeys`, `Overdraft` | who may write, from decoding and signature checks alone; which operations the dedup key and the signed message tell apart; the mempool check against execution, exact balances and how far they fall |
| `FlatStore`, `LedgerApp`, `DatabaseTheorems` | the one flat text map behind it, the class whose methods consensus calls, and the proof that the map refines the state machine after every single write |
| `CrashRecovery` | processes that die between any two writes and replay the chain |
| `Missions`, `MissionQueue`, `AntiStarvation` | the order of missions, the binary heap in place, and what holds over any sequence of queue operations |
| `LamportClock`, `IdempotencyFilter` | the compare-and-swap clock and the event filter, each as a class and as a many-goroutine state machine |
| `Intake`, `Requests`, `WaitingRoom`, `UndividedIntake`, `BrokerCore` | the intake of one broker as a protocol of workers and verdict handlers; what gets past it at all; packet against verdict in every interleaving; what undivided workers and handlers come to |
| `BrokerProtocol`, `Forwarding`, `Failover`, `Lifecycle` | the other protocols: one broker's missions, packets among brokers, takeover, and the whole system over a bad network |
| `Execution`, `Payment` | across components: who queues and discharges an event when intake, queues and rescues of all brokers run together; what workers and rescues queue against what the ledger debits |
| `UnverifiedBuffer`, `ShadowBuffer`, `SectorRouting`, `BrokerServer`, `MissionProcessor`, `Radar` | the broker's tables and handlers and the station's lease table as classes, each tied to its protocol |
| `Grid` | the positions of stations and sensors |
| `Text`, `Permutations`, `MissionTables` | `strconv`, `strings`, sequences and tables of missions |

Where the code changes state, the model is a class whose methods carry the same branches. Each method ensures what it
computes from the old state and, where a protocol is about that state, that its calls are the protocol's own steps:
`Step` for one access, `Leads` or `Allowed` and `Final` for a whole handler or pass without interference. The theorems are
about every interleaving of those steps. A step is one access to shared state: a critical section, an atomic operation,
or an operation on a concurrent map. In `Lifecycle` it includes the message it gives rise to, and in `Failover` a pass
looks at the member set and queues in one step, which loses nothing because any member set may be in view. Functions the model does not look inside are parameters: `Node.decode` (JSON),
`Node.verify` (Ed25519) and the hash ring of `SectorRouting`. Times are integers.

## What the code does not guarantee

These were found false. The exact condition under which the code does meet each is proved.

- Balances can go negative: the block never looks at the balance. `Overdraft.BalanceClosedForm` says by how much a
  balance falls and so when it stays non-negative; `OverdraftBound` gives the bound 1 - k for guarded runs with at most k
  spends of the nation in a block, and `OverdraftFromGenesis` reaches it from an empty database.
- Passing the mempool check is not acceptance: `CheckedButRefused` passes it and gets any later code;
  `CheckedThenAccepted` says when a checked transaction is accepted.
- A crash inside a transaction's writes loses a credit or a report for good: `CrashesLoseOneEach` counts it exactly, and
  `CleanCrashesLoseNothing` says when nothing is lost.
- The dedup key `<Type>_<EventID>` and the signed text `<Type><NationID><EventID>` have no separator to rely on. Two
  types are told apart exactly under the conditions of `KeysApartExactly` and `MessagesApartExactly`, which the two known
  types meet; otherwise a valid operation is refused as a repetition of another (`OtherOperationRefused`).
- `Query("state")` returns every report exactly when no reported operation has a colon in its name.
- The order of missions is documented as total; missions can tie, exactly as `TiesAgreeOnKeys` says.
- A verdict that overtakes its packet can leave it in the waiting room although it was decided (`VerdictInGap`): exactly
  if it looks for the packet between the filter and the parking (`WaitingExactly`, `LeftExactlyInGap`).
- Two brokers can charge for one event (`TwoViewsChargeTwice`): never, exactly if at most one broker elects itself owner
  of the sector by some view it has (`ChargedOnceExactly`). The ledger accepts one of the two debits (`OneAcceptancePerKey`).
- A rescue can queue one ACK's mission twice (`PassesCanMeet`): in no run, exactly if rescue passes never overlap or no
  member set the router may show makes the sector ours (`RescuedOnceExactly`).
- A rescue loses no event (`NoEventIsLost`), but it can lose what the event's last ACK stored (`LateRemovalLosesCopy`):
  in no run, exactly if no event is acknowledged twice or no member set the router may show makes the sector ours
  (`LatestKeptExactly`).
- A mission can be lost from the pending table: an event that is queued twice, as overlapping rescues do, is checked out
  twice, and the second checkout overwrites the first (`SecondCheckoutOverwrites`); in no run, exactly if no event is
  admitted twice (`PendingKeptExactly`).
- Execution is not exactly-once across brokers: shadow copies outlive a discharge, and after a takeover another broker
  queues and discharges the event again (`CarriedOutAgain`); in no run, exactly if only the broker that elects itself
  ever owns the sector by a view of its own (`ServedOnceExactly`).
- Workers and rescues can queue an event more often than a chain that includes its spend debits for it
  (`TwoMissionsOneDebit`): in no run and on no such chain, exactly if at most one broker elects itself owner by a view of
  its own (`PaidForExactly`).
- The repository's README says that the ledger checks for double spending of credit and that leases were abolished;
  the code checks neither balance nor spending beyond the dedup key, and stations still lend missions for 10 seconds.
  The model follows the code.

## Model

| member | source | states |
|---|---|---|
| CrashRecovery.CrashesLoseOneEach | internal/ledger/app.go:144-166 | However many processes die, between any two writes, each replaying from a block already reached: the last one has the crash-free processed set, no balance above the crash-free one, no wrong report, and missing credits plus missing reports are exactly the deaths inside a transaction, so at most the number of deaths |
| CrashRecovery.CleanCrashesLoseNothing | internal/ledger/app.go:51-60 | The final database equals the crash-free one key by key if and only if no death fell inside a transaction's writes, deaths during the initial seeding included |
| CrashRecovery.EveryCrashPoint | internal/ledger/app.go:97-169 | Any prefix of a block's writes is some whole transactions plus a part of the next, so the crash model covers every write |
| AntiStarvation.NoStarvation | pkg/queue/priority_queue.go:100-131 | After an aging pass finds a mission past the limit, and while later arrivals have younger clocks, the missions not strictly after it shrink by one with every dequeue and it comes out within as many dequeues as missions were queued |
| AntiStarvation.WaitIsBounded | pkg/queue/priority_queue.go:25-38 | With arrivals of any age, the dequeues before a critical mission comes out are fewer than the missions as old as it at the start plus those that joined later |
| AntiStarvation.OrdinaryWaitIsBounded | pkg/queue/priority_queue.go:25-38 | While a mission that is not critical is neither dequeued nor past the limit at a pass, the dequeues are fewer than the missions critical or as old at the start plus those that joined so later; promotions in between do not add to them |
| AntiStarvation.PromotionIsEarned | pkg/queue/priority_queue.go:112-122 | Over any run, whatever is queued or comes out was there at the start, joined as it is, or is critical because an earlier pass read a clock greater than its clock plus the limit |
| AntiStarvation.StarvesWithoutAging | pkg/queue/priority_queue.go:25-38 | Without aging no bound exists: for every n a run with n dequeues and no aging pass leaves the mission waiting |
| AntiStarvation.DrainingSorts | pkg/queue/priority_queue.go:86-97 | Dequeuing until empty yields a permutation of the queue: critical missions first, then the older clock, then the sensor's name, read off the fields |
| LedgerTheorems.AuditReconciles | internal/ledger/app.go:97-168 | In every state reached from an empty database, each nation's spent credits are exactly its stored spend reports, processed and reported operations coincide, and balances plus accepted debits are 4000 |
| DatabaseTheorems.DatabaseReconciles | internal/ledger/app.go:148-166 | The same on the flat map: 1000 minus the parsed balance text is the number of report entries whose bytes decode to a spend of the nation |
| DatabaseTheorems.MarkedExactlyWhenReported | internal/ledger/app.go:161-166 | A processed mark is stored exactly when the report under the same key is |
| LedgerTheorems.OrderIndependence | internal/ledger/app.go:97-169 | Permuted transactions with distinct keys among the valid ones reach the same state, and each gets the result it would get alone |
| DatabaseTheorems.SameDatabaseAfterPermutation | internal/ledger/app.go:97-169 | ... and the same database, key by key |
| LedgerTheorems.BlocksDoNotMatter | internal/ledger/app.go:94-97 | Splitting a chain into blocks changes neither state nor results |
| LedgerTheorems.BlockClosedForm | internal/ledger/app.go:97-169 | Result i is the first refusal of transaction i alone, or 5 if its key was processed before or an earlier valid transaction of the block has it, or 0; `CodesInWords` reads the refusals off the decoded fields |
| Authentication.CodesInWords | internal/ledger/app.go:97-142 | In any chain: result 1 exactly for what does not decode, 2 exactly for a nation that is none of the four, 3 exactly for a signature that is not 128 hexadecimal digits, 4 exactly for one that does not verify for the nation and type, nation and event, and of the others 5 exactly for a processed key |
| Authentication.ReportsAreAuthentic | internal/ledger/app.go:108-131 | Every report that a chain adds is one of its transactions, decodes to an operation of one of the four nations under its key, and carries 128 hexadecimal digits that verify for type, nation and event |
| Authentication.AuthenticIsAccepted | internal/ledger/app.go:108-168 | A transaction of a chain is accepted if and only if it is so signed and its key is new by then, and its bytes are kept under the key |
| Authentication.DebitsInWords | internal/ledger/app.go:144-153 | Over any chain a balance falls by exactly the number of accepted transactions that decode to a SPEND_CREDIT of the nation |
| Authentication.CheckInWords | internal/ledger/app.go:71-91 | The mempool code from the decoded fields and the balances: 1, 2, 3 and 0 exactly |
| LedgerTheorems.FirstReportStays | internal/ledger/app.go:161-166 | The report stored for a key is that of the first accepted transaction with the key and is never overwritten |
| LedgerTheorems.ReplayIsNoOp | internal/ledger/app.go:134-142 | Re-executing an applied stretch of the chain any number of times leaves the state; each 0 becomes 5 and every other result stays |
| DatabaseTheorems.SameDatabaseAfterReplay | internal/ledger/app.go:134-142 | ... and leaves the database, key by key |
| Overdraft.BalanceClosedForm | internal/ledger/app.go:134-153 | After any chain a balance has fallen by exactly the number of the nation's valid spends that are the first with a fresh key, so it is non-negative if and only if these are at most the credits it had |
| Overdraft.OverdraftBound | internal/ledger/app.go:77-88 | If every spend passed the mempool check at its block's start and no block has more than k authentic spends of a nation, its balance is at least 1 - k after every transaction of every block |
| Overdraft.OverdraftReached | internal/ledger/app.go:146-153 | k fresh authentic spends against one credit all pass the check and leave 1 - k |
| Overdraft.OverdraftFromGenesis | internal/ledger/app.go:51-60 | From an empty database, 999 + k fresh authentic spends make a guarded chain that ends at 1 - k |
| Overdraft.CheckedThenAccepted | internal/ledger/app.go:71-91 | A checked transaction is accepted exactly if it is authentic and its key is fresh |
| Overdraft.CheckedButRefused | internal/ledger/app.go:71-142 | Every later refusal, by nation, signature format, signature and repetition, can follow a passed check |
| OperationKeys.KeysApartExactly | internal/ledger/app.go:135 | No operations of two types share a key if and only if neither type starts with the other and an underscore |
| OperationKeys.DedupKeyInjective | internal/ledger/app.go:135 | On the two known types the key determines type and event |
| OperationKeys.OneAcceptancePerKey | internal/ledger/app.go:134-142 | Of the valid transactions with one key, each but the first gets code 5 |
| OperationKeys.OtherOperationRefused | internal/ledger/app.go:134-142 | With colliding types, the later of two valid operations is refused as a repetition although type and event differ |
| OperationKeys.MessagesApartExactly | internal/ledger/app.go:124-125 | No message a nation signs can serve two types if and only if neither starts with the other and the nation's name |
| OperationKeys.MessageInjective | internal/ledger/app.go:124-125 | On the known types and nations the signed message determines type, nation and event |
| FlatStore.TornWrites | internal/ledger/app.go:144-166 | After each single write of a transaction the flat map represents the ledger that is debited, then marked, then reported |
| FlatStore.BlockRefines | internal/ledger/app.go:97-169 | Executing a block on the flat map refines running it on the ledger |
| FlatStore.RepresentsUnique | internal/ledger/app.go:148-166 | A ledger has exactly one flat form and a flat form at most one ledger |
| FlatStore.NoAliasing | internal/ledger/app.go:135-165 | Balance, processed and report keys never coincide |
| Text.AtoiItoa | internal/ledger/app.go:150-153 | Printing and parsing a balance, negative ones included, is the identity |
| Text.ItoaInWords | internal/ledger/app.go:152-153 | The printed text, digit by digit and with its sign |
| LedgerApp.OrmuzLedgerApp.constructor | internal/ledger/app.go:45-63 | Opening a database adds exactly the missing ones of the four `balance:` keys, each with 1000, and changes nothing else; the ledger is seeded accordingly |
| LedgerApp.OrmuzLedgerApp.CheckTx | internal/ledger/app.go:71-91 | The mempool code, each exactly: 2 for a spender whose `balance:` key is missing, 3 for one whose balance text is not positive; and it is the one computed on the ledger |
| LedgerApp.OrmuzLedgerApp.ExecuteTx | internal/ledger/app.go:97-169 | Each of the codes 0 to 5 as an if-and-only-if on decoding, nation, hexadecimal digits, signature check and the `processed:` key; a refusal writes nothing, an acceptance leaves exactly the debit, the mark and the report; and the ledger takes its step |
| LedgerApp.OrmuzLedgerApp.ApplyAndRecord | internal/ledger/app.go:144-166 | Debit, mark and report of an accepted transaction, in that order, with their keys and values written out |
| LedgerApp.OrmuzLedgerApp.FinalizeBlock | internal/ledger/app.go:94-175 | The block: the ledger's run, one result per transaction with 1 to 4 each exactly by decoding, nation, digits and signature check, and exactly the block's writes in order |
| LedgerApp.OrmuzLedgerApp.QueryState | internal/ledger/app.go:180-207 | A scan in any order returns the ledger's balances and reports if and only if no name has a colon |
| LedgerApp.OrmuzLedgerApp.Query | internal/ledger/app.go:178-222 | Dispatch of the three kinds of path |
| Missions.LessIsWeakOrder | pkg/queue/priority_queue.go:25-38 | `Less` is asymmetric and its negation is transitive |
| Missions.TiesAgreeOnKeys | pkg/queue/priority_queue.go:25-38 | Two missions tie exactly when criticality, clock and sensor agree |
| Missions.NotPrecededOnFields | pkg/queue/priority_queue.go:25-38 | A mission does not come before another exactly if that one is critical when it is, has the older clock among equals, and the first sensor name among equals of the clock |
| Text.BeforeIsLexicographic | pkg/queue/priority_queue.go:37 | One sensor name is before another exactly if at the first difference it has ended or has the smaller character |
| MissionQueue.RootPrecedesAll | pkg/queue/priority_queue.go:86-97 | In heap order nothing precedes the root |
| MissionQueue.PriorityQueue.Up | pkg/queue/priority_queue.go:78-83 | Sifting up restores heap order and permutes |
| MissionQueue.PriorityQueue.Down | pkg/queue/priority_queue.go:86-97 | Sifting down restores heap order among the first n, permutes, and leaves the rest in place |
| MissionQueue.PriorityQueue.Init | pkg/queue/priority_queue.go:125-128 | Rebuilding makes any arrangement a heap of the same missions |
| MissionQueue.PriorityQueue.Enqueue | pkg/queue/priority_queue.go:78-83 | Adds the mission and keeps heap order |
| MissionQueue.PriorityQueue.Dequeue | pkg/queue/priority_queue.go:86-97 | Takes out a mission that is critical if any queued one is, has the oldest clock of its kind, and the first sensor among those; nothing exactly when the queue is empty |
| MissionQueue.PriorityQueue.AgingPass | pkg/queue/priority_queue.go:100-131 | A mission changes exactly if it is not critical and the clock exceeds its own by more than the limit, then only in that flag; heap order is restored |
| BrokerProtocol.AdmissionsAreConserved | cmd/broker/http_server.go:92-183 | In every interleaving, with late, lost, repeated or invented messages, each admission of an event, by a worker or a rescue, is accounted for once: in the queue, the pending table, a hand, discharged, dropped by an unknown action, or overwritten by a later checkout |
| BrokerProtocol.NeitherLostNorDoubled | cmd/broker/http_server.go:92-183 | An event admitted once is in exactly one of queue, pending table, a hand, discharged or dropped, and never overwritten |
| BrokerProtocol.PendingKeptExactly | cmd/broker/http_server.go:127-132 | No run that admits events at most k times each overwrites a pending mission, if and only if k is at most one |
| BrokerProtocol.SecondCheckoutOverwrites | cmd/broker/http_server.go:127-132 | The run in which the second checkout of an event queued twice takes the place of the first |
| BrokerProtocol.OnlyUnknownActionsDrop | cmd/broker/http_server.go:174-180 | An event is dropped exactly when an action other than REQUEUE and SUCCESS found it pending |
| BrokerProtocol.TakenBackExactly | cmd/broker/http_server.go:92-109 | In every interleaving the janitor may take a pending event if and only if more than 60 seconds have gone by since the event's last checkout, and takes the mission of that checkout |
| BrokerProtocol.TakenBackLate | cmd/broker/http_server.go:100-103 | Each time it took an event, the event's last checkout was more than 60 seconds before |
| BrokerServer.HTTPServer.Checkout | cmd/broker/http_server.go:126-132 | Makes a mission that has left the queue pending, as the protocol's `Checkout` step |
| BrokerServer.HTTPServer.Settle | cmd/broker/http_server.go:159-165 | Settles an event exactly if it is pending, as the protocol's `Resolve` step |
| BrokerServer.HTTPServer.HandleQueuePop | cmd/broker/http_server.go:112-138 | Hands out a first mission and makes it pending, in the protocol's two steps; nothing exactly when the queue is empty |
| BrokerServer.HTTPServer.HandleQueueResolve | cmd/broker/http_server.go:141-183 | Settles a pending event once; REQUEUE puts the sent mission back, in the protocol's second step |
| BrokerServer.HTTPServer.PendingJanitorTick | cmd/broker/http_server.go:92-109 | Leaves pending exactly the entries of at most 60 seconds, and puts exactly the others' missions back into the queue, once each, by the protocol's steps |
| BrokerServer.HTTPServer.HandleShadowSync | cmd/broker/http_server.go:188-232 | A peer's verdict on an event is remembered by the filter; ACK and NACK take it out of the waiting room, ACK alone stores the sent mission; these are the intake's steps and end as `OnVerdict` says; one without an event is refused and changes nothing |
| WaitingRoom.WaitingExactly | cmd/broker/http_server.go:212-228 | In every interleaving of workers, handlers and expiry, an event is left in the waiting room if and only if its packet was let in and parked, did not expire since, and every verdict that looked for it did so between the filter and the parking |
| WaitingRoom.LeftExactlyInGap | cmd/broker/mission_processor.go:38-58 | One packet and one verdict, in any interleaving: the packet is left waiting exactly if the verdict falls between its filter and its parking |
| WaitingRoom.VerdictInGap | cmd/broker/http_server.go:212-229 | An ACK or NACK taken in whole in that gap leaves the packet waiting, which no order of undivided handlers does |
| WaitingRoom.KnownExactly | internal/inventory/idempotency_table.go:26-33 | In every interleaving the filter remembers exactly the events of packets it let in and of verdicts heard |
| WaitingRoom.ShadowExactly | cmd/broker/http_server.go:219-221 | In every interleaving the shadow copy is the last one an ACK stored and no rescue took, whatever the packets did |
| UndividedIntake.UndividedOrdersAgree | cmd/broker/mission_processor.go:38-64 | A packet for another broker's sector and an ACK or NACK, each handled in whole by the protocol's steps, leave the same filter, waiting room and shadow buffer in either order, and no waiting packet |
| UndividedIntake.WorkInWords | cmd/broker/mission_processor.go:54-80 | What a worker has done when its work ends: one packet with the stamped clock to the owner and nothing else, or one charge, the mission queued exactly if approved, and one verdict to each other member |
| Requests.TakenUpExactly | cmd/broker/mission_processor.go:29-42 | In any run, a packet puts a worker to work if and only if it is a requisition with a sensor and a positive sector and the filter does not know its event |
| Requests.OnlyRequestsPass | cmd/broker/mission_processor.go:34-80 | In every interleaving, whatever is sent to a broker: what is handled, charged, parked, queued, forwarded and announced is a requisition with a sensor and a positive sector |
| Requests.OnlyRequestsTravel | cmd/broker/mission_processor.go:34-80 | ... and so it is at every broker among all, the copies that it keeps of others' missions included |
| BrokerCore.PacketAndVerdictCommute | cmd/broker/http_server.go:212-229 | When packet and ACK or NACK are each handled without interference, their order does not matter to filter, waiting room and shadow buffer |
| BrokerCore.UnknownActionsDoNot | cmd/broker/http_server.go:214-229 | With any other action the two orders differ: one leaves the packet waiting, the other never admits it |
| Lifecycle.DischargeIsCausal | cmd/station/http_server.go:75-132 | Over a losing, repeating, reordering network with crashes, a broker discharges an event only after a drone finished a flight for it that it began by taking the mission after some broker checked it out |
| Lifecycle.OnlyResolvingDischarges | cmd/broker/http_server.go:157-180 | Only a SUCCESS message that was sent, for an event that is pending, discharges it |
| Lifecycle.PartsKeepInvariants | cmd/station/main.go:35-52 | In the whole system every broker accounts for each admission of an event and every station for each of its leases |
| Lifecycle.SweptExactly | cmd/station/http_server.go:95-108 | In every run, crashes included, a sweep may take a mission from its drone if and only if more than 10 seconds have gone by since the station last lent it or renewed its lease |
| Lifecycle.MissionOutlivesDrone | cmd/station/main.go:35-52 | A run in which a drone is lost with its mission, the lease expires, the station gives the mission back, the broker queues it again, and another drone's flight discharges it, once |
| Forwarding.PassesEachFilterOnce | cmd/broker/mission_processor.go:38-42 | An event gets past each broker's filter at most once, whatever the ownership views |
| Forwarding.ForwardingEnds | cmd/broker/mission_processor.go:56-65 | Workers take an event up at most as often as there are brokers |
| Forwarding.StampsAlwaysRise | cmd/broker/mission_processor.go:44-52 | Barring overflow, every mission's stamp exceeds its packet's clock, because it comes from a tick or a sync of the broker's clock |
| Forwarding.ChainsClimb | cmd/broker/mission_processor.go:44-65 | Along a chain of forwards the brokers' clocks make the packets' clocks rise strictly, and no broker comes twice |
| Forwarding.ChargersElectThemselves | cmd/broker/mission_processor.go:54-81 | In every interleaving a broker charges an event at most once, queues it at most as often, and charges only if it elects itself; it forwards only if it does not, and then to its view's owner |
| Forwarding.ChargedOnceExactly | cmd/broker/mission_processor.go:54-71 | Whatever views each broker may change among, no run lets two brokers charge for an event if and only if at most one broker is the sector's owner by a view of its own |
| Forwarding.OneViewElectsOwner | cmd/broker/routing.go:66-80 | If all route by one non-empty view, exactly the sector's owner elects itself |
| Forwarding.TwoViewsChargeTwice | cmd/broker/routing.go:34-63 | Under two views some run charges for one event twice |
| Forwarding.VerdictsComeFromCharges | cmd/broker/mission_processor.go:68-79 | Every verdict in transit comes from a broker that charged for the event, and queued it exactly for an ACK |
| MissionProcessor.Processor.Process | cmd/broker/mission_processor.go:28-81 | Ignored exactly if unreadable, not a requisition with a sensor and a positive sector, or known to the filter; otherwise stamped, and by the ring's choice either parked for 10 seconds and forwarded with its stamp, or charged, queued exactly if approved, and announced once to every other member; the stamp is the tick, or one past the larger clock; these are the intake's steps |
| MissionProcessor.Processor.BroadcastValidationSync | cmd/broker/mission_processor.go:84-107 | One verdict to every other member and nobody else |
| Failover.OneRescuer | cmd/broker/shadowbuffer.go:22-48 | Under one non-empty member set a rescue at each survivor queues the event once, at the owner, and all others keep their copy |
| Failover.RescuedTwiceMeansPassesMet | cmd/broker/shadowbuffer.go:22-48 | Over any views and any interleaving, only two passes that hold it at the same time queue what one ACK stored twice |
| Failover.RescuedOnceExactly | cmd/broker/routing.go:55-58 | Whatever member sets the router may show: no run with at most that many passes at an entry at once queues an ACK's mission of the sector twice, if and only if that is at most one, or none of the member sets makes the sector ours |
| Failover.PassesCanMeet | cmd/broker/routing.go:55-58 | Two overlapping passes queue one ACK's mission twice under any member set that makes it ours |
| Failover.NoEventIsLost | cmd/broker/shadowbuffer.go:22-55 | Over any views, ACKs and passes, an event that was acknowledged is still stored or was queued |
| Failover.LatestKeptExactly | cmd/broker/shadowbuffer.go:31-37 | Whatever member sets the router may show and however passes and ACKs interleave, no run with at most k ACKs to an event leaves the last one's copy neither stored, held nor queued, if and only if k is at most one or none of the member sets makes the sector ours |
| Failover.LateRemovalLosesCopy | cmd/broker/shadowbuffer.go:35-36 | Under any member set that makes the sector ours, a pass removes a second ACK's copy that it never saw |
| Execution.ServedWasDue | cmd/broker/shadowbuffer.go:31-37 | Over all brokers' intakes, queues and rescues, a broker discharges an event only if it charged for it and elects itself, or owns the sector by a view of its own |
| Execution.CarriedOutAgain | cmd/broker/shadowbuffer.go:58-61 | A run in which the owner alone charges for an event and discharges it, and then another broker, made the owner by its view, rescues its copy and discharges it again |
| Execution.ServedOnceExactly | cmd/broker/shadowbuffer.go:22-61 | No run that charges for an event at one broker only discharges it at two, if and only if no broker but the one that elects itself ever owns the sector by a view of its own |
| Payment.DebitsCountEvents | internal/ledger/app.go:134-153 | Over any chain the accepted debits are exactly as many as the events they pay for |
| Payment.DebitedOnce | internal/ledger/app.go:134-153 | However often its spend is on the chain, an event not processed before is debited exactly once, if no types but the two known occur |
| Payment.QueuedOnceByElector | cmd/broker/mission_processor.go:54-70 | If at most one broker elects itself, whoever queues an event in any run of intakes, queues and rescues elects itself and queues it once |
| Payment.PaidForExactly | cmd/broker/mission_processor.go:68-70 | Over all runs of intakes, queues and rescues and all chains that include the event's spend: the event is never queued more often than it is debited, if and only if at most one broker elects itself owner by a view of its own |
| Payment.TwoMissionsOneDebit | cmd/broker/ledger_client.go:67-99 | When two brokers elect themselves, some run queues the event at both while its spend, which passes the mempool check, is debited once |
| ShadowBuffer.ShadowBufferManager.RescueOrphanedMissions | cmd/broker/shadowbuffer.go:22-48 | Moves exactly the missions whose sector the ring gives to a local address, by the members in view when the entry is visited, into the queue, one entry each, in the steps of one pass, and counts them |
| ShadowBuffer.ShadowBufferManager.Store | cmd/broker/shadowbuffer.go:51-55 | Stores or overwrites under the event, as the protocol's `Acked` step |
| UnverifiedBuffer.UnverifiedBufferManager.Store | cmd/broker/unverified_buffer.go:30-37 | Parks the mission for 10 seconds, as the intake's step does |
| UnverifiedBuffer.UnverifiedBufferManager.RetrieveAndRemove | cmd/broker/unverified_buffer.go:40-46 | Takes the mission out if it is there, as the intake's step does |
| UnverifiedBuffer.UnverifiedBufferManager.JanitorPass | cmd/broker/unverified_buffer.go:49-62 | Drops exactly the expired missions, by steps of the intake |
| SectorRouting.SectorRouter.ObserveTopology | cmd/broker/routing.go:34-63 | The view changes exactly on a successful non-empty lookup with other addresses, and is never emptied |
| Radar.LeasesAreConserved | pkg/radar/radar.go:25-118 | Each marking is accounted for once: in the table, in the sweeper's hands, returned, acknowledged or replaced by a newer marking |
| Radar.ExpiredIsNotRevived | pkg/radar/radar.go:36-54 | Once expired, a lease stays expired and every renewal is refused until its event is marked again |
| Radar.InFlightManager.MarkInFlight | pkg/radar/radar.go:25-33 | Starts a lease |
| Radar.InFlightManager.RenewLease | pkg/radar/radar.go:36-54 | Extends a lease exactly while it is there and unexpired |
| Radar.InFlightManager.Acknowledge | pkg/radar/radar.go:57-67 | Ends a lease, reporting whether it was there |
| Radar.InFlightManager.Nack | pkg/radar/radar.go:70-84 | Ends a lease and queues its mission, in the protocol's two steps |
| Radar.InFlightManager.CollectExpired | pkg/radar/radar.go:100-111 | Takes out exactly the expired leases, each once, by the protocol's steps |
| Radar.InFlightManager.Sweep | pkg/radar/radar.go:99-118 | Moves exactly the expired missions to the queue, by the protocol's steps |
| LamportClock.CompletionsAreOrdered | pkg/clock/lamport.go:8-39 | Under any interleaving, completed operations return strictly increasing values |
| LamportClock.SyncPassesReceived | pkg/clock/lamport.go:18-39 | A synchronisation returns one past the larger of the clock received and the clock read |
| LamportClock.FailureMeansProgress | pkg/clock/lamport.go:27-37 | A failed swap means that another goroutine completed an operation since the reading |
| LamportClock.ClockRises | pkg/clock/lamport.go:8-39 | The clock never falls, and rises exactly when an operation completes |
| LamportClock.Clock.Tick | pkg/clock/lamport.go:8-10 | Rises by one, or to 0 from the largest 64-bit word, as the protocol's tick |
| LamportClock.Clock.CompareAndSwap | pkg/clock/lamport.go:35-37 | Succeeds exactly if the clock is what was read, as the protocol's swap, and otherwise leaves it, as its failed swap |
| LamportClock.Clock.Sync | pkg/clock/lamport.go:18-39 | The retry loop returns one past the larger of the clock it last read and the received one, or 0 if that is the largest 64-bit word, after exactly the attempts that interference spoiled |
| IdempotencyFilter.PassesOncePerRetention | internal/inventory/idempotency_table.go:26-54 | Under any interleaving the same event passes twice only more than the retention time apart |
| IdempotencyFilter.Filter.CheckAndAdd | internal/inventory/idempotency_table.go:26-33 | True exactly for an event not remembered, which then is |
| IdempotencyFilter.Filter.CleanupPass | internal/inventory/idempotency_table.go:36-54 | Forgets exactly the expired events, by the protocol's steps |
| Grid.StationsAreApart | pkg/routing/routing.go:8-41 | Stations stand on the boundary, and two slots share a point only if they are the same slot |
| Grid.StationsAreSpaced | pkg/routing/routing.go:21-22 | The first station is half a spacing along the border and each next one a whole spacing further |
| Grid.WalkIsClockwise | pkg/routing/routing.go:26-38 | The border is walked from the north-west through the north-east, south-east and south-west corners, straight in between and as far as the position increases |
| Grid.BordersFit | pkg/routing/routing.go:9-13 | The border is one step outside the smallest square width and the fewest rows that hold the sensors |
| Grid.PerimeterRoundTrip | pkg/routing/routing.go:29-41 | The distance along the perimeter is recovered from the point |
| Grid.SensorsAreApart | pkg/routing/routing.go:44-62 | Sensors stand strictly inside, the sector is (y - 1) * width + x, and two sectors never share a point |
| Grid.DefaultPositions | pkg/routing/routing.go:45-60 | A sector that is not positive counts as the first, and without a number of sensors there is one column |

## Left out

- Event IDs shorter than eight characters: the code's log lines slice the first eight and would panic, so `Transaction` holds longer ones only.
- JSON, hexadecimal values and Ed25519 beyond "decodes", "64 bytes of hexadecimal" and "verifies"; the JSON text of query answers.
- HTTP, UDP, DNS, Docker and the consensus engine: replaced by messages and an ordered chain.
- The consistent-hash ring: any function that picks a member of a non-empty set.
- 64-bit overflow of balances, which takes 2^63 debits; the clock's overflow is modelled, and the theorems over runs assume it away as `NoOverflow`.
- Floating-point rounding in the grid: positions are reals and the square root is exact.
- The lease fields of a mission, which no code sets, and sensors, telemetry, load generation, logging, health and explorer pages.
- The drone's heartbeat goroutine: a flight either finishes or is aborted. No liveness is claimed for it.
- Drone registration at a station: a drone that is not registered is only refused, so the runs here include all of its runs.
- BrokerProtocol.NeitherLostNorDoubled: of an event admitted once; `AdmissionsAreConserved` covers events that rescues admit again.
- Execution: broker crashes, and what becomes of a flight between checkout and confirmation; `Lifecycle` covers both.
- Intake: a filter never forgets here, so neither does it in `WaitingRoom` and `Forwarding`; `PassesOncePerRetention` says for how long that holds.
- Forwarding.ForwardingEnds: holds while no filter forgets the event; `PassesOncePerRetention` says for how long that is.
- AntiStarvation.NoStarvation: later arrivals have younger clocks; `WaitIsBounded` covers returned and rescued missions with old clocks.
- Lifecycle.DischargeIsCausal: nothing but a station sends a confirmation.
- Execution.CarriedOutAgain: the confirmations in the run are SUCCESS messages that anyone may have sent, so it is proved of the brokers' discharges and not of two flights.
- Execution.ServedOnceExactly: of discharges, in the same sense; that a discharge follows a flight is in `Lifecycle`.
- Payment.PaidForExactly: of chains that include the event's spend; the consensus engine may leave out a spend that passed the mempool check.
- BrokerServer.HTTPServer.PendingJanitorTick: one tick without interference; its steps interleave with all others in `BrokerProtocol`.
- BrokerServer.HTTPServer.HandleQueuePop: one call without interference; its two steps interleave with all others in `BrokerProtocol`.
- BrokerServer.HTTPServer.HandleQueueResolve: one call without interference; its two steps interleave with all others in `BrokerProtocol`.
- BrokerServer.HTTPServer.HandleShadowSync: one call without interference; its three steps interleave with all others in `Intake` and `WaitingRoom`.
- MissionProcessor.Processor.Process: one call without interference; its steps interleave with all others in `Intake`, `WaitingRoom`, `Forwarding` and `Execution`.
- ShadowBuffer.ShadowBufferManager.RescueOrphanedMissions: one pass that only changes of view interfere with; passes and ACKs interleave in `Failover`.
- ShadowBuffer.ShadowBufferManager.ClearMission: nothing calls it, so no theorem is about it.
