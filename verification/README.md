# Tesseract, the Hyperbridge relayer: a verified model

Tesseract is the off-chain relayer of Hyperbridge. It watches pairs of chains, turns the events of
one into proof-carrying messages for the other, decides which are worth relaying, keeps the rest for
a later retry, and claims and withdraws the fees it earned. This project models that core in Dafny
4.11 and proves what holds over whole runs of it. `dafny verify dfyconfig.toml` checks everything.

## How it is organised

| module | what it models |
|---|---|
| `Poller`, `RangeQuery`, `HeightCursor`, `UpdatePipeline` | the update streams with challenge period and veto race, the chunked block-range query, the messaging task's height cursor, and all of them together |
| `PollerProgress` | when a stream stops, moves on and yields, and that nothing is held back |
| `Profit`, `Translate` | judging estimated messages, and translating events into batches whose parallel lists stay aligned |
| `Unprofitable`, `Retry`, `RetryCycles` | the retry table, what a retry cycle makes of the messages it read, and the whole cycle against the table |
| `RetryRuns`, `RetryRefinement` | the interleaved cycles of all destinations, and each cycle as a path of theirs |
| `DeliveryKeys`, `Deliveries`, `FeeLedger`, `FeeProofs`, `FeeProtocol` | naming and storing deliveries, what hyperbridge records when it accepts a fee proof, preparing the proofs, and the interleaved accumulation tasks |
| `FeeProgress` | what each accumulation task reads, checks, proves and deletes, and what is claimed when every await succeeds |
| `Withdrawals`, `WithdrawalProgress` | delivering pending withdrawals and requesting new ones, without losing any, and what a tick gets done |
| `Decimal`, `Money` | fixed-point money on decimal strings against integer arithmetic |
| `PipelineQueue`, `GetRequests`, `Grouping`, `StatusIndex`, `Telemetry` | the transaction queue, GET-request grouping, the indexer's status merge with its reader, and the online-relayer index |
| `Prelude`, `Arithmetic`, `Ismp` | shared lists, numbers and message types |

Conventions. Calls to chains and to the database are parameters: an answer is an argument of the step
that awaits it, so every combination of answers and failures is covered. Where the program runs tasks
concurrently, a module holds a state machine whose actions are the points between two awaits, and its
theorems range over all action sequences, including crashes. Loops and objects of the program are
methods and classes, each proved equal to a function whose properties are then proved as lemmas.
256-bit and 64-bit limits are explicit. A database batch is one transaction.

## Where the code does not do what one would expect

- Hyperbridge accepts a fee proof even if some of its keys have no fee metadata on the source chain, or
  are unknown to it, and leaves those keys unclaimed; the relayer deletes their rows nevertheless.
  `FeeLedger.AcceptedClaimsIff` gives the exact condition for a key, `FeeProtocol.ConservationIff` the one
  for runs, and `FeeProtocol.UnpaidDeliveryForgotten` is the counterexample.
- Hyperbridge rejects a proof all of whose keys are claimed already or unknown, and that ends the accumulation
  task: later proofs are not submitted, and an automatic task then deletes no row at all, not even those of the
  keys it got claimed (`FeeProgress.ManualClaims`, `FeeProgress.AutomaticClaims`).
- A block query that fails is logged and skipped, and its blocks still count as scanned or watched. So an
  update can be yielded although it was vetoed in a watched block, or is not the highest of its range, and
  the messaging task can pass over events for good (`Poller.UpdateStreamSound`, `Poller.MissedVeto`,
  `HeightCursor.EventsOnceInOrder`).
- A withdrawal can be issued and forgotten without any crash or failing database call: `withdraw_funds`
  waits for the extrinsic to be finalized and may then fail to find its block or event
  (`Withdrawals.NothingLostIff`, `Withdrawals.UnconfirmedWithdrawalForgotten`).
- The retry task deletes every row it read, also those it got no estimate, fee, proof or submission for, and
  only then stores what is left to retry, if it can read the clock. `Retry.RetryFates` says exactly when a
  cycle loses nothing, `RetryRefinement.CycleConservesIff` what that means for the table, and
  `Retry.UnansweredEstimateLoses` is the counterexample; for whole runs, with failing stores and crashes,
  `RetryRuns.RetryConservationIff` and `RetryRuns.MessageForgotten`.
- `parse_to_27_decimals` inflates prices with more than 27 fractional digits
  (`Money.ParseExactIff`, `Money.ParseInflates`).
- A relayed candidate list is cut off silently when the sink returns fewer estimates than messages
  (`Translate.MessagePartition` is an if-and-only-if).
- The order of status operations matters to the indexer exactly when only creations carry the highest
  status and some operation carries a lower one (`StatusIndex.PermutationInvariantIff`). The handler that
  creates requests uses the lowest status, so its runs are order-free (`StatusIndex.HandlersOrderFree`).
- A relayer that is still online disappears from the telemetry report exactly when another socket with
  the same claim leaves (`Telemetry.DisconnectExactIff`, `Telemetry.OnlineReport`,
  `Telemetry.SharedClaimVanishes`).
- The log message in `withdraw` speaks of $100, its code compares with $10; the model follows the code.
- The buffer on the gas price raises the price offered but not the cost used in the profit test.

## Model

| member | source | states |
|---|---|---|
| Poller.Best | tesseract/substrate/src/provider.rs:573-581 | the update picked is a matching event of the scanned list and no matching event is higher; none is picked only if none matches |
| Poller.BestIsLast | tesseract/substrate/src/provider.rs:573-581 | among several highest updates the last one is picked |
| Poller.UpdateStream.Highest | tesseract/evm/src/provider.rs:648-654 | the loop over the events computes that pick |
| Poller.UpdateStream.AwaitChallenge | tesseract/evm/src/provider.rs:675-704 | the race loop over any interleaving of clock readings and veto polls ends as the recursive race does |
| Poller.RaceSound | tesseract/primitives/src/lib.rs:469-493 | the challenge period wins only once chain time is strictly past update time plus period and, if the node does not lie, only if no veto lies in any block it answered for among those watched by then; blocks whose query failed count as watched and are recorded as missed |
| Poller.RaceComplete | tesseract/evm/src/provider.rs:678-704 | with the clock, period and head queries answered, no node lying and no veto on chain, the race never fails whatever block queries do: it is won, or every clock reading was still within the period |
| Poller.UpdateStream.Turn | tesseract/substrate/src/provider.rs:518-636 | one turn of the polling loop changes cursor, scanned ranges and yields exactly as the step function, which `PollerProgress.TurnIff` gives an exact account of |
| Poller.UpdateStream.Poll | tesseract/evm/src/provider.rs:602-708 | the whole loop over any answers is the run of that step function |
| Poller.UpdateStreamSafe | tesseract/evm/src/provider.rs:597-707 | over every run, from every prefix to the whole, the cursor only grows and ranges and yields are only added; scanned ranges tile the chain from the initial height to the cursor; yields come one per range, in order, from their own range, after their challenge period |
| Poller.UpdateStreamSound | tesseract/substrate/src/provider.rs:514-636 | in every run in which nodes do not lie, each yield is an update of its range, the highest in the blocks answered for, and unvetoed in the watched blocks answered for; it is the highest of the whole range and unvetoed in all watched blocks iff no unanswered block hides a higher update or the veto |
| Poller.MissedVeto | tesseract/evm/src/provider.rs:302-314 | a run in which no node lies, one chunk query of the veto watch fails, and an update vetoed in that very block is yielded |
| Poller.YieldsGrow | tesseract/evm/src/provider.rs:580-719 | on a chain whose updates grow, with nodes that do not lie, yielded heights strictly increase, whatever queries fail |
| PollerProgress.RaceIff | tesseract/evm/src/provider.rs:675-704 | a race is undecided iff no await decides it, and otherwise ends as the first one that does says: the period or clock unreadable, the clock past the period, an error of the veto watch, or the veto in the blocks it searches |
| PollerProgress.TurnIff | tesseract/substrate/src/provider.rs:518-636 | one turn halts iff nobody is left to tell of an error or an update, or the race never ends; otherwise the cursor is at the head if that is new, and a yield is added iff an update was read whose time is known and whose period elapsed with a receiver there: a highest one, with its range and unread blocks |
| PollerProgress.StreamLives | tesseract/evm/src/provider.rs:597-707 | over every run the stream is halted iff a round stopped it; until then its cursor is the highest head it was told; and the yields are as many as the rounds that had one |
| PollerProgress.NothingHeldBack | tesseract/evm/src/provider.rs:597-707 | if nothing fails and nothing is vetoed the stream never halts, and every matching update in the blocks passed is yielded, or one at least as high from the same range |
| UpdatePipeline.EveryEventOnce | tesseract/messaging/src/lib.rs:204-240 | stream and cursor together, whatever fails and whatever updates the messaging task misses by lagging behind: the events of the other chain from the initial height to the last height received are read once and in block order, except those of blocks whose query failed; so all are read iff those blocks hold none |
| RangeQuery.QueryIsmpEvents | tesseract/evm/src/provider.rs:286-317 | all arithmetic stays in 64 bits except incrementing the largest height; asks for exactly the greedy split of the range and returns the answered batches in order; fails only on that increment or a zero chunk size |
| RangeQuery.SubrangeBounds | tesseract/substrate/src/provider.rs:262-264 | the bounds computed for chunk `i` are those of the `i`-th greedy subrange, without overflow |
| RangeQuery.AskAll | tesseract/evm/src/provider.rs:296-314 | the chunk loop asks for every subrange in order and skips only unanswered ones |
| RangeQuery.SubrangesTile | tesseract/evm/src/provider.rs:298-301 | subranges are nonempty, contiguous, at most one chunk long, and reach from first to last height |
| RangeQuery.SubrangesCount | tesseract/substrate/src/provider.rs:259-264 | every height of the range lies in exactly one subrange and no other height in any |
| RangeQuery.QueryRefinesRange | tesseract/evm/src/provider.rs:286-317 | against a truthful node the chunked query equals reading the readable blocks one by one, and all blocks if every chunk is answered |
| RangeQuery.AnsweredIff | tesseract/evm/src/provider.rs:302-314 | a height of the range is answered for iff no failed subrange holds it, and failed subranges stay within the range |
| RangeQuery.NothingMissingIff | tesseract/substrate/src/provider.rs:275-292 | a list read with gaps equals the whole one iff no skipped block holds an event |
| HeightCursor.MessagingTask.HandleUpdate | tesseract/messaging/src/lib.rs:264-310 | the cursor moves to whatever height arrives and exactly the blocks in between are asked for |
| HeightCursor.MessagingTask.HandleNotifications | tesseract/messaging/src/lib.rs:209-240 | over a whole stream, with failed items skipped, the requests are those of the successive heights |
| HeightCursor.RequestedPerClimb | tesseract/messaging/src/lib.rs:264-310 | a block is asked for once per update that climbs past it |
| HeightCursor.ClimbsBalanceFalls | tesseract/messaging/src/lib.rs:306-310 | climbs and falls past a block differ by whether it lies below the last and the initial height |
| HeightCursor.HeightCoverage | tesseract/messaging/src/lib.rs:209-316 | above the initial height exactly the blocks up to the highest update are asked for, and exactly once iff the cursor never falls below them except for good |
| HeightCursor.AscendingOnce | tesseract/messaging/src/lib.rs:209-316 | if updates never go back, each block is asked for exactly once and no other is |
| HeightCursor.EventsOnceInOrder | tesseract/messaging/src/lib.rs:249-295 | then a run reads once, in block order, the events of the blocks answered for, and every event iff no block whose query failed holds one |
| Profit.ReturnSuccessfulQueries | tesseract/messaging/src/events.rs:425-540 | yields, aligned with the messages, the queries to relay and the messages to retry, iff no query fails and no 256-bit product overflows; otherwise it fails only if a query does, and panics only if a product overflows |
| Profit.Record | tesseract/messaging/src/events.rs:531-536 | pushing a batch of results keeps both lists equal to what the verdicts so far prescribe |
| Profit.VerdictIff | tesseract/messaging/src/events.rs:464-522 | exactly when a message is relayed, retried, dropped, fails the batch or overflows, each from the terms and the answers for that message: dry run, delivery, fee, cost, source and destination |
| Profit.ProfitIff | tesseract/messaging/src/events.rs:484-516 | with a percentage p set, a priced message is relayed iff 100 fee >= (100+p) cost - 99 |
| Profit.RelayedPays | tesseract/messaging/src/events.rs:498-516 | a relayed message never pays less than its estimated cost |
| Profit.BatchProfit | tesseract/messaging/src/events.rs:498-516 | over any batch the fees cover the estimated costs, with the margin up to 99 hundredths of a unit per message |
| Profit.VerdictsPartition | tesseract/messaging/src/events.rs:531-536 | the judged messages are, as a multiset, the relayed, the retried and the dropped ones |
| Profit.FatesDisjoint | tesseract/messaging/src/events.rs:531-536 | distinct messages never get two fates |
| Translate.Gather | tesseract/messaging/src/events.rs:93-245 | candidates, their queries and their single-item messages are built side by side, in event order, for exactly the live events of allowed modules; fails iff the proof query of such an event fails |
| Translate.CandidatesIff | tesseract/messaging/src/events.rs:93-245 | a request or response is a candidate iff it is among the events, has no timeout or one ahead of the counterparty's clock, and its sending module is allowed, which no filter or an empty one always grants |
| Translate.Select | tesseract/messaging/src/events.rs:258-322 | the items and queries kept are those judged worth relaying, still aligned, and the retriable messages those judged so; fails only on an unanswered estimate or query, panics only on an overflow, and succeeds iff there is neither |
| Translate.MakeBatches | tesseract/messaging/src/events.rs:333-375 | one message per chunk of items, each under the proof answered for exactly that chunk's queries; fails iff one of these is not answered |
| Translate.TranslateEvents | tesseract/messaging/src/events.rs:84-378 | outgoing messages batch the relayed candidates of each kind, requests first, and the unprofitable ones are one message per retried candidate; succeeds iff all proof queries, estimates and fee queries are answered without overflow, and panics only on an overflow |
| Translate.BatchAlignment | tesseract/messaging/src/events.rs:333-375 | batches concatenate to the chosen items in order, each of them full but the last, and are each proved for their own items' queries in order |
| Translate.RequestBatchAlignment | tesseract/messaging/src/events.rs:333-353 | the same for requests, a hundred at a time, down to proof bytes, proof height, signer and commitments |
| Translate.ResponseBatchAlignment | tesseract/messaging/src/events.rs:355-375 | the same for responses, two hundred at a time, which travel from the request's destination to its source |
| Translate.MessagePartition | tesseract/messaging/src/events.rs:247-329 | candidates are exactly the relayed, retried and dropped ones iff the sink returned an estimate for each |
| Translate.NeverBoth | tesseract/messaging/src/events.rs:269-329 | no distinct candidate is both transmitted and stored for retry |
| Unprofitable.CollectRows | tesseract/fees/src/lib.rs:340-351 | the reader's loop computes the deduplication |
| Unprofitable.UnprofitableTable.ReadDistinct | tesseract/fees/src/lib.rs:328-367 | the encodings read are those stored for the destination, each once and in ascending order; the ids kept are those of their first rows in table order, and the duplicates those of the later ones |
| Unprofitable.UnprofitableTable.Delete | tesseract/fees/src/lib.rs:370-386 | removes exactly the rows with these ids, or nothing if an id is missing, repeated or the database fails |
| Unprofitable.UnprofitableTable.Store | tesseract/fees/src/lib.rs:389-404 | appends one row with an unused id per message, or nothing |
| Unprofitable.DeduplicateDistinct | tesseract/fees/src/lib.rs:340-351 | every stored encoding is read exactly once, in ascending order |
| Unprofitable.DeduplicateIds | tesseract/fees/src/lib.rs:340-351 | every row id is either kept or a duplicate, never both |
| Unprofitable.LessIff | tesseract/fees/src/lib.rs:342 | that order: where two encodings part, the smaller one ends or has the smaller byte |
| Unprofitable.DeduplicateKeepsFirst | tesseract/fees/src/lib.rs:343-350 | the ids kept are those of the first row of each encoding, the duplicates those of all later ones |
| Unprofitable.ChangeEffect | tesseract/fees/src/lib.rs:370-404 | whatever rows of a destination are deleted and stored, the others keep theirs and no encoding appears that was not there or stored; once all its old rows are deleted, its rows are the stored ones in order |
| Retry.HighestProof | tesseract/messaging/src/retries.rs:69-75 | the height kept is that of some message read and at least that of all of them |
| Retry.Collect | tesseract/messaging/src/retries.rs:52-115 | the loop sorts the messages by kind with aligned items, queries and running maximum, and aborts exactly on a malformed message |
| Retry.RetrySide | tesseract/messaging/src/retries.rs:119-189 | one side sends a batch per proved chunk of the relayed items and keeps the retried messages; a failed estimate or query leaves both empty, and only an overflow panics |
| Retry.ProveBatches | tesseract/messaging/src/retries.rs:155-181 | skips exactly the chunks whose proof query fails |
| RetryCycles.RetryCycle | tesseract/messaging/src/retries.rs:31-335 | the cycle against the table under any answers and failures, with duplicate deletion and arrivals falling between any two of its calls: what is read (each stored message once), sent and kept, and which way it ends; one fate each for the messages read, and exactly when none is lost; what is retriable is stored again iff it has not timed out, from its own fields and the clock; if the table calls succeed, no old row or duplicate is left and the rows are the arrivals and the messages stored again, in order |
| RetryCycles.Decide | tesseract/messaging/src/retries.rs:117-331 | the cycle without the table: it is idle on nothing, panics only on a malformed message or an overflow, stops short of storing iff something is retriable and the clock cannot be read; fates and losses as in `Retry.RetryFates` |
| RetryCycles.StoredIff | tesseract/messaging/src/retries.rs:298-332 | the same for everything a whole cycle leaves to retry |
| RetryCycles.DecodeAll | tesseract/fees/src/lib.rs:360-364 | no stored row fails to decode, and distinct encodings give distinct messages in the same order |
| RetryCycles.CycleEffect | tesseract/messaging/src/retries.rs:292-333 | whatever deletions and stores succeed, wherever the others cut in, a cycle leaves other destinations' rows and arrivals alone, adds no new message and keeps every row decodable |
| RetryCycles.GoneUnlessStored | tesseract/messaging/src/retries.rs:292-333 | after a cycle whose table calls succeed, a message that did not arrive again is in the table iff it was stored again |
| Retry.RetryFates | tesseract/messaging/src/retries.rs:117-333 | whatever is answered, each message read is exactly one of settled (submitted or dropped), stored again, timed out, lost; the outgoing messages carry exactly the items of those to be submitted, in the order read; and none is lost iff every estimate, fee query and proof is answered, the submission (if any) succeeds and the clock (if anything is retriable) can be read |
| Retry.KeptIff | tesseract/messaging/src/retries.rs:298-326 | a retriable message is stored again iff its first item's timeout lies ahead of the clock, where zero means no timeout, as long as the clock is below 2^64-1; otherwise it is timed out |
| Retry.SideLostIff | tesseract/messaging/src/retries.rs:119-189 | for one side, no message goes without an answer iff every estimate, fee query and chunk proof is answered |
| Retry.UnansweredEstimateLoses | tesseract/messaging/src/retries.rs:186-189 | a cycle whose one message gets no estimate neither sends nor keeps it |
| Retry.OutgoingCarries | tesseract/messaging/src/retries.rs:150-182 | what is sent carries exactly the items of the messages found worth it and proved, both kinds in order, and what is kept are exactly those judged retriable |
| Retry.SubmittedExactly | tesseract/messaging/src/retries.rs:150-182 | the messages sent for a judged side carry exactly its chosen items in order iff every chunk's proof is answered |
| Retry.ReadPartition | tesseract/messaging/src/retries.rs:117-263 | the messages read, counted, are those to submit, the retriable, the dropped, and those without an answer, of both sides |
| Retry.OutgoingAtHighest | tesseract/messaging/src/retries.rs:161-177 | every outgoing proof is at the greatest proof height among the messages read |
| RetryCycles.DistinctNeverGrow | tesseract/fees/src/lib.rs:352-358 | without arrivals the number of distinct messages of a destination never grows, even when deletions fail |
| RetryRefinement.CycleIsRun | tesseract/messaging/src/retries.rs:31-335 | from any state the machine of all destinations can be in while this one has no cycle under way: table, other cycles, background deletions and what is owed after a cycle, under any answers and with the others cutting in anywhere, are what the machine comes to along the cycle's steps, as its report tells them |
| RetryRefinement.OwedAfterCycle | tesseract/messaging/src/retries.rs:117-333 | of the messages read, the machine owes after the cycle exactly those stored again and those lost |
| RetryRefinement.CycleConservesIff | tesseract/messaging/src/retries.rs:292-333 | a cycle whose table calls succeed leaves everything owed in hand or safe in the table iff every message it lost arrived again meanwhile |
| RetryRuns.RetryConservationIff | tesseract/messaging/src/retries.rs:31-335 | over every interleaving of all destinations' cycles, arrivals, background deletions that may outlive their cycle, failures and crashes: every message no cycle submitted, dropped or found timed out is at all times in hand or in a row nobody is about to delete, iff no step loses one: a deletion of the last such row of a message without an answer, a failing store, a cycle that breaks off (a panic or an unreadable clock), or a crash |
| RetryRuns.StepConserves | tesseract/fees/src/lib.rs:352-386 | a single step keeps that iff it is not one of the losing kinds; arrivals, reads and late background deletions never are |
| RetryRuns.CleanupConserves | tesseract/fees/src/lib.rs:355-358 | a background deletion of duplicates, however late, takes no row that something still depends on |
| RetryRuns.MessageForgotten | tesseract/messaging/src/retries.rs:293-332 | three four-step runs, without crash, after which a message is neither in hand nor in the table: no answer for it, a failing store, an unreadable clock |
| RetryRuns.KnownArrived | tesseract/fees/src/lib.rs:389-404 | over every run, what is known of a destination was known before or arrived |
| RetryRuns.DistinctNeverGrowInRuns | tesseract/messaging/src/retries.rs:31-335 | without arrivals, over any number of interleaved cycles, the distinct messages of a destination never become more |
| RetryRuns.AlwaysDecodable | tesseract/fees/src/lib.rs:360-364 | in every run each row holds the encoding of a message, as a cycle requires |
| DeliveryKeys.DecodeEncode | tesseract/fees/src/lib.rs:444-462 | decoding undoes hexadecimal encoding |
| DeliveryKeys.NibbleIff | tesseract/fees/src/lib.rs:444-462 | the digits read are those of both cases and nothing else |
| DeliveryKeys.StoredName | tesseract/fees/src/lib.rs:71-103 | a name is the commitment in lower-case hexadecimal, followed for a response by its request's |
| DeliveryKeys.StoredRoundTrip | tesseract/fees/src/lib.rs:67-106 | a receipt is stored under the name its key is deleted by, and the claim reader recovers the key |
| DeliveryKeys.KeyHashInjective | tesseract/fees/src/lib.rs:490-509 | no two keys share a name, across requests and responses |
| Deliveries.DeliveryTable.StoreMessages | tesseract/fees/src/lib.rs:67-106 | appends one row per receipt in order, or nothing |
| Deliveries.DeliveryTable.DeleteEntries | tesseract/fees/src/lib.rs:109-120 | keeps exactly the rows whose name is not listed, in order, or all |
| Deliveries.DeliveryTable.DeleteClaimedEntries | tesseract/fees/src/lib.rs:490-509 | the same by keys, without touching the database for an empty list |
| Deliveries.DeleteExact | tesseract/fees/src/lib.rs:490-509 | a key is stored after a deletion iff it was before and is not among the deleted keys, duplicates included |
| Deliveries.StoreExact | tesseract/fees/src/lib.rs:67-106 | a key is stored after storing iff it was before or belongs to one of the receipts |
| Deliveries.StoreRowIff | tesseract/fees/src/lib.rs:67-106 | each is stored with the chains, kind and height of its receipt |
| FeeLedger.Accumulate | modules/ismp/pallets/relayer/src/lib.rs:380-476 | succeeds iff some key is known and unclaimed and the proofs check, and then marks exactly the credited commitments |
| FeeLedger.AccumulateExtends | modules/ismp/pallets/relayer/src/lib.rs:447-476 | commitments stay known and claims are permanent |
| FeeLedger.AcceptedClaimsIff | modules/ismp/pallets/relayer/src/lib.rs:596-740 | a key of an accepted proof is claimed afterwards iff it is known and was claimed before or the proof carries fee metadata for a known and unclaimed key of the same commitment |
| FeeProgress.ClaimedByOwn | modules/ismp/pallets/relayer/src/lib.rs:447-476 | nothing is newly claimed by a proof that holds no key for it |
| FeeProofs.WaitForChallengePeriod | tesseract/primitives/src/lib.rs:469-493 | returns at the first clock reading strictly past the period, or fails at the first that fails before; sleeps once before each reading, first for the period and then for exactly what is left of it |
| FeeProofs.WaitForStateMachineUpdate | tesseract/primitives/src/lib.rs:496-523 | the latest height if it suffices and its update is found, otherwise the first update that reaches the height; gives up iff there is none |
| FeeProofs.PrepareBatch | tesseract/messaging/src/lib.rs:424-463 | receipts are grouped by source chain in order, and the proof height is what waiting for the highest delivery height among them gives, at least every receipt's |
| FeeProofs.QueryStateProofs | tesseract/fees/src/lib.rs:169-227 | one proof per chunk of fifty keys, each with source and destination proofs of exactly its own storage keys at the given heights; fails only if some query did |
| FeeProofs.CreateProofFromReceipts | tesseract/fees/src/lib.rs:232-268 | the same for the keys of a list of receipts |
| FeeProofs.GroupProofs | tesseract/fees/src/lib.rs:179-224 | a group's proofs hold at most fifty keys and concatenate to the group's keys in order |
| FeeProofs.ProofsCoverEveryReceipt | tesseract/messaging/src/lib.rs:424-485 | in whatever order groups are processed, all proofs together hold exactly one key per receipt |
| FeeProtocol.DeliveryConservation | tesseract/messaging/src/lib.rs:350-379 | over every interleaving, failure and crash each persisted receipt is in the table, claimed, or was in an accepted proof that carried no fee for it, and every row is readable by the claim reader |
| FeeProtocol.AdvanceKeeps | tesseract/messaging/src/lib.rs:482-491 | every await of the automatic and the manual task keeps that invariant; what the await does is in `FeeProgress` |
| FeeProtocol.ReadsExactlyStored | tesseract/fees/src/lib.rs:416-462 | the manual task reads exactly the keys stored for its chains and kind |
| FeeProtocol.ConservationIff | tesseract/messaging/src/lib.rs:482-491 | every persisted receipt is in the table or claimed all along a run iff no successful deletion of the run removes the row of a persisted key that hyperbridge has not claimed |
| FeeProtocol.StepConserves | tesseract/relayer/src/fees.rs:140-151 | the same for one step: nothing but such a deletion breaks conservation |
| FeeProtocol.AcceptedThenDeleted | tesseract/messaging/src/lib.rs:482-489 | a key of an accepted proof whose rows are then deleted is accounted for iff hyperbridge knew it and had it claimed before or credits it by this proof |
| FeeProtocol.UnsafeWasWaived | tesseract/relayer/src/fees.rs:140-151 | in any run a key deleted while unclaimed was in an accepted proof that carried no fee for it |
| FeeProtocol.NothingWaivedIff | modules/ismp/pallets/relayer/src/lib.rs:596-740 | no accepted proof of a run leaves a key unclaimed iff each covers all of its keys; a sufficient condition for conservation |
| FeeProtocol.CoveredConservation | tesseract/relayer/src/fees.rs:129-151 | if every accepted proof covers its keys, every persisted receipt is in the table or claimed |
| FeeProtocol.UnpaidDeliveryForgotten | modules/ismp/pallets/relayer/src/lib.rs:610-617 | otherwise it can fail: a five-step run after which a persisted receipt is neither stored nor claimed |
| FeeProgress.TasksAlwaysTrue | tesseract/relayer/src/fees.rs:179-205 | over every interleaving, failure and crash: an automatic task's submitted and remaining proofs are the keys of its group in order; a manual task has sorted the keys it checked by what the check found, in order, and the proofs it has left are the last of those found unclaimed |
| FeeProgress.StartsWithStored | tesseract/fees/src/lib.rs:416-462 | in every reachable state a manual task starts with exactly the keys stored for its pair of chains, requests and responses |
| FeeProgress.CheckIff | tesseract/fees/src/lib.rs:467-473 | one check puts down whether hyperbridge has the key claimed at that moment; it ends the task iff the query fails or hyperbridge does not know the key |
| FeeProgress.AnsweredMember | tesseract/fees/src/lib.rs:464-473 | the keys set aside as claimed, or to be proved, are exactly those whose check came out so |
| FeeProgress.PlanIff | tesseract/fees/src/lib.rs:464-487 | in every run, a manual task done with its checks goes on to prove exactly the keys found unclaimed, in order, at most fifty at a time, and the deletion it spawns holds exactly those found claimed |
| FeeProgress.ProofIff | tesseract/relayer/src/fees.rs:194-204 | a proof is accepted iff the await succeeds and hyperbridge knows one of its keys as unclaimed; a rejected one ends the task and changes nothing; a failed deletion after an accepted one does not hold up the manual task |
| FeeProgress.InterruptIff | tesseract/messaging/src/lib.rs:350-379 | a crash ends all tasks and an error one of them, and hyperbridge may record more on its own; the table is left alone |
| FeeProgress.ManualClaims | tesseract/relayer/src/fees.rs:179-205 | a manual task with every await successful and every key known and paid: the keys found claimed and those of the proofs up to the first with nothing left to claim are claimed and gone from the table, and nothing else is gone |
| FeeProgress.ManualClaimsAll | tesseract/relayer/src/fees.rs:179-205 | if no two unclaimed keys are for the same message, every delivery stored for the pair of chains ends up claimed and its rows gone, and every other row stays |
| FeeProgress.AutomaticClaims | tesseract/messaging/src/lib.rs:470-491 | an automatic task likewise: the keys of the accepted proofs are claimed; the rows of the whole group are gone iff all its proofs were accepted, and otherwise none is |
| FeeProgress.AutomaticClaimsAll | tesseract/messaging/src/lib.rs:470-491 | if its keys are unclaimed and for different messages, all of the group ends up claimed and gone, and every other row stays |
| Withdrawals.AwaitBlock | tesseract/relayer/src/fees.rs:404-421 | the height awaited is at least the withdrawal's block and came from the stream; none only if no update reaches the block |
| Withdrawals.AwaitIff | tesseract/relayer/src/fees.rs:404-421 | the height awaited is that of the first update at or above the block |
| Withdrawals.FirstSuccess | tesseract/relayer/src/fees.rs:449-464 | the first passing submit within five attempts, all earlier ones failing; none only if all five fail |
| Withdrawals.DeliverPostRequest | tesseract/relayer/src/fees.rs:386-467 | at most five submits; success only with a proof at or above the withdrawal's block and a passing submit |
| Withdrawals.DeliverIff | tesseract/relayer/src/fees.rs:386-467 | a delivery succeeds at a height after so many submits iff that height is the latest known if it has reached the block, otherwise that of the first update that has; it can be proved; and that submit is the first to pass and within five |
| Withdrawals.PendingWithdrawalsSafe | tesseract/relayer/src/fees.rs:321-379 | over every interleaving of ticks, failures and crashes: rows disappear only once delivered; every delivery went through the client of the chain it is addressed to, within block and submit limits; a tick that asks for a new withdrawal, or is past that, has delivered every row the table held for its chain when it started, asks from a sufficient balance only, and never had a row of another chain to deliver; and every withdrawal hyperbridge issues is held by exactly one tick, was stored, or was forgotten |
| Withdrawals.AdvanceKeeps | tesseract/relayer/src/fees.rs:240-282 | every await of a tick, automatic or manual, keeps that invariant |
| Withdrawals.NothingLostIff | tesseract/relayer/src/fees.rs:351-359 | after any run every withdrawal hyperbridge issued is pending, held by a tick or delivered iff no step of the run loses one: a failing lookup or store of an issued one, a crash before it is stored, or the late execution of an extrinsic whose tick broke off |
| Withdrawals.RememberedIff | tesseract/relayer/src/fees.rs:357-369 | in every reachable state an issued withdrawal is pending, held or delivered iff it was not forgotten |
| Withdrawals.UnconfirmedWithdrawalForgotten | tesseract/substrate/src/calls.rs:162-204 | a run without crash or failing store: the extrinsic is finalized, looking up its block or event fails, and the withdrawal is forgotten |
| Withdrawals.MinimumAmount | tesseract/relayer/src/fees.rs:310-316 | the minimum is a hundred dollars in 18 decimals unless configured, then the configured amount, but never below ten |
| WithdrawalProgress.TickStarts | tesseract/fees/src/lib.rs:271-289 | a tick starts out with exactly the rows of the table that are for its chain, each as often as it is there, from the first on |
| WithdrawalProgress.GoesOnIff | tesseract/relayer/src/fees.rs:321-379 | with which replies a tick goes on: a delivery that succeeds, a balance of at least the minimum, a new withdrawal issued for the chain, its lookup and its store; a failing deletion holds up nothing |
| WithdrawalProgress.TableIff | tesseract/fees/src/lib.rs:291-325 | the table changes only by storing the issued withdrawal, under its chain and a new number, or by deleting the delivered rows, all or none |
| WithdrawalProgress.LateIssueIff | tesseract/substrate/src/calls.rs:162-204 | an extrinsic whose tick broke off is executed at most once, only for its chain, and the withdrawal is not known to the relayer |
| WithdrawalProgress.CrashIff | tesseract/relayer/src/fees.rs:351-359 | a crash forgets exactly the withdrawals held and leaves exactly the extrinsics sent to hyperbridge |
| WithdrawalProgress.TickDelivers | tesseract/relayer/src/fees.rs:321-379 | in every reachable state a tick whose awaits all succeed delivers everything pending for its chain, through that chain's client and nothing else, removes it and leaves the rows of other chains; it issues and delivers one more withdrawal iff the balance reaches the minimum |
| Decimal.PrintValue | tesseract/primitives/src/lib.rs:79 | reading a printed number gives it back |
| Decimal.DropIsDivision | tesseract/evm/src/gas_oracle.rs:390-395 | dropping the last k characters of a printed number is floor division by 10^k, also when none are left |
| Money.Display | tesseract/primitives/src/lib.rs:78-91 | the in-place padding and point insertion print whole part, point and exactly eighteen decimals |
| Money.DisplayedShape | tesseract/primitives/src/lib.rs:78-91 | at least one whole and exactly eighteen fractional digits, together denoting the cost |
| Money.DisplayInjective | tesseract/primitives/src/lib.rs:78-91 | different costs never print the same |
| Money.ParseTo27Decimals | tesseract/evm/src/gas_oracle.rs:368-386 | the padded string reads as the scaled value, with errors for a second point, a non-digit or overflow |
| Money.TwoPointsRejected | tesseract/evm/src/gas_oracle.rs:370-375 | two points or more are an error |
| Money.ParsedWhole | tesseract/evm/src/gas_oracle.rs:370-386 | without a point the digits are scaled as they stand |
| Money.ParsedOnce | tesseract/evm/src/gas_oracle.rs:370-386 | with one point the digits on both sides are, by as many zeros as decimals are missing |
| Money.ParseExactIff | tesseract/evm/src/gas_oracle.rs:377-378 | parsing is exact scaling by 10^27 iff there are at most 27 fractional digits or the value is zero |
| Money.ParseInflates | tesseract/evm/src/gas_oracle.rs:377-378 | with 28 fractional digits one dollar parses as ten |
| Money.ConvertIsFloor | tesseract/evm/src/gas_oracle.rs:389-397 | discarding nine characters is floor division by 10^9 for every 256-bit value |
| Money.MoneyRoundTrip | tesseract/evm/src/gas_oracle.rs:368-397 | printing, parsing and truncating gives the cost back iff its 27-decimal form fits in 256 bits, else an error |
| Money.CostAt | tesseract/evm/src/gas_oracle.rs:164-165 | the truncated cost, or an overflow exactly when the product exceeds 256 bits |
| Money.PriceGas | tesseract/evm/src/gas_oracle.rs:244-268 | per pricing scheme, the cost of the gas price and the reported cost of a wei, and exactly when it fails |
| Money.GasCost | tesseract/evm/src/gas_oracle.rs:101-297 | the larger of the two gas prices raised by the buffer percentage, rounded down; the unbuffered cost and the cost of a wei, reported or not, per pricing scheme; and exactly when it fails |
| Money.TruncationBound | tesseract/evm/src/gas_oracle.rs:299-302 | 10^27 cost <= u g < 10^27 (cost+1) + 10^18 g |
| Money.ExecutionCostBound | tesseract/evm/src/provider.rs:452-465 | gas and data cost together never exceed the exact price, with an explicit bound on the shortfall |
| PipelineQueue.PipelineSafe | tesseract/primitives/src/queue.rs:9-55 | over every interleaving items are handled in the order accepted, each reply is the result of its own sender's item and read at most once, and no item handled goes unanswered; that one item is handled at a time is built into the machine, whose only task awaits each handler |
| PipelineQueue.StepInOrder | tesseract/primitives/src/queue.rs:16-26 | finished, running and waiting items are always the accepted items in order |
| PipelineQueue.ReplyIsOwn | tesseract/primitives/src/queue.rs:43-54 | a reply read is the result of the handler on the item that sender sent |
| PipelineQueue.EveryItemAnswered | tesseract/primitives/src/queue.rs:16-54 | from every reachable state, if the task keeps going, every item sent is handled, with the result given for it, and its sender finds or has read its reply unless it stopped waiting |
| Grouping.GroupBy | tesseract/messaging/src/get_requests.rs:46-57 | one entry per occurring key, holding its items in order |
| Grouping.GroupsPartition | tesseract/messaging/src/lib.rs:430-439 | in whatever order a hash map is iterated its groups are together the items |
| GetRequests.ProcessGetRequests | tesseract/messaging/src/get_requests.rs:37-146 | visits every group of live requests once, in some order, and builds a message for each group that has a client and proofs |
| GetRequests.OneWholeGroup | tesseract/messaging/src/get_requests.rs:63-139 | every message holds exactly one whole group in arrival order, proved for exactly its keys, at the update's height, with the relayer's address |
| GetRequests.GroupAnsweredIff | tesseract/messaging/src/get_requests.rs:63-139 | a group gets its message iff it is not empty, its chain has a client and both chains prove its keys |
| GetRequests.GroupIsOpen | tesseract/messaging/src/get_requests.rs:46-57 | a request is in its group iff its timeout lies ahead of the clock, where zero means no timeout, as long as the clock is below 2^64-1 |
| GetRequests.GetRequestsConserved | tesseract/messaging/src/get_requests.rs:37-146 | with clients and proofs for all, the messages together hold exactly the live requests |
| StatusIndex.RequestService.FindOrCreate | indexers/src/services/request.service.ts:44-96 | creates request and node together, or changes nothing |
| StatusIndex.RequestService.UpdateStatus | indexers/src/services/request.service.ts:102-171 | raises the status only to a later one, and records the node either way |
| StatusIndex.StatusIsHighest | indexers/src/services/request.service.ts:33-171 | in every reachable state a request's status is the furthest among its nodes, from source through hyperbridge to destination and timeout |
| StatusIndex.NodeIff | indexers/src/services/request.service.ts:81-168 | there is a node for a request and a status iff an operation left one: any update, or the creation that came first |
| StatusIndex.NodeIsLast | indexers/src/services/request.service.ts:133-144 | and it is the one left last |
| StatusIndex.TablesAgree | modules/hyperclient/src/indexing.rs:315-323 | the indexer's and the client's weights put the statuses in the same order, that of a message's way |
| StatusIndex.SortByWeight | modules/hyperclient/src/indexing.rs:195-203 | the reader's sort orders the nodes by its own weights, keeps them all, and keeps those of one status in order |
| StatusIndex.LatestStatus | modules/hyperclient/src/indexing.rs:195-207 | the node taken got furthest, and of several the one listed last; none only if there are none |
| StatusIndex.ReaderAgrees | modules/hyperclient/src/indexing.rs:195-207 | in any order of the nodes the reader's choice is the indexer's stored status |
| StatusIndex.RunIsFinal | indexers/src/services/request.service.ts:102-171 | requests do not influence each other |
| StatusIndex.PermutationInvariantIff | indexers/src/services/request.service.ts:115-131 | all permutations of a request's operations give the same status iff the highest weight comes from an update or all carry the same status |
| StatusIndex.HandlersOrderFree | indexers/src/handlers/events/evmHost/postRequest.event.handler.ts:43-52 | creations with the lowest status, as deployed, make the order irrelevant |
| Telemetry.AppState.Insert | tesseract/telemetry/src/main.rs:35-45 | reports the socket's claims besides everything reported before |
| Telemetry.AppState.Remove | tesseract/telemetry/src/main.rs:47-55 | stops reporting exactly the leaving socket's claims |
| Telemetry.DisconnectExactIff | tesseract/telemetry/src/main.rs:47-55 | an exact report stays exact iff no other socket makes one of the leaving socket's claims |
| Telemetry.SharedClaimVanishes | tesseract/telemetry/src/main.rs:47-55 | a run in which two sockets share a claim, one leaves, and the other's claim is no longer reported |
| Telemetry.OnlineReport | tesseract/telemetry/src/main.rs:26-56 | in every run with unused socket ids only online relayers are ever reported; at every moment exactly those are, iff no socket leaves while sharing a claim |

## Left out

- Network, HTTP, database and signature code, and the contents of hashes, state proofs and signatures: foreign code, modelled as answers or opaque bytes.
- `filter_events` and the hexadecimal form of the configured module filter: simple predicates; the filter is modelled as decoded bytes.
- The matching of submitted messages with handled commitments in `submit`, transaction sending, gas bumping and compression: library behaviour around a list filter.
- `highest_delivery_height`, which indexes a list at its length minus one, and the truncation of heights to 32 bits in the database and in Substrate's range query: the model keeps heights exact.
- `distinct_deliveries` and the choice of chain pairs in the manual command: any pair may be started at any time in the model.
- The floating-point gas prices and the per-chain choice of price feeds: only the arithmetic after the queries is modelled.
- The amounts credited by hyperbridge: only whether a commitment is known and claimed.
- Scheduling: what a task does once its awaits are answered is proved, but not that they are answered or that the task is run.
- Back-pressure of the bounded channels: it delays actions and does not change their order. A lagging broadcast receiver loses the oldest updates; `UpdatePipeline.EveryEventOnce` allows for any of them missing.
- Poller.UpdateStreamSound: says nothing about vetoes in blocks the watch had not reached when the period elapsed, because the program does not look there.
- RangeQuery.QueryIsmpEvents: the order of events within one Substrate answer is the node's, because that provider iterates a hash map.
- RetryCycles.RetryCycle: the receipts of a submission, their storing and their way to the fee task are left to `FeeProtocol`.
- Everything else in the repository: on-chain pallets and contracts, consensus clients, node plumbing, command line and configuration.
