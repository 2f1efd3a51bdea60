# goipay invoice tracking: a verified model

goipay follows cryptocurrency invoices from creation to settlement. A processor per coin hands out an address, watches the
chain and the mempool, credits the transaction that pays the address, waits for confirmations, and expires what is not paid in
time. This project models that logic and proves what it keeps over whole runs. `dafny verify dfyconfig.toml` verifies the
whole project.

The model has two granularities.

- **Atomic handlers** (`Lifecycle`, `PaymentSystem`). Creating an invoice, one transaction check or block check of one tracked
  entry, one timer and one address release are single steps. Releases and timers run arbitrarily late; SQL statements may
  fail; key changes, crashes and restarts happen at any point; the daemon may answer anything. `PaymentSystem.Exec` runs any
  sequence of such steps from empty tables, for all five processors together.
- **Any interleaving** (`Interleaving`). Every map operation, pointer operation and SQL statement of the processors'
  goroutines is a step of its own. `Refinement` shows that a handler in one atomic step is an uninterrupted run of its
  goroutine here, and `Composition.AtomicIsInterleaved` that every atomic run of the whole system, restarts included, is a
  run here that ends with the same rows, maps, timers and releases. So what is proved for any interleaving holds of
  atomic runs as well.

Files, in reading order:

| files | what they hold |
|---|---|
| `Domain`, `Sums`, `Confirmations` | coins, keys, addresses, invoices; sums; integer conversions |
| `Counter`, `Pool` | the two-word index counter; the address allocator and the key update transaction |
| `Amounts` | what a transaction pays an address (BTC, LTC, ETH, BNB); the daemon client of BTC and LTC |
| `Listener`, `Follower` | the catch-up loop and the mempool diff; the saved height across crashes |
| `Lifecycle`, `Invariants`, `Steps`, `Frames`, `Claims`, `Promptness`, `Settlement`, `Outcomes` | SQL statements and handlers; what every step keeps, and exactly when it changes a status |
| `PaymentSystem`, `FreshKeys`, `Leaks`, `Recovery` | theorems over runs; restart recovery |
| `KeyReuse`, `LoudKeys`, `SharedKeys`, `Rejections`, `RejectedTimer` | the premises of exclusivity are exact: runs that break it |
| `Losses` | runs that lose an address or an invoice |
| `Interleaving`, `Registrations`, `Lifetimes`, `StaleHandler`, `StolenEntry`, `SecondMark` | theorems under any interleaving |
| `Refinement`, `Goroutines`, `Composition` | every atomic run is an interleaved run |
| `Ranges` | what one check of all tracked entries does to every invoice |
| `SyncMap`, `Database`, `Processor`, `UserKeys`, `PaymentProcessor` | the objects, with methods that update them in place |

The stateful code is modelled twice: as functions on values, about which the theorems are proved, and as classes whose methods
change fields in place and are proved to do exactly what those functions say (`Processor.BaseCryptoProcessor.State` is the
value that a processor object and its database stand for).

## Premises

- A SQL statement that succeeds is committed. A statement or transaction that fails changes nothing; the steps carry a
  flag for it. (A creation whose INSERT fails is the transaction rolled back; in a run it is no step at all.)
- Address derivation is injective in encoding, key and indices, so an address is a constructor applied to them.
- Exclusivity, for every coin, needs *orderly* runs (`PaymentSystem.Orderly`), and each of the three premises is needed.
  - Key updates that take effect and have a part for the coin are quiet: no pending invoice or outstanding release of a
    coin with the same encoding uses an address that derives from the key they leave, and no armed timer of the coin does.
    Requests that the tables refuse, and requests about other coins only, are free. A key never brought before is quiet
    (`FreshKeys.FreshIsQuiet`). The premise is exact for whole requests, accepted or refused (`LoudKeys.QuietIsExact`).
  - The keys of ETH and BNB, which share an encoding, are disjoint. A common key breaks exclusivity even if all later
    updates bring keys that nothing uses (`SharedKeys.SharedKeyBreaks`).
  - No check of a new block expires an invoice through the rejection branch while the pool has its address as a row of the
    coin. BTC and LTC have no such replies (`Processor.AskUtxoDaemon`). The premise is exact (`Rejections.RejectionIsExact`).
- A transaction has the same outputs whenever the daemon reports it.

## What the code does not meet

- Between goroutines a terminal status can be overwritten in two ways: a handler that keeps an entry marks an invoice its
  timer has just expired (`StaleHandler.TerminalOverwritten`), or, standing before LoadAndDelete meanwhile, takes the entry
  of the invoice that registers the address next and confirms the expired one (`StolenEntry.ExpiredIsConfirmed`). These are
  exactly the ways, with reused addresses, crashes and reloads (`StaleHandler.TerminalStatusLeft`). Whole-run status safety
  is therefore claimed for atomic handlers.
- Two transactions that pay one invoice can both be marked, by handlers that both read PENDING: tx_id and actual_amount are
  replaced, and a confirmation asked for the first transaction confirms the second (`SecondMark.UnaskedConfirmed`). A set
  tx_id changes in exactly this way (`SecondMark.TransactionReplaced`); over atomic handlers it never does
  (`PaymentSystem.StatusSafety`).
- The rejection branch leaves the timer armed, and the timer later takes the address from its next user
  (`RejectedTimer.RejectionBreaksExclusivity`); exactly these rejections break exclusivity (`Rejections.RejectionIsExact`).
- A transaction rejected in the very check that marked its invoice makes that check wait for its own row lock: the entry is
  gone, the table is unchanged, and the invoice stays pending (`Outcomes.StepOutcome`, `Settlement.DoTracks`).
- An address stays occupied, until the key changes, if its last release fails or is lost in a crash, and only then
  (`Leaks.ApplyLeaks`; `Losses.CrashLeaks` is a run).
- A cancelled timer whose deadline has passed too may take the expiry branch of its select. By then its entry is gone, but
  if the address has been handed out again it removes the entry of the next invoice, which stays pending and untracked
  until a restart (`Losses.CancelledTimerStrands` is a run, `Settlement.DoTracks` the exact condition).
- A requested number of confirmations is the number waited for exactly if it is below 2^15 (`Confirmations.Threshold`).
- A native transfer of 2^64 wei or more is credited modulo 2^64 (`EthAmounts.VerifyETHBasedTx`); a transfer without logs is
  credited to token invoices as well.
- Generated address rows carry the base coin, so token requests never reuse them and the allocator bound fails for tokens
  (`Pool.TokenBoundFails`): exactly in runs that derive while some row is free (`Pool.BoundIffNoWaste`).
- A hash whose transaction could not be fetched is remembered all the same and not announced while it stays in the mempool
  (`Listener.NotRepeatedWhilePresent`).

## Model

| member | source | states |
|---|---|---|
| Confirmations.Threshold | internal/processor/base.go:138 | the number waited for equals the number requested iff it is below 2^15, and is at least that number iff it is below 2^15 or its low 16 bits are at least 2^15 |
| Confirmations.Reported | internal/util/mapping.go:246 | the number reported back equals the number requested iff it is below 2^15 or at least 2^32 - 2^15 |
| Confirmations.HeightRoundTrip | internal/processor/base.go:180 | a uint64 height survives the signed BIGINT column, whatever its size |
| Counter.AtInvertsValue | internal/db/crypto_data.sql.go:191-202 | reading (major, minor) as major * 2^31 + minor loses nothing |
| Counter.ValueInvertsAt | internal/db/crypto_data.sql.go:191-202 | the converse: every value below 2^62 is the reading of one pair in range |
| Counter.BumpIsSuccessor | internal/db/crypto_data.sql.go:191-202 | the UPDATE is the successor function and fails exactly at the last representable value |
| Counter.AllocationsFrom | internal/db/crypto_data.sql.go:191-216 | k increments from any counter return the next k values, cut short only by the overflow |
| Counter.CounterCorrect | internal/processor/btc.go:62-79 | after a reset, k allocations return exactly 1..k, distinct, never (0, 0); each word is an exact uint32 below the first hardened index |
| Pool.SameAddressSameKey | sql/migrations/20240713131536_add_crypto_address_table.sql:11-17 | an address in the table belongs to one user and coin; another coin can meet it only through the encoding ETH and BNB share |
| Pool.NextNeverCollides | internal/processor/btc.go:62-95 | inserting the next derived address never violates the UNIQUE column, for ETH and BNB if their keys are disjoint |
| Pool.DeriveKeepsPoolOk | internal/processor/btc.go:57-97 | deriving an address keeps the rows equal to the derivations at 1..counter |
| Pool.AllocateKeepsPoolOk | internal/processor/base.go:303-313 | reuse or derivation keeps them so |
| Pool.UpdateKeyKeepsPoolOk | internal/handler/v1/user.go:195-222 | deleting the rows and resetting the counter together keeps them so |
| Pool.UpdateEachKeepsPoolOk | internal/handler/v1/user.go:249-278 | so does any sequence of key changes in one transaction |
| Pool.PoolMatchesKeys | internal/handler/v1/user.go:118-223 | over every run the address rows of a user and coin are exactly the derivations of the current key at 1..counter |
| Pool.CounterCountsRows | internal/db/crypto_data.sql.go:191-216 | the number of rows equals the counter |
| Pool.UpdateEachWipes | internal/db/crypto_address.sql.go:44-47 | an accepted request with a part for a coin leaves the user the key of the last such part, the counter at its start and no row |
| Pool.OwnKeyAccepted | internal/handler/v1/user.go:195-222 | a user may submit the current key again: it is accepted, and the rows and the counter start over |
| Pool.RowsGrowByDeriving | internal/processor/base.go:303-313 | any step but a key change of the user and coin that takes effect adds a row iff it derives, then one new occupied row |
| Pool.NativeNeverWastes | internal/db/crypto_address.sql.go:81-90 | a request for the base coin derives only when all rows are occupied |
| Pool.BoundKeptIff | internal/processor/base.go:303-313 | for native and token requests of every coin: any step but a key change that takes effect keeps the bound iff it does not derive while some row is free |
| Pool.BoundIffNoWaste | internal/processor/base.go:303-313 | over runs: the number of rows is the peak number simultaneously occupied, at every point since the last key change that took effect, iff no allocation since then derived while some row was free |
| Pool.AllocatorBound | internal/db/crypto_address.sql.go:81-90 | so without token requests (never any for XMR, BTC and LTC) the number of rows is that peak: no state had more occupied, some state had that many |
| Pool.TokenBoundFails | internal/processor/base.go:303-313 | a concrete run of token requests with two rows although never more than one was occupied |
| Amounts.VerifyBTCTx | internal/processor/btc.go:23-34 | the credited amount is the sum of the outputs paying the address: nothing if none has it in its address field, the total if all do |
| Amounts.VerifyLTCTx | internal/processor/ltc.go:24-36 | the same, where the one element of an address list counts too |
| Amounts.OneOutputMore | internal/processor/ltc.go:27-33 | one output more adds its value exactly if it carries the address; for BTC its address list does not count |
| Amounts.PaidAtMostTotal | internal/processor/btc.go:23-34 | a transaction never pays an address more than the total of its outputs |
| Amounts.PaidToLaws | internal/processor/btc.go:23-34 | the amount is additive over splitting the outputs and independent of their order |
| Amounts.PaidIsTotalOf | internal/processor/btc.go:23-34 | the amount is the total of the outputs that carry the address, however these are singled out |
| BtcDaemon.GetTransactions | internal/listener/btc.go:73-100 | either an error, exactly if some id does not parse or some request fails, or one transaction per id in order |
| EthAmounts.CreditLogs | internal/processor/eth_base.go:97-112 | amount times scale equals the sum of the big-endian data of exactly the matching Transfer logs |
| EthAmounts.VerifyETHBasedTx | internal/processor/eth_base.go:75-118 | failed transactions and unknown tokens credit zero; a native transfer credits the value exactly iff it is below 2^64 wei |
| EthAmounts.UnitsToLaws | internal/processor/eth_base.go:97-112 | the units are additive over splitting the logs, independent of their order and unaffected by other logs |
| EthAmounts.OneLogMore | internal/processor/eth_base.go:97-111 | one log more adds its data exactly if it is a Transfer event of the token contract whose third topic ends with the 20 bytes of the recipient |
| EthAmounts.FirstByteCountsMost | internal/processor/eth_base.go:106 | the data is read with the first byte as the most significant one |
| Listener.SyncEndStops | internal/listener/base.go:130-150 | the loop stops at the first height where the context is done, the tip is reached or a fetch fails, and at no earlier one |
| Listener.ReachesTip | internal/listener/base.go:130-150 | without a cancelled context or a failing fetch it reaches the tip |
| Listener.SyncEndUnique | internal/listener/base.go:130-150 | that height is the only one with this property |
| Listener.BaseDaemonRpcClientExecutor.Start | internal/listener/base.go:209-217 | a start sets the counter; a second start changes nothing |
| Listener.BaseDaemonRpcClientExecutor.SyncBlock | internal/listener/base.go:123-151 | heights are fetched and emitted consecutively, once each, up to the first one at which the context is done, the tip is reached or the fetch fails; unhindered, the counter ends at the larger of its old value and the tip |
| Listener.BaseDaemonRpcClientExecutor.SyncTransactionPool | internal/listener/base.go:153-181 | a poll announces what is new and fetchable and remembers exactly the polled set; a failed poll changes nothing |
| Listener.BaseDaemonRpcClientExecutor.SyncTransactionPools | internal/listener/base.go:153-206 | after any number of polls the executor remembers the set, and has announced the hashes, about which the lemmas on runs of polls speak |
| Listener.AnnouncedIff | internal/listener/base.go:163-177 | a poll announces a hash iff it was not remembered and some occurrence could be fetched |
| Listener.AnnouncedDistinct | internal/listener/base.go:163-177 | a duplicate-free poll announces no hash twice |
| Listener.RememberedIff | internal/listener/base.go:160-179 | a hash is remembered iff some successful poll contained it and every later successful poll did |
| Listener.BroadcastIff | internal/listener/base.go:163-177 | which hashes the i-th poll of a run broadcasts |
| Listener.NotRepeatedWhilePresent | internal/listener/base.go:166-168 | a hash is not broadcast again while every successful poll contains it |
| Listener.RebroadcastOnlyAfterAbsence | internal/listener/base.go:153-181 | between two broadcasts of a hash some successful poll did not contain it |
| Follower.ApplyKeepsGapFree | internal/processor/base.go:171-191 | every boot, broadcast, increment, capture, write in any order, failed write and crash, also between a broadcast and its increment, keeps the broadcast interval gap-free |
| Follower.NoGaps | internal/processor/base.go:213-260 | over every run the heights broadcast since the recorded start are a gap-free interval holding the saved, captured and current heights |
| Follower.StartIsFixed | internal/processor/base.go:213-216 | once a height is saved the start never moves |
| Follower.NoBlockSkipped | internal/listener/base.go:123-151 | every height between one that was ever saved and the current one has been broadcast |
| Follower.BlocksAreConsecutive | internal/listener/base.go:130-150 | the blocks that SyncBlock emits have the heights from the old counter to the new one, once each |
| Follower.SyncBlockIsRun | internal/listener/base.go:123-151 | the counter and the blocks that the contract of SyncBlock gives are those of a run that alternates broadcast and increment |
| Invariants.WriteKeepsRows | internal/db/invoice.sql.go:14-49 | an unguarded UPDATE that happens to make a legal move keeps the table well-formed |
| Steps.MarkKeepsMem | internal/processor/base.go:98-119 | storing the updated row in the entry keeps memory equal to the database |
| Steps.ExpireKeepsMem | internal/processor/base.go:384-406 | LoadAndDelete before the UPDATE keeps memory equal to the database |
| Steps.ExpireKeepsExclusive | internal/processor/base.go:384-406 | the claim on the address passes from the invoice to its release |
| Steps.FinishKeepsMem | internal/processor/base.go:141-152 | confirming keeps memory equal to the database |
| Steps.ConfirmKeeps | internal/processor/base.go:121-154 | each branch of confirmCONFIRMED keeps the invariant and makes only legal moves |
| Steps.CheckTxKeeps | internal/processor/base.go:64-96 | so does a whole transaction check |
| Steps.FireKeeps | internal/processor/base.go:408-416 | so does a timer, cancelled or not, whoever holds its address now |
| Steps.ReleaseKeepsExclusive | internal/processor/base.go:352-366 | a late release frees an address that no pending invoice uses |
| Steps.AllocateClaims | internal/processor/base.go:303-313 | an allocated address was not claimed and now is; no other claim changes |
| Steps.CreateKeepsExclusive | internal/processor/base.go:278-334 | a new invoice shares its address with no pending invoice and no stale timer |
| Steps.DoKeepsInv | internal/processor/base.go:64-169 | every step of a processor keeps the invariant, for all coins |
| Steps.DoKeepsExclusive | internal/processor/base.go:303-429 | every step of a processor but an effective rejection at an address in the pool keeps exclusivity, for all coins |
| Frames.DoFrame | internal/processor/base.go:64-169 | a processor never touches the rows of another coin |
| Claims.ClaimsWereClaimed | internal/processor/base.go:303-313 | an address is claimed after a step only if it was claimed before or the step allocated it |
| Claims.OtherKeepsExclusive | internal/processor/base.go:303-313 | a step of another processor, of the same encoding or not, keeps the exclusivity of the coin |
| Claims.UpdateKeepsExclusive | internal/handler/v1/user.go:225-283 | an accepted request that leaves the coin a quiet key, or has no part for it, keeps every claimed address secured and every stale timer harmless |
| Claims.ForeignSteps | internal/processor/base.go:303-313 | a coin with the same encoding and disjoint keys never comes to claim an address that this coin can hand out |
| Frames.ShiftKeepsRows | internal/db/invoice.sql.go:190-195 | moving the deadlines keeps the table well-formed |
| Frames.LoadKeepsMem | internal/processor/main.go:57-64 | the loaded memory agrees with the database |
| Frames.LoadTracks | internal/processor/main.go:57-64 | an address is tracked after loading iff a loaded row of a supported coin uses it |
| Settlement.DoSettles | internal/processor/base.go:78-89 | every step keeps each credited invoice backed by an observed transaction that pays it |
| Settlement.DoTracks | internal/processor/base.go:121-149 | for every coin, a step loses track of a pending invoice iff it removed the entry and its terminal UPDATE did not run |
| Settlement.LoadTracksAll | internal/processor/main.go:57-64 | loading tracks every pending invoice of the coin |
| Outcomes.ConfirmRow | internal/processor/base.go:121-154 | confirmCONFIRMED changes only the status of its own invoice: to CONFIRMED iff it has a transaction with enough confirmations, to EXPIRED iff that was rejected |
| Outcomes.FireOutcome | internal/processor/base.go:384-416 | a timer expires its invoice iff it is armed, the address is still tracked and the UPDATE works |
| Outcomes.StepOutcome | internal/processor/base.go:64-169 | for every step, exactly when a pending invoice is marked, confirmed or expired, and that its transaction is set exactly when it is marked; a check that marks and is rejected changes nothing |
| Promptness.DoKeepsPrompt | internal/processor/base.go:384-416 | a step without an effective rejection keeps all armed timers on pending invoices and makes only legal moves, so that no expired row is expired again |
| Leaks.CheckReleases | internal/processor/base.go:141-152 | an invoice that leaves the pending states hands its address to a release |
| Leaks.DoLeaks | internal/processor/base.go:352-366 | a step of a processor leaks an occupied address iff it is the failing last release of one no pending invoice uses |
| Leaks.ApplyLeaks | internal/processor/base.go:352-402 | a step of the system leaks an address iff it fails its last release or a crash comes before that |
| Leaks.OccupiedAreClaimed | internal/processor/base.go:303-402 | over every run that loses no release, for all coins, each occupied address belongs to a pending invoice or an outstanding release |
| Leaks.OccupiedExactly | internal/processor/base.go:303-402 | with exclusivity an address of the coin in the table is occupied iff it is claimed so |
| Losses.CrashLeaks | internal/processor/base.go:352-402 | a concrete run whose crash before a release leaves an address occupied that nothing claims |
| Losses.CancelledTimerStrands | internal/processor/base.go:408-416 | a concrete run, without rejections or failing statements, in which a cancelled timer removes the entry of the next invoice at its address |
| PaymentSystem.ApplyKeepsConsistent | internal/processor/base.go:64-169 | every step of the whole system, key updates and restarts included, keeps all invariants |
| PaymentSystem.RunConsistent | internal/processor/base.go:64-169 | they hold in every reachable state |
| PaymentSystem.StatusSafety | internal/processor/base.go:121-154 | over every run, for all coins, terminal rows never change, a set tx_id keeps its value and amount, and every status written is a legal move or expires an expired row again; without effective rejections of the coin every one is a legal move |
| PaymentSystem.RunPrompt | internal/processor/base.go:384-416 | over every run without effective rejections of the coin, armed timers belong to pending invoices |
| PaymentSystem.ConfirmedIsSettled | internal/processor/base.go:78-146 | a confirmed BTC or LTC invoice names a transaction paying its address exactly the actual amount, at least the required one, with at least the stored confirmations, which are the requested ones below 2^15; outputs that do not carry the address count for nothing |
| PaymentSystem.RequestIsKept | internal/processor/base.go:315-325 | over every run a created invoice keeps the coin, user, amount and number of confirmations of its request, and a deadline of at least ten seconds and the requested timeout |
| PaymentSystem.SettledAsRequested | internal/processor/base.go:78-146 | a confirmed BTC or LTC invoice got at least the amount of its request, with an output to its address if that is positive, and the requested confirmations below 2^15 |
| PaymentSystem.AddressExclusivity | internal/processor/base.go:352-429 | for every coin, over every orderly run no two pending invoices share an address, each address is occupied or was deleted by a key change, no outstanding release targets one, and stale timers name addresses nobody uses or can get |
| PaymentSystem.ExclusivityWithoutRejections | internal/processor/base.go:132-136 | for BTC and LTC, and for any coin in runs without a reply that rejects, it suffices that accepted key updates are quiet |
| PaymentSystem.EntriesAgree | internal/processor/base.go:384-429 | over every run, for all coins, every entry equals its pending row and has an armed timer |
| PaymentSystem.FirstTimer | internal/processor/base.go:417-429 | a creation never registers an invoice that has a timer already |
| PaymentSystem.MemoryAgrees | internal/processor/base.go:384-429 | for every coin, over orderly runs that stranded nothing since the last restart, an invoice is pending iff it is tracked, and then its timer is armed; without rejections iff its timer is armed |
| LoudKeys.LoudUpdateBreaks | internal/handler/v1/user.go:200-222 | after an accepted request, of any number of parts, that leaves the coin a key from which a claimed address of the encoding or an armed timer's derives, a run of restarts and steps without rejections puts two pending invoices of the coin on one address |
| KeyReuse.OrderlySuffices | internal/handler/v1/user.go:200-222 | after an update that is refused, has no part for the coin or leaves it a quiet key, and after a harmless step, no orderly continuation does |
| LoudKeys.QuietIsExact | internal/handler/v1/user.go:225-283 | for every coin and every request the premise on keys is exact: the request keeps exclusivity in all orderly continuations iff it is refused, has no part for the coin, or leaves it a quiet key |
| SharedKeys.SharedKeyBreaks | sql/migrations/20240713131536_add_crypto_address_table.sql:11-17 | after any run with disjoint keys, an update that gives ETH and BNB, both running, a common key can be followed by one creation and one update with a key nothing uses, and then by steps that put two pending invoices of the coin on one address |
| FreshKeys.RunFromBrought | internal/handler/v1/user.go:225-283 | all current keys, invoice addresses and outstanding releases come from keys brought by earlier updates that took effect |
| FreshKeys.FreshIsQuiet | internal/handler/v1/user.go:225-283 | a key never brought before to a coin of the encoding is quiet, and keeps the keys of ETH and BNB disjoint |
| FreshKeys.ExclusivityWithFreshKeys | internal/processor/base.go:303-313 | exclusivity for runs whose accepted key updates bring new keys: BTC and LTC always, any coin without replies that reject |
| RejectedTimer.RejectionBreaksExclusivity | internal/processor/base.go:132-136 | a concrete ETH run, rejecting in the check of a later block, in which two pending invoices share an address and an expired row is expired again |
| Rejections.RejectionBreaks | internal/processor/base.go:132-136 | for every coin, after any orderly run, an effective rejection at an address the pool has for the coin has a continuation without further ones that puts two pending invoices on it |
| Rejections.RejectionIsExact | internal/processor/base.go:132-136 | for every coin, a step of a processor keeps exclusivity in all orderly continuations iff it is no effective rejection at an address the pool has for the coin |
| Recovery.LoadKeepsFirst | internal/processor/base.go:418-420 | of several rows with one address the first is tracked |
| Recovery.FirstTimer | internal/processor/base.go:417-429 | while rows are loaded, no invoice is registered that has a timer already |
| Recovery.RestartRecovers | internal/processor/main.go:36-67 | an address is tracked iff a pending invoice of a supported coin uses it; entries are those invoices with deadline max(old, now + 5 min) and an armed timer; all are tracked iff no two share an address |
| Recovery.RecoveryOrderIrrelevant | internal/processor/main.go:58-64 | with distinct addresses the order of the rows does not matter |
| Recovery.OneProcessorEach | internal/processor/main.go:58-64 | no invoice is tracked by two processors |
| Interleaving.ApplyKeepsWellFormed | internal/processor/base.go:98-154 | goroutines, entries and rows keep talking about the same invoices |
| Interleaving.EffectKeepsCredits | internal/db/invoice.sql.go:42-49 | tx_id and actual_amount are always written together, for one transaction and its own amount |
| Interleaving.RunConserves | internal/processor/base.go:78-118 | that holds in every reachable state |
| Interleaving.Conservation | sql/migrations/20250104181754_add_unique_index_tx_id_invoices_table.sql:3 | the actual amounts of all BTC and LTC invoices together sum to at most the outputs of the distinct transactions observed; no transaction is credited to two invoices of whatever coins |
| Registrations.RemovalsAtMostStores | internal/util/sync.go:19-25 | successful removals of an address from a processor's map plus its live entry never exceed its stores there |
| Registrations.StoreBetweenRemovals | internal/util/sync.go:19-33 | between two successful removals of an address from a processor's map there is a store for it |
| Registrations.NextLicense | internal/processor/base.go:141-152 | a goroutine carries out only the consequences of its own removal, each once |
| Registrations.RunAccounted | internal/processor/base.go:384-406 | every terminal UPDATE and release in a run is licensed by its own removal |
| Registrations.OneTerminalPerRegistration | internal/processor/base.go:385-402 | releases of a processor's address are at most its terminal UPDATEs, these at most its removals, and these plus the live entry at most its stores |
| Registrations.RegisteredBetweenTerminals | internal/processor/base.go:418-426 | between the removals behind two terminal UPDATEs at a processor's address it was registered again |
| Registrations.RegisteredOnce | internal/processor/base.go:418-426 | an address that its processor registered once is confirmed or expired, never both |
| StaleHandler.TerminalOverwritten | internal/processor/base.go:86-88 | a concrete run that turns an expired invoice pending again |
| StolenEntry.ExpiredIsConfirmed | internal/processor/base.go:141-146 | a concrete run in which a handler takes the entry of the address's next invoice, turning the expired one confirmed and leaving the next one pending and untracked |
| Lifetimes.RunCurrent | internal/processor/base.go:384-406 | a terminal status of an invoice that some goroutine or entry holds was written in the present life of the process |
| StaleHandler.TerminalStatusLeft | internal/db/invoice.sql.go:14-49 | under any interleaving, with reuse, crashes and reloads, a terminal status changes iff the step is the mempool UPDATE of a handler still holding the entry, or a terminal UPDATE of another status by a goroutine whose removal belongs to another registration of the address |
| StaleHandler.OnlyStaleMarksOverwrite | internal/db/invoice.sql.go:42-49 | for an address registered at most once since the last crash, only that mempool UPDATE |
| SecondMark.TransactionReplaced | internal/db/invoice.sql.go:42-49 | under any interleaving a set tx_id changes iff the step is the mempool UPDATE of a handler that loaded the entry while it said PENDING, for another transaction |
| SecondMark.UnaskedConfirmed | internal/processor/base.go:78-118 | a concrete run that replaces the transaction of an invoice and confirms it on the confirmations of the first |
| Refinement.AloneIsRun | internal/processor/base.go:69-95 | a goroutine moving alone is a run of the interleaved machine |
| Refinement.RegisterSimulated | internal/processor/base.go:417-429 | handleInvoice in one step is its goroutine moving alone |
| Refinement.ExpireSimulated | internal/processor/base.go:384-406 | so is expireInvoice |
| Refinement.MarkSimulated | internal/processor/base.go:98-119 | so is confirmPENDING_MEMPOOL |
| Refinement.ConfirmSimulated | internal/processor/base.go:121-154 | so is confirmCONFIRMED, for every reply of the daemon |
| Refinement.BlockSimulated | internal/processor/base.go:132-136 | so is a check that marks, is rejected and waits for itself |
| Refinement.CheckTxSimulated | internal/processor/base.go:69-92 | so is a whole transaction check |
| Refinement.FireSimulated | internal/processor/base.go:408-416 | so is a timer taking its expiry branch |
| Goroutines.AloneFrame | internal/processor/base.go:69-154 | a goroutine moving alone leaves the maps and pointers of other processors and the timers of other entries as they are |
| Composition.AtomicIsInterleaved | internal/processor/base.go:64-169 | every run of the whole system in atomic steps, restarts included, is a run of the interleaved machine that ends with the same rows, maps, timers and releases |
| Composition.AtomicConservation | internal/processor/base.go:78-118 | so conservation holds over atomic runs |
| SyncMap.SyncMapTypeSafe.Load | internal/util/sync.go:12-18 | the value under the key, if any |
| SyncMap.SyncMapTypeSafe.Store | internal/util/sync.go:33 | sets the key, nothing else |
| SyncMap.SyncMapTypeSafe.LoadAndDelete | internal/util/sync.go:19-25 | returns and removes in one operation |
| Database.Queries.FindNonOccupied | internal/db/crypto_address.sql.go:81-108 | occupies and returns some free row of the user and coin iff there is one |
| Database.Queries.CreateCryptoAddress | internal/db/crypto_address.sql.go:14-42 | inserts unless the address exists |
| Database.Queries.UpdateIsOccupied | internal/db/crypto_address.sql.go:110-133 | sets the flag of that row only |
| Database.Queries.DeleteAddresses | internal/db/crypto_address.sql.go:44-79 | deletes exactly the rows of the user and coin |
| Database.Queries.FindKeysAndIncrementedIndices | internal/db/crypto_data.sql.go:191-216 | advances the counter to the index of the next address, or fails and changes nothing |
| Database.Queries.WriteKey | internal/db/crypto_data.sql.go:479-503 | writes the key with a reset counter unless another user has it |
| Database.Queries.ConfirmInvoiceStatusMempoolById | internal/db/invoice.sql.go:42-75 | the whole new table, or no change if the row is missing or the tx_id taken |
| Database.Queries.ConfirmInvoiceById | internal/db/invoice.sql.go:14-40 | the whole new table, or no change if the row is missing |
| Database.Queries.ExpireInvoiceById | internal/db/invoice.sql.go:125-150 | the whole new table, or no change if the row is missing |
| Database.Queries.ShiftExpiresAtForNonConfirmedInvoices | internal/db/invoice.sql.go:190-228 | moves exactly the near deadlines of pending rows |
| Database.Queries.FindAllPendingInvoices | internal/db/invoice.sql.go:152-188 | every pending row once, nothing else |
| Database.Queries.UpdateCryptoCacheByCoin | internal/db/crypto_cache.sql.go:26-44 | overwrites the saved height of that coin only |
| Processor.AskUtxoDaemon | internal/listener/btc.go:32-34 | the BTC and LTC client never leads to the rejection branch |
| Processor.BaseCryptoProcessor.SupportsCoin | internal/processor/base.go:431-433 | a processor supports its own coin, and ETH and BNB their tokens |
| Processor.BaseCryptoProcessor.GenerateNextAddress | internal/processor/btc.go:36-98 | succeeds iff the next address can be derived and inserted, with exactly that effect |
| Processor.BaseCryptoProcessor.CreateInvoice | internal/processor/base.go:278-334 | a new pending row that says what the request asked for, at a free row of the user and coin or else at the next derived address, or a full rollback if nothing can be allocated or the INSERT fails |
| Processor.BaseCryptoProcessor.HandleInvoice | internal/processor/base.go:417-429 | registers the invoice unless its address is tracked |
| Processor.BaseCryptoProcessor.HandleInvoicePbReq | internal/processor/base.go:336-350 | the state after is that of the atomic step; the invoice says what the request asked for |
| Processor.BaseCryptoProcessor.ExpireInvoice | internal/processor/base.go:384-406 | the state after is that of the atomic step |
| Processor.BaseCryptoProcessor.ConfirmPendingMempool | internal/processor/base.go:98-119 | the state after is that of the atomic step |
| Processor.BaseCryptoProcessor.ConfirmConfirmed | internal/processor/base.go:121-154 | the state after is that of the atomic step |
| Processor.BaseCryptoProcessor.VerifyEntry | internal/processor/base.go:70-92 | the state after one goroutine of a check is that of the atomic step |
| Ranges.NoneSkipped | internal/processor/base.go:70-92 | whatever the order, each goroutine of a Range finds its entry still in the map, so none is skipped |
| Ranges.MempoolSettles | internal/processor/base.go:64-96 | after a mempool check of all entries, the first one in the order that is paid for takes the transaction, is confirmed if it has its confirmations at once and else stays tracked; no other row changes |
| Ranges.BlockSettles | internal/processor/base.go:156-169 | after a new block, each tracked invoice with a transaction is confirmed iff it has its confirmations, expired iff the transaction is rejected, and no longer tracked in both cases; no other row changes |
| Processor.BaseCryptoProcessor.VerifyTxOnMempool | internal/processor/base.go:64-96 | every entry present is checked exactly once, in some order, by the atomic step, one goroutine after the other; the rows are then as MempoolSettles says; a double spend changes nothing |
| Processor.BaseCryptoProcessor.VerifyTxOnNewBlock | internal/processor/base.go:156-169 | every entry present is checked exactly once, in some order, against the new block; the rows are then as BlockSettles says |
| Processor.BaseCryptoProcessor.HandleInvoiceHelper | internal/processor/base.go:408-416 | the state after is that of the atomic step, for either case of the select; the timer is gone |
| Processor.BaseCryptoProcessor.ReleaseAddressHelper | internal/processor/base.go:352-366 | the state after is that of the atomic step; exactly that address row becomes free if the UPDATE works |
| Processor.BaseCryptoProcessor.PersistCryptoCache | internal/processor/base.go:171-191 | the saved value reads back as the same height; other coins keep theirs |
| Processor.BaseCryptoProcessor.StartHeight | internal/processor/base.go:201-216 | a height that was saved is the one restarted from; without one it is the reported tip |
| UserKeys.HandleKeyUpdate | internal/handler/v1/user.go:195-222 | delete, then write with a reset counter, or an error |
| UserKeys.UpdateCryptoKeys | internal/handler/v1/user.go:225-283 | accepted iff every part present parses and no other user has its key for the coin; then each of the five coins with a part has that key, the counter at (0, 0) and no row, every other coin and user is as before; any early return changes nothing |
| PaymentProcessor.PaymentProcessor.Offer | internal/processor/main.go:59-63 | whatever the map order, exactly the processors supporting the coin register the invoice |
| PaymentProcessor.PaymentProcessor.LoadPersistedPendingInvoices | internal/processor/main.go:36-67 | deadlines are moved and every processor ends with the memory that Load describes for some order of the pending rows |
| PaymentProcessor.PaymentProcessor.HandleNewInvoice | internal/processor/main.go:110-119 | the request reaches the processor of its coin and no other; the invoice says what the request asked for |

## Left out

- Floating-point rounding and NaN: amounts are whole numbers of smallest units, or exact reals for ETH and BNB.
- Row locks between transactions, SKIP LOCKED contention and failing commits: each SQL transaction is one atomic, serialised step. The one lock modelled is that of a check waiting for its own row; in the interleaved machine such a check decides at its UPDATE whether it will be rejected, and a later rejection of another kind is allowed as well.
- `defer tx.Rollback` after a failing statement inside a transaction check: a mempool UPDATE that succeeded stays, as if committed, unless the check then waits for itself.
- Channel delivery, send timeouts and removal of subscribers: a broadcast appends to a history log.
- Stop followed by Start of a listener in one process life: a started listener stays started.
- Key and address cryptography, and XMR output decryption: derivation is a free constructor, an XMR or ETH verdict is any amount.
- The strings of contract and recipient addresses: accounts are compared as 20 bytes, the token table is a parameter.
- The clock and timers' order: deadlines are stored and moved, but a timer may fire at any time after it is armed.
- Liveness: it is stated exactly when a step changes a status, not that the daemon or the scheduler ever brings that step about.
- The confirmed_at, created_at and synced_timestamp columns, which nothing reads back into a decision.
- Processor.BaseCryptoProcessor.VerifyTxOnMempool: the goroutines that Range starts run one after the other, and an entry's shared pointer is a value in the map, since a handler here runs on an entry still in it; the interleaved machine has the goroutines and the pointers as cells.
- Processor.BaseCryptoProcessor.VerifyTxOnNewBlock: likewise, the goroutines of its Range run one after the other; the theorems under any interleaving are about goroutines that overlap.
- The interleaved machine has no address tables: allocation and the UPDATE of a release are single SQL transactions, and a release is recorded by the removal it follows.
- Interleaving.Conservation: XMR, ETH and BNB invoices, whose credited amounts are verdicts of handlers over transactions the model does not look into; that their transactions are distinct is stated.
- SharedKeys.SharedKeyBreaks: needs the other coin to be able to hand out one more address; at the last of its 2^62 indices with no free row it cannot.
- Follower.NoGaps: says nothing about blocks before the height first saved, which the code may skip if it crashes before saving.
- TON and other coins without a processor are one constructor that no processor supports.
- gRPC plumbing, interceptors, configuration, health checks and the enum mappings.
