# Writz: a model of its light client, relay, watchers, faucet and transaction parsers

Writz lends against bitcoin that stays on the Bitcoin chain. What makes that safe is spread over two
places: a Bitcoin light client that runs as a Soroban contract, and a relayer that moves transfers and
releases along. This project models the parts whose correctness is hardest to see from one function
body and proves what they are for, over every input, every run and every interleaving. `dafny verify
dfyconfig.toml` checks all of it.

**The light client** (`bitcoin-spv`). `LightClient.BitcoinSpv` is the contract object; its methods
change the stored headers, the canonical index and the best tip in place, in the loops the contract
has, and are proved to be the transition functions of `LightClientSpec`. A failed call leaves the state
as it was, as Soroban rolls it back. `HeaderTree` says what a tree of headers rooted at the checkpoint
is, `CanonicalIndex` what the walk back to the common ancestor does, and `ChainTheorems` what follows
for whole runs: headers are accounted for, the index follows the tip, acceptance is final while no tip
comes within 20 blocks, the tip is heaviest. `ChainCalls` says when each call succeeds, which refusal each
failure gets, and what stays of a call. `Difficulty` is the 256-bit arithmetic of compact targets, work and
retargets, with overflow written out. `Merkle` proves the inclusion fold complete and sound; the hash is
a parameter, so soundness reads "the claim holds, or the strings that were hashed contain this explicit
collision". `Counterexamples` shows where two plausible laws stop: see *Where the code and its
documentation differ*.

**The CCTP relay** (`relayer/src/cctp`). `RelayProtocol` is a state machine whose steps are what runs
between two `await`s; answers of Iris and of the chain, exceptions, crashes and the clock are the
environment's choices. `RelayInvariant` and `RelaySteps` prove the invariant, `RelayTheorems` and `RelayCap`
what it means, `RelayEndings` and `RelayItinerary` which answer leads to which ending and where a job goes
from each of its stops, and `CctpRelay.Relay` is the relay object whose methods are proved to be those steps.

**The faucet and coin selection** (`relayer/src/faucet`, `bitcoin-script/src/payment.ts`).
`CoinSelection.BuildPayment` is the selection loop with its full specification, `PaymentSize` where its size
estimate comes from. `FaucetClaims` is the arithmetic of the limits, `FaucetProtocol` and `FaucetTheorems` the
locked send with concurrent status requests and a lagging indexer, `FaucetLedger` what becomes of each claim
and each coin, `Faucet.SignetFaucet` the object.

**The watchers and the rebuild** (`relayer/src/lend-events`, `repay-watcher`, `lend-rebuild`).
`LendChain.Chain` states the assumed contract of the RPC in the contracts of its methods: a page holds
every event between its cursors, an empty page means that nothing newer exists, and time passes between
any two calls. On that, `LendArchive`, `ReleaseWatcher` and `LendRebuild` are the stores, the poll loops
and the rebuild.

**The transaction parsers** (`relayer/src/bitcoin/tx.ts`, `spv-types/src/btc_parser.rs`). `TxFormat`
defines both serializations of a transaction, `TxParsing` the parsers' loops, `TxTheorems` that
stripping inverts the extended serialization (section "Serialization" of BIP 144) and that the two
independent parsers agree.

## Where the code and its documentation differ

- The contract documents "the height-to-hash index switches" to a heavier chain. `set_canonical` never
  clears what lies above a new, lower tip, so after such a switch the index may keep an orphaned block.
  `ChainTheorems.StepKeepsIndex` gives the exact condition, read off the state and the call beforehand, and
  `Counterexamples.StaleEntryMisleadsTheWalk` the raw headers of a run that breaks it.
- `submit_headers` documents "a run of contiguous block headers" and does not check it; only the last
  header of the vector competes with the best tip. `ChainTheorems.HeaviestAfterSubmit` gives the exact
  condition, likewise beforehand, `Counterexamples.LastHeaderDecidesAlone` the raw headers of an input.
- `dailyCap` is documented as mints broadcast per UTC day. The store counts records by their latest recorded
  broadcast, so it bounds burns (`RelayTheorems.DailyCapHolds`). `RelayCap.CapAgainstBroadcasts` says by how much
  that differs from the mints that reached the chain today, and so exactly when these stay within the cap: a
  repeat of a burn and a broadcast whose answer was lost go uncounted, one recorded only after midnight is
  counted a day late. `RelayCap.StepExcess` is the same law step by step, `RelayCap.BroadcastWithinCap` the
  guard before a broadcast that would keep the day within the cap: the count with those corrections. `RelayCounterexample.CapCountsBurns` and
  `RelayCounterexample.LostBroadcastIsNotCounted` are days that pass the cap, one for each reason.
- `stripWitness` documents that a legacy transaction comes back unchanged. That holds exactly unless it
  has no inputs and one output: `TxTheorems.StripLegacy`.
- The release store says 24 attempts take about 20 hours; the waits add up to 17 hours, 3 minutes and 30
  seconds: `ReleaseWatcher.AttemptsSpan`.
- The faucet's header says a spent outpoint is kept out of selection until Esplora stops listing it, so that
  the faucet never spends one twice. The code keeps it out for 30 minutes, listed or not:
  `FaucetTheorems.ListedCoinIsOfferedExactly` says exactly when a listed coin is offered again, and
  `FaucetTheorems.StillListedIsSpentAgain` is a run that spends one twice, the reservation time apart.
- The rebuild says an archive file is either proven by the chain or rejected. The check asks the contract about
  the positions the file knows: every position can be left out of a file that passes
  (`LendRebuild.OmissionGoesUnnoticed`). `LendRebuild.RebuiltIsCovered` says exactly when no repayment is lost by it.
- The rebuild says a failure changes nothing. It puts the new archive in place and only then opens the release
  store, so an error or a crash in between leaves the archive replaced and no release recorded:
  `LendRebuild.FailsHalfway`. `LendRebuild.Rebuild` says for every ending what is on disk. Any error before the
  swap begins leaves everything; one of the release store leaves the archive replaced and proven and the release
  store as it was, so its own cursor still comes to what is owed; one of the file system may leave the old
  archive without its log; one while clearing up may come after all is done.

## Model

| member | source | states |
|---|---|---|
| LightClient.BitcoinSpv.constructor | contracts/contracts/bitcoin-spv/src/lib.rs:90-113 | a new contract is in the deployed state: nothing stored, no checkpoint |
| LightClient.BitcoinSpv.SetCheckpoint | contracts/contracts/bitcoin-spv/src/lib.rs:123-186 | takes effect once, for the admin, on a target within the limit, or changes nothing; keeps the state's invariant |
| LightClient.BitcoinSpv.SubmitHeaders | contracts/contracts/bitcoin-spv/src/lib.rs:331-417 | the new state is the specification's, the answer is the best height or its error, and an error rolls everything back |
| LightClient.BitcoinSpv.Submit | contracts/contracts/bitcoin-spv/src/lib.rs:331-417 | the entry point's body, without the rollback: on success its state is the specified one |
| LightClient.BitcoinSpv.StoreVector | contracts/contracts/bitcoin-spv/src/lib.rs:349-390 | the header loop checks and stores each unknown header with `MakeEntry`, stops at the same header with the same error as folding the vector, and yields the last hash |
| LightClient.BitcoinSpv.MakeEntry | contracts/contracts/bitcoin-spv/src/lib.rs:358-388 | the checks of one header in their order: a record is made only for a hash below the declared target and a time at most two hours ahead, and holds the header's fields, the next height, its period start and its parent's work plus floor(2^256/(target+1)) |
| LightClient.ParseInvertsBytes | contracts/contracts/bitcoin-spv/src/header.rs:5-20 | from the 80 bytes in which Bitcoin lays out a header, parent, Merkle root, time and bits are read back as they were, and the hash is of all 80 |
| LightClient.BitcoinSpv.WalkBack | contracts/contracts/bitcoin-spv/src/lib.rs:394-407 | the walk that rewrites the index entry by entry computes the recursive rewriting, or fails as it does |
| LightClient.BitcoinSpv.VerifyTransaction | contracts/contracts/bitcoin-spv/src/lib.rs:452-504 | answers as specified, check by check, and changes nothing |
| LightClientSpec.SubmitKeepsValid | contracts/contracts/bitcoin-spv/src/lib.rs:331-417 | a submission keeps the tree consistent with Bitcoin's rules, changes no stored header, re-points at most 20 heights and never lowers the tip's work |
| LightClientSpec.ApplyKeepsValid | contracts/contracts/bitcoin-spv/src/lib.rs:331-417 | every call, successful or not, keeps the invariant |
| LightClientSpec.RunValid | contracts/contracts/bitcoin-spv/src/lib.rs:123-417 | so does every run |
| LightClientSpec.StoreAllConsensus | contracts/contracts/bitcoin-spv/src/lib.rs:350-389 | storing a vector keeps every header linked, with the required bits, a hash below its target, and work and period start carried on |
| LightClientSpec.NewEntryMeaning | contracts/contracts/bitcoin-spv/src/lib.rs:358-388 | a header may follow its parent if and only if its bits decode, its hash as a number is below the target, its bits are the required ones, its time is at most two hours ahead, and height and work keep their width; each refusal names the first of these that fails, and the record's seven fields are given |
| LightClientSpec.StoreHeaderMeaning | contracts/contracts/bitcoin-spv/src/lib.rs:350-389 | a known header is skipped, an orphan refused, and any other stored under its hash exactly when it may follow its parent |
| HeaderTree.DescendsFromRoot | contracts/contracts/bitcoin-spv/src/lib.rs:356-377 | every stored header has exactly one ancestor at each height down to the checkpoint |
| HeaderTree.ChainworkIsPathWork | contracts/contracts/bitcoin-spv/src/lib.rs:371-386 | chainwork is the sum of floor(2^256/(target+1)) over the path from the checkpoint |
| HeaderTree.PeriodStartMeaning | contracts/contracts/bitcoin-spv/src/lib.rs:381-385 | the period start is the time of the header's own ancestor at height minus height mod 2016, or the checkpoint's value in its period |
| HeaderTree.TargetsWithinLimit | contracts/contracts/bitcoin-spv/src/lib.rs:364-366 | every stored target decodes and stays at or below the proof-of-work limit |
| HeaderTree.MeetsTarget | contracts/contracts/bitcoin-spv/src/difficulty.rs:86-95 | every stored header but the checkpoint has a hash below its own target |
| HeaderTree.BitsFollowRule | contracts/contracts/bitcoin-spv/src/difficulty.rs:145-168 | bits equal the parent's inside a period; at a boundary the target is within 2^-15 below the parent's, scaled by the time from the header's own ancestor 2016 heights below it, or the checkpoint's value, to its parent |
| HeaderTree.AncestorWork | contracts/contracts/bitcoin-spv/src/lib.rs:386-386 | a proper ancestor carries strictly less work |
| HeaderTree.ChildOutweighs | contracts/contracts/bitcoin-spv/src/difficulty.rs:100-104 | each header adds at least one unit of work |
| HeaderTree.WorkIsLinear | contracts/contracts/bitcoin-spv/src/lib.rs:371-386 | with equal work per header, chainwork is linear in height |
| HeaderTree.ConsensusExtend | contracts/contracts/bitcoin-spv/src/lib.rs:350-389 | adding one header that obeys the rules keeps the whole tree consistent and every old record as it was |
| CanonicalIndex.RewriteMeaning | contracts/contracts/bitcoin-spv/src/lib.rs:394-407 | the walk succeeds exactly when the nearest agreeing ancestor is within the budget of 20, fails only as too deep, and re-points exactly the heights above it |
| CanonicalIndex.SwitchKeepsIndex | contracts/contracts/bitcoin-spv/src/lib.rs:394-414 | after a tip switch the index is exact for the new tip if and only if no stale entry above the old tip lies on the new path |
| CanonicalIndex.StopsAtTheFork | contracts/contracts/bitcoin-spv/src/lib.rs:394-407 | with an exact index and nothing stale on the new path, the walk stops at the fork point: the two tips share their ancestor there and at no height above |
| CanonicalIndex.RepointedSound | contracts/contracts/bitcoin-spv/src/storage.rs:146-149 | re-pointing keeps every entry naming a stored header of that height, no heavier than the tip |
| ChainTheorems.HeadersAreAccountedFor | contracts/contracts/bitcoin-spv/src/lib.rs:350-389 | in every reachable state each header descends from the checkpoint, with a hash below its own target, the required bits, the path's work, its own period start and a target within the limit |
| ChainTheorems.TargetsFollowTheRule | contracts/contracts/bitcoin-spv/src/difficulty.rs:145-168 | in every reachable state the difficulty rule holds along every path, in and between periods, with the times the tree itself records |
| ChainTheorems.RunMonotone | contracts/contracts/bitcoin-spv/src/lib.rs:392-417 | whatever is submitted, no header is lost or changed and the tip's work never decreases |
| ChainTheorems.SwitchForeseen | contracts/contracts/bitcoin-spv/src/lib.rs:349-414 | whether a submission will switch the tip, from the state and the vector alone: all headers can be stored, the last outweighs the tip, and its path meets the index within 20 heights |
| ChainTheorems.StepKeepsIndex | contracts/contracts/bitcoin-spv/src/lib.rs:394-414 | from an exact index, a call leaves it exact if and only if it will not switch to a tip whose path meets a stale entry above the old one, told before the call |
| ChainTheorems.RunKeepsIndex | contracts/contracts/bitcoin-spv/src/lib.rs:394-414 | a run none of whose calls meets a stale entry keeps the index exact, however the tip moves |
| ChainTheorems.HeightMonotoneKeepsIndex | contracts/contracts/bitcoin-spv/src/lib.rs:394-414 | in every height-monotone run the index holds exactly the tip's ancestor at each height |
| ChainTheorems.EqualBitsAreHeightMonotone | contracts/contracts/bitcoin-spv/src/lib.rs:394-413 | while all headers carry equal bits no call lowers the tip's height, so the hypothesis is met |
| ChainTheorems.EqualBitsRunsAreHeightMonotone | contracts/contracts/bitcoin-spv/src/lib.rs:394-413 | a whole run whose headers carry equal bits is height-monotone |
| ChainTheorems.CheckpointIndex | contracts/contracts/bitcoin-spv/src/lib.rs:177-185 | setting the checkpoint starts such a run |
| ChainTheorems.VerifyMeaning | contracts/contracts/bitcoin-spv/src/lib.rs:452-504 | with an exact index, acceptance holds exactly for ancestors of the tip that are deep enough and whose root the proof reaches; the answer is the hash of the transaction, its block, that block's height and depth; each refusal names what was missing |
| ChainTheorems.AcceptedDepositIsReal | contracts/contracts/bitcoin-spv/src/lib.rs:466-498 | an accepted transaction is one of the block's transactions, at the claimed index when there is one, in a buried block, and the answered txid is that transaction's, or an explicit collision exists |
| ChainTheorems.Finality | contracts/contracts/bitcoin-spv/src/lib.rs:397-407 | in every further run whose tips stay 20 or more above the block, an accepted call is accepted exactly while the tip is deep enough for the confirmations it asks |
| ChainTheorems.MonotoneFinality | contracts/contracts/bitcoin-spv/src/lib.rs:397-407 | over height-monotone runs, a call accepted with 21 confirmations is accepted for good, with no fewer confirmations |
| ChainTheorems.StepKeepsDeepEntry | contracts/contracts/bitcoin-spv/src/lib.rs:397-403 | a call leaves every entry 20 or more below the tip it ends with |
| ChainTheorems.HeaviestAfterSubmit | contracts/contracts/bitcoin-spv/src/lib.rs:391-414 | told before the call: a submission that succeeds keeps the tip heaviest if and only if no header of the vector outweighs both the best tip and the last header |
| ChainTheorems.LastIsHeaviest | contracts/contracts/bitcoin-spv/src/lib.rs:349-394 | in a contiguous run the last header is the heaviest of the vector |
| ChainTheorems.RunKeepsHeaviest | contracts/contracts/bitcoin-spv/src/lib.rs:349-414 | when every vector is a contiguous run the tip is the heaviest stored header after any run, failed calls included |
| ChainCalls.SetCheckpointMeaning | contracts/contracts/bitcoin-spv/src/lib.rs:123-186 | the checkpoint is set if and only if the admin asks, none is set, its target is within the limit and its period began no later than it; then tree, index and tip are it alone; each refusal has its condition |
| ChainCalls.CheckpointIsTheAdmins | contracts/contracts/bitcoin-spv/src/lib.rs:132-148 | in every reachable state the checkpoint is one the admin set in a call of the run |
| ChainCalls.SubmitMeaning | contracts/contracts/bitcoin-spv/src/lib.rs:331-417 | a submission succeeds if and only if it has 1 to 16 headers that can all be stored and its last one does not outweigh the tip or meets the index within 20 heights; the tip it leaves; each refusal has its condition |
| ChainCalls.SubmittedIsRecorded | contracts/contracts/bitcoin-spv/src/lib.rs:371-388 | from a successful submission on, in every later state, each header it was first to bring is stored with its own parent, root, bits and time, which is at most two hours ahead of the call |
| Counterexamples.LastHeaderDecidesAlone | contracts/contracts/bitcoin-spv/src/lib.rs:391-394 | raw headers, under a hash function given, of a non-contiguous vector that leaves a tip half as heavy as a stored header |
| Counterexamples.StaleEntryMisleadsTheWalk | contracts/contracts/bitcoin-spv/src/lib.rs:397-403 | raw headers, under a hash function given, of a run after which the index names an orphaned block and refuses the tip's own ancestor |
| Difficulty.BitsToTargetMeaning | contracts/contracts/bitcoin-spv/src/difficulty.rs:50-79 | bits decode exactly when the mantissa is zero, or the sign bit is clear and the value fits in 256 bits; the target is the floor of mantissa times 256^(exponent-3) |
| Difficulty.CompactRoundTrip | contracts/contracts/bitcoin-spv/src/difficulty.rs:110-134 | every 256-bit target encodes to bits that decode to at most 2^-15 below it, and the decoded value encodes to the same bits |
| Difficulty.TargetToBits | contracts/contracts/bitcoin-spv/src/difficulty.rs:110-134 | the encoder's steps over bytes, sizes and shifts compute that encoding |
| Difficulty.HashAsU256 | contracts/contracts/bitcoin-spv/src/difficulty.rs:29-37 | reversing the digest in place and reading it big-endian is its little-endian value |
| Difficulty.CheckProofOfWork | contracts/contracts/bitcoin-spv/src/difficulty.rs:86-95 | accepts exactly when the bits decode and the digest, read as a number by the loop above, is below the target; too little work exactly when it is at or above it |
| Difficulty.WorkMeaning | contracts/contracts/bitcoin-spv/src/difficulty.rs:100-104 | the overflow-free form is floor(2^256/(target+1)), at least 1 |
| Difficulty.RetargetBounds | contracts/contracts/bitcoin-spv/src/difficulty.rs:145-168 | at a boundary the multiplication does not overflow and the new target is within 2^-15 below the parent's times the seconds the period took, held between 302,400 and 4,838,400, over 1,209,600; at most the limit and four times the parent's |
| Difficulty.RetargetFollowsRule | contracts/contracts/bitcoin-spv/src/difficulty.rs:145-168 | for every limit, the required bits are the parent's inside a period and at a boundary the encoding of the rule's target, a product past 256 bits counting as above the limit |
| Difficulty.ExpectedBitsWithinLimit | contracts/contracts/bitcoin-spv/src/difficulty.rs:145-168 | required bits always decode, to at most the limit |
| Difficulty.NetworkLimitsLeaveRoom | contracts/contracts/bitcoin-spv/src/difficulty.rs:140-168 | both named networks' limits satisfy limit * 4 * 1,209,600 < 2^256 |
| Merkle.VerifyMerkleInclusion | contracts/contracts/bitcoin-spv/src/merkle.rs:42-71 | the loop accepts exactly when the recursive fold reaches the root |
| Merkle.MerkleCompleteness | contracts/contracts/bitcoin-spv/src/merkle.rs:49-70 | the sibling path of the tree that duplicates the last node of an odd level is accepted, for every list and index |
| Merkle.MerkleSoundness | contracts/contracts/bitcoin-spv/src/merkle.rs:49-70 | whatever the proof's length and index, an accepted proof has the tree's depth and proves the transaction its index leads to, or an explicit collision is given |
| Merkle.MerklePositionBinding | contracts/contracts/bitcoin-spv/src/merkle.rs:49-70 | with an index below the transaction count it is the transaction at that very index |
| Merkle.InnerNodeWouldPass | contracts/contracts/bitcoin-spv/src/lib.rs:466-471 | without the 64-byte rejection every block of two or more would accept an inner node |
| RelayRecords.DelayValues | relayer/src/cctp/service.ts:140-142 | the backoff is 30, 60, 120, 240, 480 and then 900 seconds |
| RelayRecords.PacedOnce | relayer/src/cctp/service.ts:378-403 | one more transient failure, a daily-cap wait included, leaves the next attempt late enough in the streak |
| RelayRecords.FewAttempts | relayer/src/cctp/service.ts:383-392 | a streak younger than a day has seen fewer than 101 attempts |
| RelayInvariant.TransientKeeps | relayer/src/cctp/service.ts:378-403 | a transient failure keeps the record's pacing, or makes it final |
| RelaySteps.StepKeeps | relayer/src/cctp/service.ts:170-336 | every step, of every kind, keeps the invariant of the whole relay |
| RelaySteps.JobStepKeeps | relayer/src/cctp/service.ts:405-622 | so does every step of a job, from the Iris poll to the end of `mint` |
| RelayTheorems.ArrivedIsMinted | relayer/src/cctp/service.ts:470-551 | in every interleaving, an arrived transfer's nonce is spent on Base Sepolia |
| RelayTheorems.SendsAreGuarded | relayer/src/cctp/service.ts:470-521 | every broadcast comes directly after taking the lock for that burn and reading that nonce as unspent |
| RelayTheorems.OnlyOneCanLand | relayer/src/cctp/service.ts:478-488 | of the broadcasts recorded for a burn, all but the latest have reverted |
| RelayTheorems.OneMintAtATime | relayer/src/cctp/service.ts:349-353 | at most one job is inside `mint` |
| RelayTheorems.DailyCapHolds | relayer/src/cctp/service.ts:495-499 | at most `dailyCap` burns have their latest broadcast in the current UTC day, though the clock moves between check and record |
| RelayTheorems.ClosedForever | relayer/src/cctp/service.ts:367-371 | an arrival, a refusal and a refused mint never change again |
| RelayTheorems.StepChange | relayer/src/cctp/service.ts:170-403 | no step loses a record, and each changes one only in the ways listed: within its streak, one more counted failure that is final exactly when the streak is 24 hours old, a due retry, a request that starts over |
| RelayTheorems.NoEarlyAttempt | relayer/src/cctp/service.ts:312-319 | nothing touches a failed transfer before its retry is due |
| RelayTheorems.StreakEnds | relayer/src/cctp/service.ts:378-403 | a retry streak holds at most 102 failed attempts, whatever mix of failures, daily-cap waits and crashes |
| RelayTheorems.ResendsOnlyAfterRevert | relayer/src/cctp/service.ts:478-514 | whenever a job is about to broadcast it holds the lock, on a transfer still open, and the burn's recorded broadcast, if any, has reverted |
| RelayEndings.EndingsExactly | relayer/src/cctp/service.ts:363-403 | at every step and for each of the eleven failure codes: its cause, told by where the job waits, what it hears and what the chain shows, ends the attempt with that code, retried after its delay or given up exactly at a day, stopped for good when refused, and frees the lock; and a record turns failed by no other step |
| RelayEndings.FailuresHaveCauses | relayer/src/cctp/service.ts:469-551 | in every run, a transfer that stands failed was ended by an event of the run for one of those causes, and its record is the one that ending left |
| RelayItinerary.RefusedOnlyBySimulation | relayer/src/cctp/service.ts:501-512 | in every run, a mint stands refused only after its simulation answered not ok and not transient, and the nonce was then read unspent |
| RelayItinerary.JobFollows | relayer/src/cctp/service.ts:405-551 | stop by stop, where each answer of Iris, of the chain and of the lock takes a job, its polling windows included, and that it moves no other job |
| RelayItinerary.ArrivalsExactly | relayer/src/cctp/service.ts:562-622 | a transfer arrives if and only if its mint's receipt says so or its spent nonce's mint was looked for, with that mint and minter; without a hash a search follows after 30 seconds |
| RelayItinerary.AdvancesExactly | relayer/src/cctp/service.ts:429-449 | besides endings and arrivals a job changes its record exactly when Circle has seen or signed the burn, its own mint was sent, the account can pay again, or a mint was searched for |
| RelayItinerary.RetryMeaning | relayer/src/cctp/service.ts:312-337 | a retry does something if and only if one is due, the burn has no job and there is room; and what |
| RelayItinerary.RequestMeaning | relayer/src/cctp/service.ts:170-198 | what a request does to a new, an open, a waiting, an arrived, a refused and a stopped transfer, with room and without |
| RelayItinerary.ResumeMeaning | relayer/src/cctp/service.ts:220-224 | a restart gives every transfer in flight that has no job one at its first stop, and changes nothing else |
| RelayCap.CapAgainstBroadcasts | relayer/src/cctp/service.ts:495-531 | in every run: mints that reached the chain today = burns counted + repeats + unrecorded - recorded late, so they are within the cap if and only if that sum is |
| RelayCap.StepExcess | relayer/src/cctp/service.ts:514-531 | within a day, a mint that reaches the chain puts the count one behind, its recording catches up exactly unless the burn was already sent today, and nothing else changes the difference |
| RelayCap.MidnightClearsExcess | relayer/src/cctp/store.ts:118-120 | the first step into a new UTC day clears the difference |
| RelayCap.BroadcastWithinCap | relayer/src/cctp/service.ts:495-499 | a mint that reaches the chain leaves the day within the cap if and only if, before it, the burns counted + repeats + unrecorded - recorded late are below it; the code's guard looks at the first alone |
| RelayCounterexample.CapCountsBurns | relayer/src/cctp/store.ts:118-120 | with a cap of two, one burn is broadcast three times within ninety seconds of one day |
| RelayCounterexample.LostBroadcastIsNotCounted | relayer/src/cctp/service.ts:517-527 | with a cap of one, two burns are broadcast at the same moment: the answer to the first was lost, so only the second is counted, and no burn repeats |
| CctpRelay.Relay.CountSubmittedSince | relayer/src/cctp/store.ts:118-120 | the loop counts exactly the burns whose latest broadcast is recent enough |
| CctpRelay.Relay.ListDue | relayer/src/cctp/store.ts:126-131 | exactly the due burns, each once, earliest first |
| CctpRelay.Relay.Fail | relayer/src/cctp/service.ts:367-371 | stops the record and touches no other |
| CctpRelay.Relay.FailForNow | relayer/src/cctp/service.ts:378-403 | schedules the retry or gives up, and touches no other record |
| CctpRelay.Relay.HasArrived | relayer/src/cctp/service.ts:608-623 | closes the record, with a search scheduled when no hash is known |
| CctpRelay.Relay.Launch | relayer/src/cctp/service.ts:292-304 | one job per burn |
| CctpRelay.Relay.Retry | relayer/src/cctp/service.ts:312-337 | the protocol's retry step, and whether it started a job |
| CctpRelay.Relay.Request | relayer/src/cctp/service.ts:170-198 | the protocol's request step; refused exactly when new work meets a full relay |
| CctpRelay.Relay.RetryDue | relayer/src/cctp/service.ts:227-233 | retries the due burns in order and counts those started |
| CctpRelay.Relay.Resume | relayer/src/cctp/service.ts:220-224 | every transfer in flight has a job again, those that had one keep it, and the answer counts them |
| CctpRelay.Relay.WithBalance | relayer/src/cctp/service.ts:321-337 | resumes a transfer that ran out of gas if the account can pay, and fails it once more otherwise |
| CctpRelay.Relay.WithIris | relayer/src/cctp/service.ts:416-467 | one poll answer, as the protocol step says |
| CctpRelay.Relay.BeginMint | relayer/src/cctp/service.ts:470-480 | takes the lock and re-reads the record inside it |
| CctpRelay.Relay.WithReceipt | relayer/src/cctp/service.ts:478-551 | goes on from a receipt, of an earlier broadcast or of this one |
| CctpRelay.Relay.WithNonce | relayer/src/cctp/service.ts:484-551 | goes on from each of the four reads of the nonce, the daily cap included |
| CctpRelay.Relay.WithSimulation | relayer/src/cctp/service.ts:501-513 | broadcasts after a good simulation, and otherwise asks once more whether the nonce is spent |
| CctpRelay.Relay.WithBroadcast | relayer/src/cctp/service.ts:514-534 | records the broadcast, or the failure to send |
| CctpRelay.Relay.WithMint | relayer/src/cctp/service.ts:562-606 | closes the transfer with what the search found, now or on a later search |
| CoinSelection.BuildPayment | bitcoin-script/src/payment.ts:95-134 | the shortest covering prefix; inputs = outputs + fee, the recipient's output first and the payer's change after it; change zero or at least 294; fee within its bounds; insufficient funds exactly when no prefix covers |
| CoinSelection.FeeIsCeiling | bitcoin-script/src/payment.ts:116-123 | the fee is the least integer at or above rate times size |
| CoinSelection.AddOutputs | bitcoin-script/src/payment.ts:144-145 | the recipient's output first and then, when there is any, the change; together amount and change |
| PaymentSize.EstimateIsVsize | bitcoin-script/src/payment.ts:79-87 | the estimate is the virtual size, by section "Transaction size calculations" of BIP 141, of the serialized payment with the longest signatures, and no less than that of any other, up to 252 inputs; more inputs take exactly the two bytes of a longer count besides |
| FaucetClaims.RecordKeeps | relayer/src/faucet/service.ts:356-390 | a claim that passed the check may be recorded at any later time if none came between |
| FaucetClaims.CheckMeaning | relayer/src/faucet/service.ts:356-390 | who is refused and why, each refusal if and only if its condition and none before it: an account, Stellar or Signet address with a claim, an IP with its allowance used in the window, a day at its cap |
| FaucetClaims.WindowHolds | relayer/src/faucet/service.ts:370-382 | every interval of the window's length holds at most the allowance per IP |
| FaucetClaims.DayHolds | relayer/src/faucet/service.ts:383-390 | every UTC day holds at most the cap |
| FaucetClaims.CooldownIsExact | relayer/src/faucet/service.ts:373-381 | the time a refusal names is the first millisecond at which the IP is within its allowance again |
| FaucetTheorems.StepKeeps | relayer/src/faucet/service.ts:406-527 | every step of a claim, of a status request or of a restart keeps the faucet's invariant |
| FaucetTheorems.OfferIsSound | relayer/src/faucet/service.ts:320-340 | if the indexer names each coin once, the coins offered are pairwise distinct: listed change is not offered twice |
| FaucetTheorems.OfferIsFree | relayer/src/faucet/service.ts:333-339 | no coin offered is reserved, and a listed coin is offered exactly when it is not |
| FaucetTheorems.RankedIsSorted | relayer/src/faucet/service.ts:333-336 | the listed coins come out the same, confirmed ones first and larger ones first among equals |
| FaucetTheorems.RankedIsStable | relayer/src/faucet/service.ts:333-336 | coins the order does not tell apart stay in the order listed |
| FaucetTheorems.OneClaimEach | relayer/src/faucet/store.ts:68-77 | recorded claims have distinct accounts, Stellar addresses and Signet addresses |
| FaucetTheorems.IpLimitHolds | relayer/src/faucet/service.ts:435-439 | the sliding limit holds for every order of concurrent claims |
| FaucetTheorems.DailyLimitHolds | relayer/src/faucet/service.ts:435-439 | so does the daily cap |
| FaucetTheorems.NoDoubleSpend | relayer/src/faucet/service.ts:472-527 | under any lag of the indexer, no outpoint is an input of a broadcast made less than 30 minutes after another that spent it, accepted or of unknown outcome, was answered |
| FaucetTheorems.DistinctInputs | relayer/src/faucet/service.ts:472-484 | if no listing names an outpoint twice, no transaction spends one twice |
| FaucetTheorems.ListedCoinIsOfferedExactly | relayer/src/faucet/service.ts:320-340 | a coin the indexer lists is offered if and only if, at the last pruning, every broadcast that spent it had been answered 30 minutes before; that pruning is no older than the claim's entry |
| FaucetTheorems.OfferedAfterPruning | relayer/src/faucet/service.ts:321-336 | after pruning, a listed coin is offered if and only if it has no reservation later than now |
| FaucetTheorems.StillListedIsSpentAgain | relayer/src/faucet/service.ts:320-340 | a run in which every listing names the same coin alone, and that coin is the only input of two accepted broadcasts, the reservation time apart |
| FaucetTheorems.BroadcastsPay | relayer/src/faucet/service.ts:456-463 | every broadcast of every run pays its claimant the faucet's amount first, any other output pays the faucet, and its inputs are its outputs and fee |
| FaucetTheorems.ChangeIsOurs | relayer/src/faucet/service.ts:490-493 | over every run, each unlisted change is the one output of a broadcast of the faucet's own that pays the faucet, with the inputs' total less amount and fee, and no claimant's output |
| FaucetTheorems.OfferedChangeIsOurs | relayer/src/faucet/service.ts:336-339 | so is every coin offered that the indexer does not list |
| FaucetTheorems.AcceptedChangeIsKept | relayer/src/faucet/service.ts:490-493 | the moment a payment is accepted, every output of it that pays the faucet is kept |
| FaucetLedger.ChangeLeaves | relayer/src/faucet/service.ts:320-330 | kept change is forgotten only when it expires, is listed, is spent or the process restarts |
| FaucetLedger.KeptChangeIsOffered | relayer/src/faucet/service.ts:336-339 | and offered as long as it is kept, unlisted and not reserved |
| FaucetLedger.OfferInOrder | relayer/src/faucet/service.ts:332-339 | the selection sees the free listed coins first, in rank, and then the free unlisted change |
| FaucetLedger.ClaimsArePaid | relayer/src/faucet/service.ts:496-510 | every recorded claim was entered by its claimant from its IP in the run and carries the time its payment was accepted |
| FaucetLedger.ClaimsStay | relayer/src/faucet/store.ts:68-77 | claims outlive every step, a restart included |
| FaucetLedger.AnswerMeaning | relayer/src/faucet/service.ts:472-527 | what each answer to a broadcast changes: nothing but the lock when refused, half an hour's reservation of exactly the inputs otherwise, a claim only when accepted and recorded |
| FaucetLedger.FailureFreesLock | relayer/src/faucet/service.ts:447-470 | a claim that fails before its broadcast frees the lock and changes nothing else |
| Faucet.SignetFaucet.CheckLimits | relayer/src/faucet/service.ts:356-390 | answers as the specified check |
| Faucet.SignetFaucet.Prune | relayer/src/faucet/service.ts:321-323 | forgets exactly what has expired |
| Faucet.SignetFaucet.Spendable | relayer/src/faucet/service.ts:325-339 | offers the listed coins that are free, in their order, and the free unlisted change |
| Faucet.SignetFaucet.Reserve | relayer/src/faucet/service.ts:522-527 | reserves every input and drops spent change |
| Faucet.SignetFaucet.Enter | relayer/src/faucet/service.ts:435-439 | checks the limits inside the lock, then prunes; refused or on its way as the protocol's step |
| Faucet.SignetFaucet.WithListing | relayer/src/faucet/service.ts:320-340 | the protocol's step on a listing |
| Faucet.SignetFaucet.WithRate | relayer/src/faucet/service.ts:451-470 | selects a prefix of the offer with `BuildPayment` and begins the broadcast, or gives up |
| Faucet.SignetFaucet.Finish | relayer/src/faucet/service.ts:472-510 | the end of a send for each outcome of the broadcast, the same transaction sent again included |
| LendArchive.LendEventStore.Commit | relayer/src/lend-events/store.ts:91-97 | inserts the rows by id, ignoring known ones, together with the cursor |
| LendArchive.InsertExactly | relayer/src/lend-events/store.ts:78-81 | inserting keeps every row and the order by id, and adds the new row exactly when its id is not known |
| LendArchive.ReadTwice | relayer/src/lend-events/store.ts:78-81 | reading a page twice changes nothing |
| LendArchive.PageKeepsSynced | relayer/src/lend-events/poller.ts:50-55 | a page continues the archive without gap or repetition |
| LendArchive.RunCycle | relayer/src/lend-events/poller.ts:38-58 | wherever the loop stops, the archive holds every event up to its cursor; when it answers true, every event there is |
| LendArchive.ParseArchive | relayer/src/lend-events/archive-file.ts:132-173 | accepts exactly the files whose lines are in order, at or before the cursor, in the ledgers they name, decoded as they state and as many as the header says; the rows that pass are in order and end at the cursor; a refusal names the first line that breaks a rule, and which |
| LendArchive.ExportParses | relayer/src/lend-events/archive-file.ts:54-76 | what an archive exports passes, row for row |
| LendRebuild.ReplayMeaning | relayer/src/lend-rebuild/replay.ts:22-51 | the replay is the last word on each position and each supplier's net supply |
| LendRebuild.ReplayRepaid | relayer/src/lend-rebuild/replay.ts:33-36 | the positions owed a release are those the watcher records |
| LendRebuild.ReplayRows | relayer/src/lend-rebuild/replay.ts:22-51 | the loop computes that replay and the sum of its balances |
| LendRebuild.VerifyAgainstChain | relayer/src/lend-rebuild/verify.ts:19-41 | a verdict is exact in both directions when the chain stood still during the reads; releases found missing were owed, and the others are on chain; a failed read gives no verdict |
| LendRebuild.QuietWindow | relayer/src/lend-rebuild/rebuild.ts:111-121 | if the archive has not grown, nothing the views show has changed in between |
| LendRebuild.Prove | relayer/src/lend-rebuild/rebuild.ts:103-122 | the catch-up and verify loop accepts only a replay that equals the views at one common chain state, still current, and reports a mismatch only when everything the chain supplied differs from such a state |
| LendRebuild.Begin | relayer/src/lend-rebuild/rebuild.ts:78-102 | refuses a start exactly when the ledger where reading goes on lies before the oldest the RPC serves, or, with a file, past the latest, each with its error; otherwise the replay begins with the file's rows at the file's cursor, or empty at the deployment |
| LendRebuild.SwapIn | relayer/src/lend-rebuild/rebuild.ts:136-142 | the writes in their order, each of which may fail: the disk is as it was, or the old archive has lost its log, or the new one is in place, or the releases are recorded too, and the error says which |
| LendRebuild.Rebuild | relayer/src/lend-rebuild/rebuild.ts:74-149 | for every ending: what is swapped in replays to one common chain state, still current; the live archive is replaced if and only if the swap was reached, and the releases and their cursor are untouched until everything is done, so none is lost; rehearsals, and failures before the swap begins, change nothing; a mismatch is real |
| LendRebuild.FailsHalfway | relayer/src/lend-rebuild/rebuild.ts:141-142 | an input on which every check passes and the release store then fails: the archive has changed, the owed release is neither pending nor on chain at the archive's cursor, and the release store's own cursor has not passed it |
| LendRebuild.MissedSuppliersHoldNothing | relayer/src/lend-rebuild/verify.ts:26-34 | a supplier missing from an accepted replay holds zero |
| LendRebuild.RebuiltIsCovered | relayer/src/lend-rebuild/rebuild.ts:142-142 | for every archive: after a rebuild no repayment is lost if and only if each one before the chain's own events was already pending, is on chain, or is in the rebuilt archive; always so without a file |
| LendRebuild.OmissionGoesUnnoticed | relayer/src/lend-rebuild/verify.ts:20-25 | from every archive that passes, the rows of any position can be left out and the rest still passes |
| ReleaseWatcher.NothingIsLost | relayer/src/repay-watcher/release-store.ts:126-131 | after any writes in any order, with crashes anywhere, every full repayment at or before the cursor is pending or has its release on chain |
| ReleaseWatcher.RowsLeaveWhenReleased | relayer/src/repay-watcher/release-store.ts:107-109 | after any writes, a row that has left the table has its release on chain |
| ReleaseWatcher.OthersUntouched | relayer/src/repay-watcher/release-store.ts:100-103 | after any writes, a row that none of them names is as it was, however other releases fail |
| ReleaseWatcher.CursorIgnoresReleases | relayer/src/repay-watcher/release-store.ts:126-131 | the cursor ends where it would without any write about releases: none holds it back |
| ReleaseWatcher.RecordCovers | relayer/src/repay-watcher/release-store.ts:126-131 | a page's repayments and its cursor recorded together keep the cover |
| ReleaseWatcher.AttemptsSpan | relayer/src/repay-watcher/release-store.ts:21-29 | the waits between the 24 attempts add up to 61,410 seconds |
| ReleaseWatcher.ReleaseDelayValues | relayer/src/repay-watcher/release-store.ts:20-29 | the waits are 30, 60, 120, 240, 480, 960 and 1,920 seconds and then an hour |
| ReleaseWatcher.ReleaseStore.RecordBatch | relayer/src/repay-watcher/release-store.ts:126-131 | adds new rows only, and the cursor with them |
| ReleaseWatcher.ReleaseStore.Due | relayer/src/repay-watcher/release-store.ts:94-99 | at most ten due rows, oldest first, none younger than one left out |
| ReleaseWatcher.ReleaseStore.MarkFailed | relayer/src/repay-watcher/release-store.ts:140-143 | counts the attempt and postpones the row |
| ReleaseWatcher.PollCycle | relayer/src/repay-watcher/poller.ts:82-102 | records exactly the page's repayments with the cursor, in one of the writes above, or changes nothing, when the read or the write fails |
| ReleaseWatcher.PublishOne | relayer/src/repay-watcher/poller.ts:121-134 | a due row goes when its release is seen on chain, and otherwise counts one more attempt; one write, about this row alone, or none if that write fails |
| ReleaseWatcher.Sweep | relayer/src/repay-watcher/poller.ts:117-136 | each due row, up to where the sweep stops, is removed with its release on chain or fails once more; no other row and not the cursor changes; all of it is a run of the writes above, naming those rows only |
| ReleaseWatcher.Watch | relayer/src/repay-watcher/poller.ts:237-267 | however many rounds the loop runs and whatever fails in them, what it does to the durable state is a run of the writes above: no repayment at or before the cursor is lost and no row leaves without its release |
| TxParsing.StripWitness | relayer/src/bitcoin/tx.ts:79-137 | the cursor loops compute the stripped bytes, or refuse |
| TxParsing.ParseOutput | relayer/src/bitcoin/tx.ts:145-187 | the cursor loops compute the output at an index, or refuse |
| TxParsing.FindOutputIndex | relayer/src/repay-watcher/handler.ts:58-69 | the bounded search computes the first matching index, or none |
| TxParsing.FindP2wshOutput | contracts/contracts/spv-types/src/btc_parser.rs:18-80 | the contract's loops compute the first matching value, or none |
| TxParsing.ReadU64 | contracts/contracts/spv-types/src/btc_parser.rs:107-113 | eight accumulated bytes are the little-endian value |
| TxTheorems.VarIntMeaning | relayer/src/bitcoin/tx.ts:44-55 | a length reads as its first byte or as the 2, 4 or 8 bytes after it; refused exactly when they are not all there, when they spell more than 32 bits, and by the contract when there are more than 2 |
| TxTheorems.StripExtended | relayer/src/bitcoin/tx.ts:79-137 | stripping the extended serialization of every transaction gives its legacy serialization |
| TxTheorems.StripLegacy | relayer/src/bitcoin/tx.ts:63-80 | a legacy serialization is unchanged exactly unless it has no inputs and one output |
| TxTheorems.ParseOutputMeaning | relayer/src/bitcoin/tx.ts:145-187 | an output is returned exactly when it exists and every value up to it is a safe integer |
| TxTheorems.FindValueMeaning | contracts/contracts/spv-types/src/btc_parser.rs:18-80 | within its limits the contract answers the value of the first output that pays the script |
| TxTheorems.ParsersAgree | relayer/src/repay-watcher/handler.ts:58-69 | the relayer's index over the full transaction and the contract's value over the stripped one belong to the same output, whenever it is within the relayer's reach |

## Left out

- Entry lifetimes, rent and archival: storage is a permanent map, since entries are restored before they are read.
- Authorization signatures, the optional submitter, and the admin, consumer and lifetime setters of the light client; `consume_deposit` and its registry.
- SHA-256, secp256k1, BIP-137 and PSBT signing: hashing is a function parameter, signing is not modelled.
- Machine limits that no stored value reaches: heights and positions are not wrapped at 32 bits, chainwork not at 256 bits, and the contract's execution budget is not counted. Targets, products and compact bits are modelled at their width.
- The checkpoint's `set_at_ledger`, and the events the contracts publish.
- Hex text: the relayer's parsers are modelled on the bytes it decodes to.
- Floating-point fee rates: a rate is a fraction and the fee its exact ceiling; amounts are not bounded by the safe-integer limit.
- TxTheorems.ParsersAgree: stated for transactions with at least one input, since one without is read as its own extended form; scripts and counts are within the 16-bit sizes the contract's parser accepts.
- The relay's record texts, timestamps, recipient, amounts and its view for the app, the gas balance cache, the polling delays, and errors thrown by its database.
- RelayTheorems.DailyCapHolds: counts burns by their latest recorded broadcast, as the code does; a broadcast whose answer was lost is not recorded.
- RelayTheorems.SendsAreGuarded: says what was read before a broadcast; someone else may still spend the nonce in between, which costs gas and nothing else.
- The order in which waiting jobs get the mint lock: any of them may be next, which covers the queue the code keeps.
- FaucetTheorems.NoDoubleSpend: per process, since reservations live in memory; a broadcast refused with a 4xx status is not counted. One moment stands for the clock reads that directly follow one another.
- Faucet.SignetFaucet.Finish: an accepted id may be one seen before, as when the same claimant is paid again from the same inputs after a record that failed; it takes for granted that equal ids mean equal inputs, an id being the transaction's hash.
- The faucet's request checks before the lock: shape, nonce, key signature and login.
- LendArchive.ParseArchive: begins after the header's format, network and contract have been matched; whether a raw event decodes to a line's columns is an input.
- LendRebuild.Rebuild: the deployment ledger is not past the chain's tip. Files and directories are the stores they hold, and what the old archive's file holds without its log is an input.
- Several contracts in one release store: its rows and cursor are those of one contract.
- The lending contract's interest, index and liquidation logic: its views are arbitrary, and change only with an archived event.
- SQLite, JSON and XDR: a store is a map with atomic transactions, decoding a total function. The HTTP routes, rate limits, metrics, configuration, command lines, the frontend and the SDK.
