# Aztec flush-rewarder bot, modelled in Dafny

The bot wakes a few seconds after each epoch boundary of the Aztec rollup.
It checks the gas price, and then has every configured wallet race to call
`flushEntryQueue()` on the flush-rewarder contract. After a successful flush
it claims rewards once they pass 1000 tokens. It keeps per-wallet success and
failure counters, and a guard (`lastFlushedEpoch`) so that it runs at most
one campaign per epoch.

The model covers `flush.js`:

- `common.dfy`: shared datatypes. `Option`, `Result`, and `Call` (a value a
  chain call returned, or the message it threw). Also sums and small
  arithmetic facts.
- `text.dfy`: the JavaScript string operations the bot relies on: `split`,
  `trim`, `includes` and `substring`.
- `epoch_tracker.dfy`: the `EpochTracker` class. Clock readings are
  parameters, in milliseconds. The start-up reads of the slot and epoch
  durations are `Call` inputs. The wait loop is a method that returns the
  sleeps it takes and the countdown values it reports.
- `wallet_pool.dfy`: `MultiWalletManager` as a Dafny class. The counters are
  arrays updated in place, and the cursor is a mutable field.
- `submitter.dfy`: `attemptFlushWithWallet`. The reply of every chain call
  is an input (`ChainReplies`). The function `Attempt` gives the outcome and
  the ordered counter updates. The method `AttemptFlushWithWallet` mirrors
  the try/catch and is proved to update the pool exactly as `Attempt` says.
- `orchestrator.dfy`: `main` and `attemptMultiWalletFlush`. This covers the
  key list, the gas gate, the campaign over all wallets, the epoch guard,
  and one pass of the main loop as a method of the `FlushBot` class.

Three behaviours of the code worth knowing:

- A campaign skipped because gas is too expensive still records the epoch
  in `lastFlushedEpoch` (flush.js:183-185). The next attempt therefore waits
  for the next epoch.
- If the reward query or the claim fails after a successful flush, the
  attempt records a success and then a failure, and returns false
  (flush.js:274-301).
- The seconds until the next boundary lie in 1..epochDuration, not
  0..epochDuration-1. At an exact boundary the wait is a whole epoch
  (flush.js:69-74).

## Model

| member | source | states |
|---|---|---|
| Text.ContainsIff | flush.js:293-295 | `includes(p)` holds exactly when `p` occurs at some index of the message |
| Text.TrimStart | flush.js:95 | drops a leading run of white space: the result is a suffix, what is dropped is all white space, and the result does not start with white space |
| Text.TrimEnd | flush.js:95 | the mirror image of TrimStart, at the end of the string |
| Text.TrimIsSlice | flush.js:95 | `trim()` keeps one contiguous slice of the key, with only white space cut off on either side |
| Text.TrimEnds | flush.js:95 | a trimmed key neither starts nor ends with white space |
| Text.TrimEmptyIff | flush.js:138 | a piece is dropped by `filter(k => k.trim())` exactly when it is all white space |
| Text.Split | flush.js:138 | `split(',')` yields at least one piece, and no piece contains a comma |
| Text.JoinSplit | flush.js:138 | joining the pieces of `split` with the separator gives back the original string |
| Text.SplitJoin | flush.js:138 | splitting a join of separator-free pieces gives the pieces back |
| Text.Truncate | flush.js:298 | `substring(0, 100)` is a prefix of the message: the whole message when it has at most 100 characters, and exactly its first 100 otherwise |
| EpochTracker.NowSeconds | flush.js:64 | the whole seconds of a millisecond clock reading, rounded down |
| EpochTracker.CurrentEpoch | flush.js:62-67 | the epoch index is the one whose interval [e*d, e*d+d) contains the current second |
| EpochTracker.SecondsUntilNextEpoch | flush.js:69-74 | the wait is between 1 and the epoch length, and now plus the wait is exactly the start of the next epoch |
| EpochTracker.NextBoundaryStartsNextEpoch | flush.js:69-74 | at the boundary the wait aims for, the epoch index is one higher and a full epoch remains |
| EpochTracker.EpochMonotone | flush.js:62-67 | the epoch index never decreases as the clock advances |
| EpochTracker.ChunksShape | flush.js:81-89 | every sleep is between 1 and 60 seconds, all but the last are 60, there are ceil(wait/60) of them, and they add up to the wait (none when the wait is not positive) |
| EpochTracker.CountdownShape | flush.js:81-89 | one countdown line after every sleep but the last, and line i shows the wait less (i+1) minutes, always positive |
| EpochTracker.CountdownAfterEachSleep | flush.js:82-88 | each countdown line equals the wait less the sleeps taken so far |
| EpochTracker.CountdownLabel | flush.js:87 | the minutes and seconds of a countdown line recompose the seconds left, with seconds below 60 |
| EpochTracker.SleepInChunks | flush.js:81-89 | the loop takes exactly the sleeps of ChunksShape and reports exactly the lines of CountdownShape |
| EpochTracker.WakeAtBoundary | flush.js:77 | the sleeps add up to the next boundary plus the flush offset, so with a non-negative offset the bot never wakes before the boundary |
| EpochTracker.WaitForNextEpoch | flush.js:76-90 | the wait loop sleeps until `flushOffset` seconds past the next epoch start, or not at all when the total wait is not positive |
| EpochTracker.Initialize | flush.js:40-60 | start-up succeeds exactly when both duration reads return, rethrows the first failed read, and returns the durations and the current epoch |
| WalletPool.FindIndex | flush.js:112 | the index of the first wallet with the address, or -1 exactly when there is none |
| WalletPool.Bump | flush.js:113 | increments the counter at a found index and changes no other counter; -1 changes nothing |
| WalletPool.SuccessRate | flush.js:126 | the rate lies in [0, 1], is 0 without attempts, and otherwise equals successes / attempts |
| WalletPool.NextIndex | flush.js:103 | the cursor stays within the pool |
| WalletPool.CursorAfterIsMod | flush.js:101-105 | after k calls on a fresh pool the cursor is k mod N |
| WalletPool.ServedIsCyclic | flush.js:101-105 | call number j hands out wallet j mod N |
| WalletPool.RoundRobinServesEachOnce | flush.js:101-105 | N calls hand out every wallet once, in order, and bring the cursor back to the first |
| WalletPool.MultiWalletManager.constructor | flush.js:94-99 | one wallet per key, built from the trimmed key, with the cursor at 0 and all counters at 0 |
| WalletPool.MultiWalletManager.GetNextWallet | flush.js:101-105 | returns the wallet under the cursor and advances the cursor, wrapping around |
| WalletPool.MultiWalletManager.RecordSuccess | flush.js:111-114 | adds one success for the first wallet with the address (nothing if none) and leaves the failures alone |
| WalletPool.MultiWalletManager.RecordFailure | flush.js:116-119 | adds one failure for the first wallet with the address (nothing if none) and leaves the successes alone |
| WalletPool.MultiWalletManager.GetStats | flush.js:121-128 | one entry per wallet, in order, with its address, its counters, and the rate successes / (attempts, or 1 without attempts), which lies in [0, 1] |
| Submitter.TxOptionsFor | flush.js:250-257 | the gas limit is floor(estimate * 120 / 100) and at least the estimate; the fee fields are copied exactly when `maxFeePerGas` is truthy |
| Submitter.BuildTxOptions | flush.js:250-257 | the options built step by step are those of TxOptionsFor |
| Submitter.EffectiveGasPrice | flush.js:270 | the receipt's gas price unless it is null or zero, else the quoted one |
| Submitter.Classify | flush.js:293-298 | AlreadyFlushed exactly when the message contains "execution reverted" or "already flushed"; otherwise Replaced exactly when it contains "replacement fee too low"; otherwise the message's first 100 characters (all of it when shorter) |
| Submitter.Catch | flush.js:292-301 | the catch block adds exactly one failure after the updates already made, records the error as Classify reads its message, keeps the options already sent, and returns false |
| Submitter.Attempt | flush.js:241-302 | returning true means exactly one success and nothing else was recorded; otherwise the updates are one failure, or a success followed by a failure |
| Submitter.FlushedMeansMinedWithStatusOne | flush.js:264-290 | the outcome is Reverted exactly when the receipt's status is not 1; a flush means status 1 and cost = gas used * effective price |
| Submitter.ClaimOnlyAboveThreshold | flush.js:277-283 | rewards are claimed only when the balance is strictly above 1000 tokens, and always then when the claim goes through |
| Submitter.ClaimErrorAfterFlush | flush.js:274-298 | a failed reward query or claim after a mined flush leaves a success and a failure, the attempt returns false, and the error is classified by the failed call's message |
| Submitter.FlushedIff | flush.js:266-285 | an attempt returns true exactly when it is mined with status 1, a gas price is known for the cost, the reward query returns, and above 1000 tokens the claim goes through; it then records exactly one success, and claims exactly when the rewards are above 1000 tokens |
| Submitter.ThrowBeforeFlushFails | flush.js:243-298 | an exception in the estimate, the fee quote, the broadcast, the wait for the receipt, or the cost of a receipt without a gas price records exactly one failure, returns false, and classifies its message; the options sent are those of TxOptionsFor from the broadcast on |
| Submitter.SentOptions | flush.js:247-260 | options are broadcast exactly when the estimate and the fee quote returned, and they are those of TxOptionsFor |
| Submitter.ApplyTalliesSnoc | flush.js:111-119 | recording one more success or failure, after the earlier ones, bumps exactly that counter of the wallet on top of the earlier updates |
| Submitter.AttemptFlushWithWallet | flush.js:234-303 | the imperative attempt returns Attempt's verdict and leaves the counters exactly as Attempt's updates, applied to the wallet's index, say |
| Orchestrator.NonBlank | flush.js:138 | keeps exactly the pieces whose trim is non-empty, and never more pieces than it was given |
| Orchestrator.NonBlankCounts | flush.js:138 | the filter keeps each non-blank piece as many times as it occurs and drops every blank piece |
| Orchestrator.NonBlankKeepsOrder | flush.js:138 | the kept pieces appear in their original order: each is the piece at a position, and the positions strictly increase |
| Orchestrator.PrivateKeys | flush.js:138-141 | an unset variable fails; the list fails exactly when every piece is blank; otherwise the keys are the non-blank comma-separated pieces, each as often as it occurs, in their original order |
| Orchestrator.GasGate | flush.js:209-218 | the quote fails exactly when the call throws or has no gas price; the campaign is skipped exactly when the price is strictly above the ceiling |
| Orchestrator.SuccessCount | flush.js:228 | the number of attempts that returned true is at most the number of wallets |
| Orchestrator.AttemptSettlesOnce | flush.js:266-301 | an attempt records exactly one failure unless it returns true, and at least one success when it does |
| Orchestrator.ApplyTalliesTotals | flush.js:111-119 | the counter totals grow by the successes and failures recorded |
| Orchestrator.ApplyTalliesAt | flush.js:111-119 | only the counters of the attempted wallet change |
| Orchestrator.OutcomesSettle | flush.js:220-227 | every attempt of a campaign settles once, whatever replies each wallet gets |
| Orchestrator.CampaignSettlesEveryWallet | flush.js:220-228 | when each of N attempts settles once, the failures added plus the reported successes are exactly N, and the successes added are at least the reported successes |
| Orchestrator.CampaignCountsPerWallet | flush.js:220-228 | with distinct addresses, after the campaign in wallet order each wallet's counters have moved only by its own attempt's updates |
| Orchestrator.ApplyUpdatesCounts | flush.js:111-119 | after any list of recordSuccess/recordFailure calls, each counter has grown by the number of calls addressed to it |
| Orchestrator.ApplyUpdatesAnyOrder | flush.js:111-119 | two lists of the same updates, in any order, leave the same counters |
| Orchestrator.ApplyUpdatesAppend | flush.js:111-119 | making one list of updates after another is making the joined list |
| Orchestrator.ApplyTalliesAsUpdates | flush.js:111-119 | an attempt's tallies applied in order are the same calls as its updates applied in order |
| Orchestrator.CampaignCountersAreUpdates | flush.js:220-226 | the campaign's counters are those of all its attempts' updates, made one after another in wallet order |
| Orchestrator.AnyInterleavingSameCounters | flush.js:220-226 | the concurrent attempts may interleave their updates in any order, and every interleaving leaves the counters of the campaign in wallet order |
| Orchestrator.ThreeAttemptOutcomes | flush.js:241-301 | a mined flush costs gas used * receipt price, an "execution reverted" error reads as already flushed, and a "timeout" error is reported as "timeout" |
| Orchestrator.OwnIndex | flush.js:112 | with distinct addresses, looking a wallet up by its address finds that same wallet |
| Orchestrator.ThreeWalletCampaign | flush.js:220-228 | three wallets whose replies are a flush, an "execution reverted" and a timeout end with successes [1,0,0] and failures [0,1,1] |
| Orchestrator.ThreeWalletSuccessCount | flush.js:228 | that same campaign reports one success |
| Orchestrator.FlushWithAllWallets | flush.js:220-228 | one attempt per wallet of the pool: the count returned is the number of attempts that returned true, and the counters are those of the whole campaign |
| Orchestrator.AttemptNextWallet | flush.js:222-226 | one wallet's turn extends the campaign's counters and its success count by exactly that wallet's attempt |
| Orchestrator.AttemptMultiWalletFlush | flush.js:205-232 | a failed quote throws and changes nothing; too high a price skips the campaign and changes nothing; otherwise every wallet makes one attempt, the successes are counted, and the counters are those of the whole campaign |
| Orchestrator.NextLastFlushed | flush.js:182-188 | the guard never moves back, moves exactly when the epoch is new and the campaign did not throw, and then moves to that epoch |
| Orchestrator.MaxGasPrice | flush.js:23 | the ceiling is a whole number of gwei, and it is the configured number of gwei, or 50 when unset |
| Orchestrator.AtMostOneCampaignPerEpoch | flush.js:182-188 | across any sequence of wake-ups the guard never moves back, and the epochs that see flush attempts are strictly increasing and above the starting guard |
| Orchestrator.FlushBot.constructor | flush.js:158-159 | the guard starts one below the epoch seen at start-up; the gas ceiling is MaxGasPrice of the setting and the flush offset is the setting, or 2 when unset |
| Orchestrator.FlushBot.RunEpoch | flush.js:171-201 | one loop pass waits for the boundary and reads the epoch. A campaign runs only for an epoch above the guard. A campaign that returns records the epoch; one that throws backs off 30 s and leaves the guard. The stats come from GetStats |

## Left out

- `createwallet.js` (key generation) is not part of this model.
- Chain calls become `Call` inputs: estimate, fee quote, broadcast, receipt, reward balance, claim, and the rollup's duration reads. Their encodings and the contract ABIs are not modelled.
- Ethers' key-to-address derivation becomes a function parameter of the wallet-pool constructor. A key ethers would reject (the constructor throws) is not modelled.
- The clock (`Date.now()`) is a parameter, in milliseconds. `sleep` is not executed: the sleeps are returned as a list of seconds.
- The random 0-500 ms delay before each attempt is not modelled, because it only shifts timing.
- Logging, formatting and balance printing are not modelled: `console.log`, `formatUnits`/`formatEther` output, and `getBalance` at start-up.
- `checkAllRewards` only reads and logs, and catches its own errors.
- The SIGINT handler and `process.exit` are not modelled.
- Orchestrator.AttemptMultiWalletFlush: the attempts run concurrently under `Promise.allSettled`; the method (FlushWithAllWallets) runs them one after another in wallet order. AnyInterleavingSameCounters proves that every interleaving of the attempts' counter updates ends in the same counters. The model does not capture the interleaving of the attempts' chain calls, whose replies are inputs.
- Orchestrator.FlushBot.RunEpoch: one pass of the endless loop, with the epoch's chain replies as inputs. The loop itself and the real 30 s sleep are not modelled. Errors from `waitForNextEpoch` or `getCurrentEpoch` cannot occur in the model.
- EpochTracker.Initialize: requires a positive epoch duration. JavaScript would divide by zero into `Infinity`/`NaN`.
- `EPOCH_DURATION` (flush.js:24) is parsed but never read; only the duration read from the rollup is used, so the model has no such setting.
- Orchestrator.MaxGasPrice: the setting is a whole number of gwei. `parseUnits` would also take a fractional gwei amount, and it throws on text that is not a number.
- Orchestrator.FlushBot.constructor: the flush offset setting is an integer. `parseInt` of text that is not a number gives `NaN`, which would make the wait loop sleep not at all.
- WalletPool.MultiWalletManager.GetNextWallet: requires a non-empty pool. On an empty pool JavaScript returns `undefined` and sets the cursor to `NaN`. `main` never builds an empty pool.
- `getAllWallets` is read as the constant field `wallets`.
- Submitter.Attempt: an error with no `message` would make the catch block itself throw; the model assumes every error has a message. `tx.hash` and the receipt's other fields are not modelled.
- WalletPool.SuccessRate: the rate is an exact rational, where JavaScript computes an IEEE double, which can round the last bit.
- Text.Truncate: a `char` is a Unicode scalar value, where `substring` counts UTF-16 code units. A message with characters outside the Basic Multilingual Plane is cut at a different place.
- BigInt values are unbounded naturals, so there is no overflow. The error for `gasUsed * null` is modelled by its message only.
