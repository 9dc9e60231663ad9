# mfer-node, verified

mfer-node forks an Ethereum chain and simulates transactions on top of it. This project models its
state store, the batching protocol that feeds the store, the execution and replay logic built on it
and its byte codecs, and proves that each implementation meets its much simpler specification.

## How it is built

The theory is on values; the code is in classes and methods that are proved against it.

- `Words`, `Sequences`, `Keys`, `Upstream`: byte strings and number encodings, scratch-pad keys, the forked chain as
  an arbitrary total function of block number and key.
- `Layers`: the specification. A stack of layers on one side, one flat state with a stack of full saved
  copies on the other, and the proof that no run tells them apart; what MergeTo keeps.
- `Overlay`, `OverlayDB`: `OverlayState` objects linked by parent pointers over a caching root and
  `OverlayStateDB` with its loops. A ghost constant holds each layer's line to the root. Every method
  says what it makes of the stack of layers.
- `RootCache`, `BatchFetch`, `KeyFile`: the refresh of the root, the chunked batch calls, the key-cache file.
- `StateDiff`, `Balances`: the state diff as overrides, and transfers.
- `Programs`: core.ApplyMessage as an arbitrary program over the state interface, with well-nested
  snapshots and reverts, run on the flat state and on the layers. A program may depend on everything it reads.
- `Execution`, `Evm`: ExecuteMsg and ExecuteTxs on values, and `MferEVM` with the real snapshots, reverts,
  warm-ups and gas pool.
- `Replay`, `TxPool`, `Tracing`, `MferAPI`: the pool and the live state as a machine over requests, the block
  tracer, and `MferBackend`, each of whose methods is proved to be one step of that machine.
- `Batching`, `FirstCome`: clients, two bounded queues, one server, the refresher of the root and a mutex as a step
  relation; the order in which requests are answered.
- `WarmUp`: workers on a shared heap of layers as a step relation.
- `Multisend`, `Safe`, `Signer`: the codecs around Gnosis Safe calls and the pseudo-signer.

`Stack()` is the sequence of layers above the root and `View()` the flat state it collapses to. `Base()` is the
root's view: what a read of the root returns, be it cached, stale or yet to be fetched. `Valid` says the links are
sound, every account with a cached field is remembered and the root holds no logs; `Ready` adds that the view is
what the cache and the upstream chain at the current block answer. A new database and a refresh that goes through
have `Base() == RootAt(upstream, bn)`, upstream at the current block.

`dafny verify dfyconfig.toml` checks everything with Dafny 4.11.

## What was found

Properties that the code does not have on all inputs. The lemma or contract named says on which inputs they hold:
if and only if the stated condition does, unless the entry says that the condition suffices. The lemmas
`TraceBreaksReplay`, `RefundOutlivesReset`, `ClearForgets` and `ClearForgetsFetch` are failing runs.

- Tracing a transaction replays the pool's prefix out of the live gas pool and does not put the gas back: the replay
  invariant survives if and only if the prefix, replayed from a full pool, leaves it full (`TraceTakesGas`,
  `TraceBreaksReplay`).
- No reset clears the refund counter. Re-executing an untouched pool, and rebuilding the state for a trace, meet the
  same states as before if and only if the counter stands where the last reset found it, respectively at 0
  (`ReExecReproduces`, `RebuildExactly`); that the results of all messages agree has the same condition
  (`RefundShows`), and two ordinary messages in a narrow block show it (`RefundOutlivesReset`).
- A trace takes no snapshot of its own, so a suicide query outside every call would see the marks of the transaction
  before: all messages with enough gas end when traced as they did when sent if and only if the rebuilt top layer
  holds no suicide mark (`TraceExactly`). Messages of the EVM ask only inside calls, so that for them the trace
  reports the outcome the transaction had (`TraceOutcome`).
- Tracing blocks resets the live state and leaves it blank: the pool's effects and the funding are gone, and messages
  run in the context of the last block traced. That is a replay of the pool if and only if there was nothing to replay
  and nobody to fund, with the counters as a reset leaves them (`TraceBlocks`, `BlocksForget`).
- ClearTxPool empties the pool before it takes the state lock: the invariant survives if and only if nothing is sent
  in between, even if all of it is rejected (`ClearIsNotAtomic`). If it overtakes a running ReExecTxPool, results and
  transactions are misaligned from then on, unless the pool was empty (`ClearDuringReExec`).
- A transaction's receipt number is 0 when it was sent and its pool position once re-executed; they agree if and only
  if it is the first (`ReceiptNumbers`). Replays are compared up to that number.
- A failed slot fetch during a refresh panics with the placeholders in place, the root as the current layer and the
  lock released. A placeholder reads as zero, so it is right if and only if the slot is zero upstream
  (`PlaceholderShows`); the cache stays coherent if and only if the key file names no slot that can be read
  (`PanicLeavesPlaceholders`). It happens if and only if a call of the slot fetch fails (`RefreshOutcome`, in the
  contracts of `ResetScratchPad`, `InitState`, `Prepare` and `ReExecTxPool`), and a retry repairs it.
- After a failed account fetch the node goes on over the new slots and the accounts it had cached. It happens if and
  only if more than 5 of the first chunks + 5 account calls fail and no slot call does (`RefreshOutcome`); reads are
  right all the same if and only if those accounts were upstream's already (`GivingUp`).
- ClearKeyCache forgets accounts without regard to fetches under way: it keeps track of every account if and only if
  no account request is between the server's marking it and its client's filling it in, that is, none is being
  fetched, being replied to or held by a client as a reply (`ClearKeepsTrack`; `ClearForgets` and
  `ClearForgetsFetch` are what follows otherwise). The next refresh leaves the entry of a forgotten account as it
  is, right if and only if it was right before (`ForgottenStays`).
- The error of a single request inside a batch is ignored: what is received is the account if and only if what was
  dropped is zero anyway (`ReceivedExactly`).
- A malformed tracer configuration makes ExecuteMsg return after its snapshot, leaving one more layer (`ExecuteMsg`).
- The nonce's detour through int64 loses exactly the nonces above 2^63 (`NonceSurvives`, `DiffRoundTrip`).
- SubBalance stores the magnitude of the difference: right if and only if the balance covers it (`SubBalanceExact`).
- Packing a call drops the sign of its value: it reads back if and only if the value is not negative
  (`BuildTransactions`). Neither RLP nor hexutil.Big lets a negative value into the pool, so only a direct caller of
  BuildTransaction can pass one.
- RemoveTxByHash removes the first transaction if and only if it has the hash or no transaction has it
  (`RemoveTxByHash`).

## Model

| member | source | states |
|---|---|---|
| `Words.BigEndianRoundTrip` | mferstate/overlaystatedb.go:201-212 | A balance written as minimal big-endian bytes is read back unchanged. |
| `Words.NonceSurvives` | mferstate/overlaystatedb.go:214-224 | A nonce survives the int64 conversion if and only if it is at most 2^63; a larger one is read as its distance to 2^64. |
| `Words.NonceIsLowWord` | mferstate/overlaystatedb.go:214-220 | A stored nonce is read as the number its last eight bytes make. |
| `Keys.TagsDistinct` | mferstate/overlaystate.go:443-451 | Keys of different kinds start with different tags. |
| `Keys.RawInjective` | mferstate/overlaystate.go:443-451 | Scratch-pad keys are injective over kind, account and slot. |
| `Keys.ParseRaw` | mferstate/overlaystatedb.go:485-508 | The slicing of GetStateDiff recovers kind, account and slot from every key the node builds. |
| `Keys.RawParse` | mferstate/overlaystatedb.go:485-508 | Whatever byte string that slicing accepts is the key of what it returns. |
| `Upstream.ReadsOfUpstream` | mferstate/overlaystate.go:485-521 | At an upstream root balances, codes and slots read as the chain has them, nonces if and only if they are at most 2^63, and every code hash is 32 zeros where the code read is empty and its keccak elsewhere. |
| `Layers.WalkIsRead` | mferstate/overlaystate.go:453-529 | Reading down the layers gives what the flat state holds, or else the root. |
| `Layers.WalkLogsIsFlat` | mferstate/overlaystatedb.go:411-425 | Collecting logs down the layers gives the flat state's log list in emission order. |
| `Layers.WalkReceiptIsFlat` | mferstate/overlaystatedb.go:432-444 | The nearest receipt is the flat state's receipt, with its logs refreshed. |
| `Layers.SuicideMarks` | mferstate/overlaystatedb.go:285-295 | Marking an account turns the answer about it true, about no other, and shows in no read. |
| `Layers.RefinesStep` | mferstate/overlaystatedb.go:324-342 | Every write, log, receipt, snapshot and live revert keeps the layers in step with the flat state and its saved copies, revision by revision. |
| `Layers.SnapshotRefinement` | mferstate/overlaystatedb.go:324-342 | After every legal run the layer chain answers every read, log, receipt and suicide query exactly as the flat state with full saved copies does. |
| `Layers.RevertRestores` | mferstate/overlaystatedb.go:324-335 | Reverting to a snapshot after any run that keeps it live restores the very layers, though revision numbers are reused. |
| `Layers.MergeKeepsReads` | mferstate/overlaystatedb.go:344-357 | MergeTo any depth from 1 up leaves every read unchanged. |
| `Layers.MergeKeepsReverts` | mferstate/overlaystatedb.go:344-357 | A later revert to a snapshot at or below the target gives the same layers, hence view, as without the merge. |
| `Layers.MergeRest` | mferstate/overlaystatedb.go:352-354 | MergeTo forgets exactly the logs and receipts above the target. |
| `Overlay.OverlayState.NewRoot` | mferstate/overlaystate.go:78-104 | A new root is empty and sound, and its view is upstream. |
| `Overlay.OverlayState.Derive` | mferstate/overlaystate.go:106-121 | A derived layer is empty, one deeper, and sees the stack below it. |
| `Overlay.OverlayState.Shape` | mferstate/overlaystate.go:106-121 | The depth counter equals the distance to the root, and the root lies below every layer. |
| `Overlay.OverlayState.GetAtRoot` | mferstate/overlaystate.go:472-521 | Lazy fill: the root returns its view, cached or not; filling changes no later read, keeps every filled account remembered, and keeps code hashes with their code. |
| `Overlay.OverlayState.FileFetched` | mferstate/overlaystate.go:490-507 | Filing a fetched account fills in all four fields, changes none that was cached, and keeps the cached code hash that of the cached code. |
| `Overlay.OverlayState.HashesBelong` | mferstate/overlaystate.go:216-223 | At every root, through lazy fills, refreshes and changes of block, however stale: the code hash that is read is zero where the code that is read is empty, and its keccak elsewhere. |
| `Overlay.OverlayState.Get` | mferstate/overlaystate.go:453-529 | The recursive read returns the nearest layer's value or else the root's view, and changes no layer and no view. |
| `Overlay.OverlayState.GetRootState` | mferstate/overlaystate.go:531-540 | Following parents ends at the first layer of the line. |
| `Overlay.OverlayState.MergeDown` | mferstate/overlaystatedb.go:352-355 | Copying one pad into its parent, entry by entry, is one round of the merge. |
| `OverlayDB.OverlayStateDB.constructor` | mferstate/overlaystatedb.go:47-60 | A new database has one protecting layer over a root whose view is upstream. |
| `OverlayDB.OverlayStateDB.Get` | mferstate/overlaystate.go:453-529 | Every read answers from the flat view, or else the root's view, and is repeatable; the root loses no cached entry and no remembered account, and no account read caches a slot. |
| `OverlayDB.OverlayStateDB.GetBalance` | mferstate/overlaystatedb.go:201-208 | The balance in the view. |
| `OverlayDB.OverlayStateDB.AddBalance` | mferstate/overlaystatedb.go:183-191 | Only the account's balance entry of the current layer changes, to the sum. |
| `OverlayDB.OverlayStateDB.SubBalance` | mferstate/overlaystatedb.go:173-181 | Only the account's balance entry changes, to the absolute difference. |
| `OverlayDB.OverlayStateDB.GetNonce` | mferstate/overlaystatedb.go:214-220 | The low 64 bits of the stored nonce. |
| `OverlayDB.OverlayStateDB.GetCodeHash` | mferstate/overlaystatedb.go:226-232 | The code hash in the view; unless a layer overrides one of the two it is that of the code in the view. |
| `OverlayDB.OverlayStateDB.GetState` | mferstate/overlaystatedb.go:273-278 | The slot in the view, right-fitted to 32 bytes. |
| `OverlayDB.OverlayStateDB.HasSuicided` | mferstate/overlaystatedb.go:290-295 | Looks at the top layer's pad alone. |
| `OverlayDB.OverlayStateDB.Suicide` | mferstate/overlaystatedb.go:285-295 | Exactly the given account's answer becomes true in the current layer, and no read changes. |
| `OverlayDB.OverlayStateDB.InitFakeAccounts` | mferstate/overlaystatedb.go:193-199 | Funds the accounts one after the other and touches nothing else; the root loses nothing and remembers no other account than these besides. |
| `OverlayDB.OverlayStateDB.Snapshot` | mferstate/overlaystatedb.go:337-342 | Pushes one empty layer and returns a live revision: the new depth. |
| `OverlayDB.OverlayStateDB.RevertToSnapshot` | mferstate/overlaystatedb.go:324-335 | For every live revision the walk ends at the layer below it: the stack is cut there and nothing else changes. |
| `OverlayDB.OverlayStateDB.MergeTo` | mferstate/overlaystatedb.go:344-357 | The loop ends at the target layer and its pads are those of the merge on values. |
| `OverlayDB.OverlayStateDB.Clone` | mferstate/overlaystatedb.go:359-369 | A clone shares every layer below its own and has a zero refund counter. |
| `OverlayDB.OverlayStateDB.CloneFromRoot` | mferstate/overlaystatedb.go:371-380 | A clone of the root sees one empty layer over the same root. |
| `OverlayDB.OverlayStateDB.AddLog` | mferstate/overlaystatedb.go:406-409 | Appends to the current transaction's logs of the current layer. |
| `OverlayDB.OverlayStateDB.GetLogs` | mferstate/overlaystatedb.go:411-425 | The downward loop returns the hash's logs in emission order. |
| `OverlayDB.OverlayStateDB.GetReceipt` | mferstate/overlaystatedb.go:432-444 | The nearest receipt with all its logs, or none. |
| `OverlayDB.OverlayStateDB.GetMergedScratchPad` | mferstate/overlaystatedb.go:461-478 | First seen wins: the merged pad is the flat view. |
| `OverlayDB.OverlayStateDB.GetStateDiff` | mferstate/overlaystatedb.go:480-519 | The diff describes the view: each balance, nonce, code and slot the view holds, and no other. |
| `OverlayDB.OverlayStateDB.ResetScratchPad` | mferstate/overlaystatedb.go:62-156 | Whatever the root held, the outcome is the one RefreshOutcome computes from the calls that fail: if the fetches go through, the root's view is upstream and every remembered account is cached; after a failed account fetch the view is the new slots and the old accounts; in both cases exactly the slots cached or seeded are cached, their accounts are remembered besides the old ones, and loading the new key file names each of these slots once; after a failed slot fetch the placeholders are there and the file is the old one; asked to clear, cache, accounts and file are empty. |
| `OverlayDB.OverlayStateDB.RefetchAccounts` | mferstate/overlaystatedb.go:134-155 | Once every slot is refetched, refetching the remembered accounts succeeds if and only if at most 5 of the first chunks + 5 calls fail; then the root's view is upstream, else the old accounts stay. |
| `OverlayDB.OverlayStateDB.SeedAndCollect` | mferstate/overlaystatedb.go:86-116 | Seeds the root, asks for each of its slots exactly once, and remembers the account of every slot and every account remembered before. |
| `OverlayDB.OverlayStateDB.RefetchSlots` | mferstate/overlaystatedb.go:118-130 | Succeeds if and only if no call fails, and then every slot of the root agrees with upstream; else the pad is as it was. |
| `OverlayDB.OverlayStateDB.InitState` | mferstate/overlaystatedb.go:158-169 | From any state, the one a panicked refresh left included, with the outcome RefreshOutcome computes from the calls that fail: leaves one fresh protecting layer over the same root, whose view is upstream after a successful fetch and half refreshed after a failed account fetch, the key file naming each cached or seeded slot once; without a fetch view, cache and file are untouched; a failed slot fetch leaves the root as the current layer with its placeholders and the old file; clearing empties cache, accounts and file; the refund counter stays. |
| `RootCache.Seed` | mferstate/overlaystatedb.go:86-98 | The loop over the file gives the pad with placeholders for its first maxKeyCache slots and no other change. |
| `RootCache.Collect` | mferstate/overlaystatedb.go:100-116 | The slot keys of the pad, each once, become requests and lines in the same order. |
| `RootCache.StoreSlots` | mferstate/overlaystatedb.go:127-130 | The loop files the fetched slots as FileSlots does, in the order of the requests. |
| `RootCache.StoreAccounts` | mferstate/overlaystatedb.go:146-154 | The loop files four entries per fetched account as FileAccounts does. |
| `RootCache.Collected` | mferstate/overlaystatedb.go:100-116 | The gathered requests are exactly the slots the pad has keys for, one each. |
| `RootCache.FiledSlots` | mferstate/overlaystatedb.go:127-130 | Every requested slot agrees with upstream afterwards, no key that agreed is spoiled, no account entry is touched, no other key appears. |
| `RootCache.FiledAccounts` | mferstate/overlaystatedb.go:146-154 | Every field of every listed account agrees afterwards, no key that agreed is spoiled, no other key appears. |
| `RootCache.PlaceholderShows` | mferstate/overlaystatedb.go:93 | A placeholder never is the upstream entry, and reads right if and only if the slot is zero upstream. |
| `RootCache.SavedNames` | mferstate/overlaystatedb.go:122-125 | The file written for the collected slots, loaded again, names each slot that was cached or seeded, and each once. |
| `RootCache.SeedsAreSlots` | mferstate/overlaystatedb.go:86-98 | No line of a key file, however malformed, can plant an account-level entry. |
| `RootCache.RefreshCoherent` | mferstate/overlaystatedb.go:62-156 | Whatever was cached, at whatever block: seeding, refetching all slots and all remembered accounts leaves only upstream values to be read, provided every account with a cached field is remembered. |
| `RootCache.FetchesSucceed` | mferstate/overlaystatedb.go:62-156 | If no call fails the refresh goes through, whatever is cached, remembered or in the key file. |
| `RootCache.RefreshAgain` | mferstate/overlaystatedb.go:62-156 | A second refresh asks for the slots and accounts of the first: it ends as the first would have with the same failures, and its file names the same slots. |
| `RootCache.PanicsExactly` | mferstate/overlaystatedb.go:118-121 | The refresh panics if and only if one of the calls that fetch the slots fails. |
| `BatchFetch.PlanPartitions` | mferstate/overlaystate.go:192-215 | Chunks are consecutive, non-empty, all but the last of the batch size, the last no larger, and cover the list exactly. |
| `BatchFetch.CallWithRetries` | mferstate/overlaystate.go:195-214 | Retries until a call goes through or the sixth failure in all. |
| `BatchFetch.SendInChunks` | mferstate/overlaystate.go:192-215 | The loop sends exactly the chunks of the plan, and every request is left with its own answer. |
| `BatchFetch.ReceivedExactly` | mferstate/overlaystate.go:202-223 | What is received is the upstream account if and only if every dropped field is zero there. |
| `BatchFetch.SlotReceivedExactly` | mferstate/overlaystate.go:275-311 | What is received for a slot is the upstream value if and only if it was not dropped or is zero. |
| `BatchFetch.LoadAccountBatchRPC` | mferstate/overlaystate.go:157-227 | Succeeds if and only if at most 5 of the first chunks + 5 calls fail; then result i is account i's, wherever the chunk borders fall, with zeros for what single requests dropped. |
| `BatchFetch.LoadStateBatchRPC` | mferstate/overlaystate.go:275-311 | Succeeds if and only if no call fails; then value i is request i's slot, or zero if that request was dropped. |
| `KeyFile.HexRoundTrip` | mferstate/overlaystatedb.go:92-111 | Hex encoding a slot key gives one line that decodes to it. |
| `KeyFile.DecodeStops` | mferstate/overlaystatedb.go:92-93 | Decoding stops at the first bad digit or half byte and keeps what came before. |
| `KeyFile.SavedLines` | mferstate/overlaystatedb.go:86-124 | Scanning a saved file yields the lines that were written. |
| `KeyFile.LooseLines` | mferstate/overlaystatedb.go:86-92 | A carriage return before the line's end is dropped, and the last line needs no end. |
| `KeyFile.SaveLoad` | mferstate/overlaystatedb.go:86-125 | Saving distinct slots and loading recovers exactly min(count, maxKeyCache) distinct ones, all if they fit. |
| `StateDiff.VisitDescribes` | mferstate/overlaystatedb.go:485-517 | Visiting one more entry of the merged pad keeps the diff a description of what was visited. |
| `StateDiff.DiffRoundTrip` | mferstate/overlaystatedb.go:480-519 | Applying the diff to upstream gives back the view's balance, code and every slot of every account, and its nonce if and only if that survives the int64 encoding. |
| `Balances.SubBalanceExact` | mferstate/overlaystatedb.go:173-181 | The difference is right if and only if the balance covers it; otherwise what is stored is how much it falls short. |
| `Balances.PayKeepsTotal` | mferstate/overlaystatedb.go:173-191 | A guarded transfer, to oneself too, keeps the total over any list of distinct accounts holding both ends. |
| `Balances.Conservation` | mferevm/evm.go:182-185 | Over every run of guarded transfers, snapshots and live reverts the total stays the same. |
| `Programs.RunKeepsBelow` | mferstate/overlaystatedb.go:324-342 | Whatever a message does, the layers below the one it started on are as before. |
| `Programs.RunRefines` | mferevm/evm.go:451 | Every program gives the same outcome, view, refund and gas on the layers as on the flat state. |
| `Programs.CallReverts` | mferstate/overlaystatedb.go:324-335 | A nested call that fails leaves the layers it was called on. |
| `Programs.FailedCall` | mferstate/overlaystatedb.go:324-335 | For the rest of the message a nested call that did not end well changed nothing but the refund counter and the gas. |
| `Programs.RunAppends` | mferstate/overlaystatedb.go:406-425 | A run adds to its own hash's logs exactly the logs it did not revert, in order, and touches no other hash and no receipt. |
| `Programs.GasPoolSize` | mferevm/evm.go:451 | Two gas pools that are both large enough give the same run, and lose the same gas. |
| `Programs.RunSeesReads` | mferstate/overlaystatedb.go:290-295 | Two states with the same reads, refund and gas give the same run to a message whose suicide queries all come inside its calls, or anywhere if the two agree on the marks of their top layer. |
| `Programs.SameOutcome` | mferevm/evm.go:503-525 | From the same reads and refund and at least the gas, a message that asks only inside its calls, or meets no mark at all, ends the same way. |
| `Programs.MarksDecide` | mferevm/evm.go:503-525 | From the same reads and refund, all messages with enough gas end as they do where nothing is marked if and only if nothing is marked in the other state's top layer either. |
| `Execution.ExecRefines` | mferevm/evm.go:396-501 | ExecuteMsg on the layers is ExecuteMsg on the flat state. |
| `Execution.RejectionAtomic` | mferevm/evm.go:396-458 | A rejected message leaves depth, logs, receipts and every read as they were, but for the sender's code hash, which is zeroed. |
| `Execution.ExecLogs` | mferevm/evm.go:490-499 | An accepted message files its unreverted logs, then its trace, and a receipt under its hash; a rejected one files nothing; other hashes keep theirs. |
| `Execution.MessageMeets` | mferevm/evm.go:396-451 | A message meets every read as it was but for its sender's code hash, which is zero; no account is marked; logs, receipts and counters are those before it. |
| `Execution.AbandonedReads` | mferevm/evm.go:396-418 | So does the state after a malformed tracer configuration, with nothing filed under any hash. |
| `Execution.ResultTells` | mferevm/evm.go:451-499 | Rejected if and only if refused, Reverted if and only if failed, Succeeded if and only if it ended well; unless refused the receipt read back has the message's hash and number, says success if and only if the run ended well, and has its gas and, last, its trace log. |
| `Execution.ListTells` | mferevm/evm.go:375-394 | The same for every transaction of a list of distinct ones, at the end of the list. |
| `Execution.TracePosition` | mferbackend/mferactionapi.go:363-370 | After a list of distinct transactions the last log of each accepted one's receipt is its own trace. |
| `Execution.ExecAllAlike` | mferevm/evm.go:375-394 | Receipt numbers never influence a result or a state. |
| `Execution.FundedReads` | mferstate/overlaystatedb.go:193-199 | Funding adds to each balance what its account is granted, in all its grants, and changes no other read, log, receipt or mark. |
| `Execution.FreshIsReset` | mferevm/evm.go:151-156 | The state after a reset, read by read: every balance is the root's plus what the account is granted, for distinct accounts its one amount; every other key reads as the root does; no hash has a log or a receipt, no account is marked. |
| `Evm.ApplyMessage` | mferevm/evm.go:451 | A program driving the database leaves the layers, refund and gas that running it on their value leaves. |
| `Evm.MferEVM.ExecuteMsg` | mferevm/evm.go:396-501 | The method is ExecuteMsg on the layers: same result, layers, refund and gas; only new layers are added. Result and receipt tell how the run ended. With a malformed tracer configuration it changes nothing but the sender's code hash and leaves one layer behind. |
| `Evm.MferEVM.ExecuteFlat` | mferevm/evm.go:396-501 | The same on the flat state. |
| `Evm.MferEVM.WarmUpWorker` | mferevm/evm.go:349-364 | A worker on a clone leaves the stack it cloned and the coherence of the root. |
| `Evm.MferEVM.WarmUpCache` | mferevm/evm.go:344-373 | However the queue is shared out, the state warmed up for answers as before. |
| `Evm.MferEVM.ExecuteTxs` | mferevm/evm.go:375-394 | Results and state are those of the fold of ExecuteMsg, configuration errors included; warming up does not show. |
| `Evm.MferEVM.ResetToRoot` | mferevm/evm.go:151-156 | Every read is the root's but for the funded balances, no hash has a log or a receipt, the gas pool is full, the refund counter and the key file as before. |
| `Evm.MferEVM.SetBlockNumber` | mferevm/evm.go:147-149 | From any state: from then on reads return what was cached at the old block and what is fetched at the new one; the layers stay. |
| `Evm.MferEVM.Prepare` | mferevm/evm.go:192-201 | Whatever was cached, at whatever block, and whatever panicked before, with the outcome RefreshOutcome computes from the calls that fail: unless a slot fetch fails every read is the new root's but for the funded balances, the gas pool is full, and the key file names each cached or seeded slot once; the new root is upstream at the new block, or its slots with the old accounts if the account fetch failed. |
| `Evm.MferEVM.DoCall` | mferevm/evm.go:503-525 | The outcome of the message on the given state with an unbounded gas pool. |
| `Replay.ServeKeepsReplay` | mferbackend/rpcapi.go:243-280 | A send, a clear and a re-execution each keep the live state, gas and results those of a replay of the pool. |
| `Replay.PoolReplay` | mferbackend/mferactionapi.go:40-56 | Over every run of them the live state and gas pool equal the fold over the pool from the funded root, and result i is transaction i's. |
| `Replay.PoolHolds` | mferbackend/rpcapi.go:277-279 | Over every run, traces included, the pool is the list of transactions sent since the last clear, in order, with a result for each. |
| `Replay.ResetRestores` | mferbackend/mferactionapi.go:40-56 | A clear or re-execution establishes the invariant from any state, so also after a change of block. |
| `Replay.ReplayAfterReset` | mferbackend/mferactionapi.go:40-56 | With traces in the run the invariant holds again from the next reset on. |
| `Replay.BlocksForget` | mferbackend/mferactionapi.go:343-380 | The blank state that tracing blocks leaves is a replay of the pool if and only if pool, results and funded accounts are empty and the counters are those after a reset. |
| `Replay.TraceTakesGas` | mferbackend/debugapi.go:143-150 | A trace changes nothing but the live gas pool; with enough gas for the prefix it keeps the invariant if and only if the hash is unknown or the prefix, replayed from a full pool, leaves it full. |
| `Replay.TraceBreaksReplay` | mferbackend/debugapi.go:143-150 | Two sends and a trace that break it. |
| `Replay.GasDoesNotShow` | mferbackend/debugapi.go:143-145 | Executing a list with two large enough gas pools gives the same results and states. |
| `Replay.TraceRebuild` | mferbackend/debugapi.go:83-150 | The state rebuilt for a trace is the one the transaction met when sent, given a zero refund counter at the last reset and enough gas. |
| `Replay.SameStart` | mferbackend/debugapi.go:143-150 | The traced message starts from the reads and refund of the sent one; what it could see besides are the suicide marks of the rebuilt top layer. |
| `Replay.RebuildExactly` | mferbackend/debugapi.go:83-150 | With enough gas the rebuild is right at every pool position if and only if that counter was 0. |
| `Replay.TraceOutcome` | mferbackend/debugapi.go:143-150 | Under the same conditions, if the message had its gas, the trace reports the outcome the transaction had when sent, provided it asks for suicides only inside its calls or the rebuilt top layer holds no mark. |
| `Replay.TraceExactly` | mferbackend/debugapi.go:143-150 | Under the same conditions, every message with enough gas ends traced as it did sent if and only if the rebuilt top layer holds no suicide mark. |
| `Replay.ReExecReproduces` | mferbackend/mferactionapi.go:48-56 | Re-executing meets the states met before at every pool position if and only if the refund counter is where the last reset found it, and then reproduces results, state and gas. |
| `Replay.RefundShows` | mferbackend/mferactionapi.go:48-56 | Two resets give the same results for all messages and pools if and only if they found the same refund counter. |
| `Replay.RefundOutlivesReset` | mferstate/overlaystatedb.go:261-263 | Two messages that buy gas, earn a refund and get part of it back: sent, the second is rejected for lack of pool gas; re-executed in the same block, both succeed. |
| `Replay.ClearIsNotAtomic` | mferbackend/mferactionapi.go:40-46 | With transactions sent between the two halves of ClearTxPool the invariant holds afterwards if and only if there were none; then the halves are the request. |
| `Replay.ResetForgets` | mferevm/evm.go:396-399 | A pool that is not empty is never a replay of a state that was just reset, since even a rejected message zeroes a code hash. |
| `Replay.ClearDuringReExec` | mferbackend/mferactionapi.go:40-56 | If the pool is emptied while ReExecTxPool executes, then whatever is sent later the invariant holds if and only if the pool had been empty. |
| `Replay.ReceiptNumber` | mferevm/evm.go:494-499 | In a list of distinct transactions every accepted one's receipt keeps the number it was executed under. |
| `Replay.ReceiptNumbers` | mferbackend/rpcapi.go:277-279 | A receipt is numbered 0 after the send and by pool position after a re-execution: equal if and only if the transaction is the first. |
| `Tracing.TracesAreOwn` | mferbackend/mferactionapi.go:356-374 | Over a range of blocks with no hash repeated, what is read back for each transaction is its own trace, or nothing if it was rejected or the tracer configuration is malformed. |
| `Tracing.UnseenAtStart` | mferbackend/mferactionapi.go:356-374 | Earlier blocks leave nothing under a hash they do not hold. |
| `MferAPI.MferBackend.SendTransaction` | mferbackend/rpcapi.go:277-279 | Is the send step: executes on the live state and appends transaction and result. |
| `MferAPI.MferBackend.ClearTxPool` | mferbackend/mferactionapi.go:40-46 | Is the clear step; the pool is empty and every read the root's but for the funded balances. |
| `MferAPI.MferBackend.ReExecTxPool` | mferbackend/mferactionapi.go:48-56 | Is the re-execution step over the latest block and context, whatever was cached, executed or panicked before, unless a slot fetch fails; which call failures give which outcome is stated exactly; after a failed account fetch it runs over the old accounts; either way the new key file names each cached or seeded slot once. |
| `MferAPI.MferBackend.FundedClone` | mferbackend/debugapi.go:143-144 | A clone on which every read is the root's but for the funded balances; the live state is untouched. |
| `MferAPI.MferBackend.Rebuild` | mferbackend/debugapi.go:143-145 | Executes the prefix on a funded clone out of the live gas pool; the live stack is untouched. |
| `MferAPI.MferBackend.TraceTransaction` | mferbackend/debugapi.go:81-150 | Is the trace step; the outcome is the transaction's on the rebuilt state. An unknown hash and a malformed tracer configuration are errors that take no gas. |
| `MferAPI.MferBackend.TraceAll` | mferbackend/mferactionapi.go:356-374 | The loop over blocks reports each transaction's own trace. |
| `MferAPI.MferBackend.TraceOnClone` | mferbackend/mferactionapi.go:354-373 | The reports are each transaction's own trace, and the live stack is left alone. |
| `MferAPI.MferBackend.TraceBlocks` | mferbackend/mferactionapi.go:343-380 | The reports are those over the root the second refresh leaves, upstream at the block before the first unless the account fetch failed; the outcome is SlotsFailed if the first refresh panics and else the one RefreshOutcome computes for the second, which asks for the slots of the first and its accounts and the funded ones; the key file names each cached or seeded slot once; the live state is left blank in the last block's context; no blocks is an error that changes nothing. |
| `TxPool.MferTxPool.AddTx` | mfertxpool/txpool.go:21-24 | Both lists grow by one, in step. |
| `TxPool.MferTxPool.GetTransactionByHash` | mfertxpool/txpool.go:61-68 | The first position with the hash, or 0 and nothing. |
| `TxPool.MferTxPool.RemoveTxByHash` | mfertxpool/txpool.go:37-55 | Both lists lose the same position: the hash's first, or position 0 for an absent hash. |
| `Batching.InvStep` | mferstate/overlaystate.go:324-441 | Every step of every client, of the server and of the refresher keeps the invariant. |
| `Batching.Safety` | mferstate/overlaystate.go:324-441 | In every interleaving, also when a refresh over stale entries is under way: each client that has its answer got exactly one reply, to its own request; no request is lost or in two places; every result is upstream's, so no placeholder is ever read; unless the refresher holds the lock every cache entry is upstream's; every account with a cached field is remembered. A refresh may give up after a failed account fetch if the accounts it found were upstream's; a panic in the slot fetch, giving up over stale accounts and ClearKeyCache are no steps: for each the exact condition is in `PanicLeavesPlaceholders`, `GivingUp` and `ClearKeepsTrack`. |
| `Batching.BoundedStep` | mferstate/overlaystate.go:327-360 | What the server sampled can only be exceeded before it has drained it. |
| `Batching.CachedStep` | mferstate/overlaystate.go:472-521 | Under any interleaving, duplicate fetches and refreshes included, the cache keeps the coherence its stage promises. |
| `Batching.RefreshKeeps` | mferstate/overlaystatedb.go:62-156 | Every move of the refresher, from seeding to release or giving up, brings the cache to the coherence of its next stage and keeps track of accounts. |
| `Batching.TrackedStep` | mferstate/overlaystate.go:187-189 | Every step keeps every cached account remembered, and every account being fetched, replied to or on its way to the cache: accounts are marked before each attempt to send a batch. |
| `Batching.NobodyBlocksForGood` | mferstate/overlaystate.go:327-388 | The lock's holder, client or refresher, never waits on a channel, and the server's next step is always enabled. |
| `Batching.Progress` | mferstate/overlaystate.go:327-388 | In every reachable state with an unfinished client some step that does not idle is enabled that brings the clients, or else the refresher, or else the server, strictly nearer to the end. |
| `Batching.AllCanFinish` | mferstate/overlaystate.go:324-441 | From every reachable state a run without new arrivals serves everybody. |
| `Batching.EveryRunEnds` | mferstate/overlaystate.go:324-441 | Every run without arrivals is no longer than the work left at its start plus eight for each idle step in it, a failed fetch or a look at an empty queue: no interleaving keeps a client waiting for ever. |
| `Batching.MaximalRunsFinish` | mferstate/overlaystate.go:324-441 | Every run without idle steps or arrivals that cannot be continued by another such step has served everybody. |
| `Batching.WorkNeverGrows` | mferstate/overlaystate.go:362-388 | Failed fetches and idle rounds lose nothing. |
| `Batching.EveryRoundCounts` | mferstate/overlaystate.go:327-388 | In every run without new clients, a round in which the server takes in a request strictly decreases the clients' remaining work, whatever is interleaved and however often fetches fail. |
| `Batching.ReceivesBounded` | mferstate/overlaystate.go:333-366 | No run without new clients takes in more requests than there was work at its start. |
| `FirstCome.TurnStep` | mferstate/overlaystate.go:324-388 | Every step keeps that order; only joining a queue extends it, at the end. |
| `FirstCome.FirstComeFirstServed` | mferstate/overlaystate.go:324-388 | In every interleaving the clients of a kind get their replies in the order in which they joined its queue, none overtaken; those not yet replied to are, in that order, in the server's hands and in the queue. |
| `Batching.PanicLeavesPlaceholders` | mferstate/overlaystatedb.go:118-121 | If the slot fetch panics after seeding, the cache stays coherent if and only if the key file named no readable slot. |
| `Batching.GivingUp` | mferstate/overlaystatedb.go:141-145 | If the account fetch fails, the cache is coherent after the lock is released if and only if every account entry found was upstream's. |
| `Batching.ClearKeepsTrack` | mferstate/overlaystatedb.go:77-83 | Clearing the key cache keeps track of accounts if and only if no account request is being fetched or replied to and no client holds an account reply. |
| `Batching.ClearForgetsFetch` | mferstate/overlaystate.go:187-202 | If one is being fetched, the fetch then ends in a reply for an account nobody remembers. |
| `Batching.ClearForgets` | mferbackend/mferactionapi.go:30-32 | If a client holds one, it then caches a field of an account nobody remembers. |
| `Batching.ForgottenStays` | mferstate/overlaystatedb.go:134-155 | The next refresh, at whatever block, leaves an entry of an account it does not list as it was: it is right afterwards if and only if it was right before. |
| `WarmUp.MoveResumes` | mferstate/overlaystatedb.go:324-342 | A small step of a message leaves what the message comes to. |
| `WarmUp.ChainOther` | mferstate/overlaystatedb.go:359-369 | A write to one worker's layer shows in no other worker's chain. |
| `WarmUp.StepKeeps` | mferevm/evm.go:349-364 | Every step of every worker keeps the invariant. |
| `WarmUp.NonInterference` | mferevm/evm.go:344-373 | For any number of workers, any messages and any interleaving, no layer that was there before changes, no query on one changes its answer, the root cache only gains entries that equal upstream, and every account filled is remembered. |
| `WarmUp.Isolation` | mferevm/evm.go:349-364 | A worker that is done has the outcome, layers and counters its message gives when run alone. |
| `Multisend.ParseExact` | multisend/multisend.go:37-58 | A byte string parses to a list of calls if and only if every call can be packed, no value is negative, and the string is their packing. |
| `Multisend.PayloadInjective` | multisend/multisend.go:37-58 | Two lists are packed alike if and only if they are the same up to the sign of values. |
| `Multisend.UnwrapExact` | multisend/multisend.go:28-34 | Call data is read back as its payload, and no other call data is (the "Formal Specification of the Encoding" of the Solidity Contract ABI Specification, for one `bytes` value). |
| `Multisend.BuildTransaction` | multisend/multisend.go:37-58 | Succeeds if and only if there is a recipient and the value's magnitude fits 256 bits; then operation, recipient, magnitude, length and data stand at bytes 0, 1, 21, 53 and 85, and the bytes parse back to the call without its sign. |
| `Multisend.BuildTransactions` | multisend/multisend.go:18-35 | The call data has selector, offset, length, payload and zero padding in place, unwraps and parses back to the transactions without the signs of their values, which is the list itself if and only if no value is negative. |
| `Safe.Sort` | multisend/safe.go:144-146 | The participants end up in ascending order of their addresses as numbers and are the same ones. |
| `Safe.AscendingUnique` | multisend/safe.go:144-146 | There is one ascending order, so any sorting algorithm gives the same list. |
| `Safe.GenApproveHashSigs` | multisend/safe.go:134-141 | The 65-byte record i is the padded owner i, a zero s and v = 1. |
| `Safe.ApprovesExact` | multisend/safe.go:134-141 | Two blobs are equal if and only if their owners are. |
| `Safe.SortedApproveHashSigs` | multisend/safe.go:143-152 | The owner words at bytes 65i to 65i + 32, read as numbers, ascend, strictly so if and only if no participant occurs twice; they are a permutation of the participants, each padded with 12 zeros and followed by a zero s and v = 1. |
| `Signer.SenderSurvives` | mfersigner/signer.go:21-27 | Whatever bytes are signed the pseudo-signer is recognised and their last 20 bytes come back, so every address survives, leading zeros included. |
| `Signer.SenderIsLowBits` | mfersigner/signer.go:25-27 | Whatever the sign and size of r, the sender is the low 160 bits of its magnitude. |
| `Signer.PseudoExactly` | mferevm/evm.go:331-341 | It is chosen if and only if the low 64 bits of v are 1 and s is the constant up to sign. |
| `Signer.OrdinaryRecovered` | mferevm/evm.go:331-341 | Every signature it is not chosen for gives what the ordinary signer recovers. |
| `Signer.SignatureInjective` | mfersigner/signer.go:21-23 | Two addresses with the same signature values are the same. |

## Left out

- ExecuteMsg: the receipt's contract address, block fields and the revert reason's text are not recorded.
- Prepare: dialling and reading the latest header are parameters.
- TraceBlocks: the subtraction that finds the first block's parent is a parameter; after a failed account fetch in the second refresh it is not said which accounts are the old ones.
- ResetScratchPad: its network answers every request of a batch that goes through; a dropped single request is treated in BatchFetch alone. The lock and concurrent readers are in Batching.
- InitState: a failed slot fetch panics in the original; the model returns SlotsFailed and describes the state, from which a retry is covered, but not what else a handler that recovers the panic goes on to do.
- WarmUpCache: as a method it schedules the workers one after the other; WarmUp has every interleaving, with one atomic step for filling in a reply, which Batching splits.
- SendTransaction: starts from the signed transaction; defaults, nonce choice and the lock are not modelled. SendRawTransaction takes no lock and is not modelled.
- RevertToSnapshot: a revision that is not live makes the original walk past the root; it is excluded by a precondition.
- MergeTo: a revision outside 1 to the current depth likewise.
- TraceRebuild: one direction, from a zero refund counter; RebuildExactly gives the exact condition over all pool positions.
- ClearIsNotAtomic: covers sends that fall between the halves; ClearDuringReExec covers the overlap with ReExecTxPool. Other overlaps are not modelled.
- GetLogs: the returned slice is a fresh value; the original can return a list that shares its array with the layer's. The pool's lists are values in the same way.
- Sort: sort.Slice's own algorithm for long lists is replaced by the insertion sort it uses for short ones; AscendingUnique shows that this cannot be seen.
- MessageFrom: recovery of ordinary signatures is a parameter, and nil signature values are not modelled.
- The EVM, gas metering and tracers: ApplyMessage runs an arbitrary deterministic program over the state interface; an outcome its author did not foresee ends in a fixed stuck outcome. A uint64 overflow of the gas pool, which panics in the original, is not modelled.
- The batching server behind a single read: in the classes a read that misses is one step whose fetch succeeds; the protocol it stands for is in Batching.
- Access lists, CreateAccount, preimages and ForEachStorage: constant stubs in the original.
- Keccak: key tags are the actual constants, code hashes an arbitrary function, transaction hashes opaque numbers.
- A change of block number while fetches are outstanding.
- SimulateSafeExec, TraceTransactionBundle, StorageRangeAt and the read-only calls: further users of the same clone, execute and call operations.
- RPC dialling, header subscription, tickers, sleeps, logging, memory statistics, JSON marshalling, fee history and block formatting.
- The encoding of execTransaction's ten arguments and the generated contract bindings; getProof loading and the unused key types.
