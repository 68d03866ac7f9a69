# A verified model of an Electrum index server

This project models, in Dafny, the parts of electrs (an index server for Bitcoin wallets, Rust) whose
correctness is hardest to see from the code, and proves what they promise. Each module covers one
component, in the form the component has: state that is updated in place becomes a class with loops and
invariants, pure code becomes functions and lemmas, and protocols between threads become state machines
whose theorems hold of every run.

| area | modules |
|---|---|
| history keys, scans, unspent sets, statistics, checkpoints | `HistoryKeys`, `HistoryScan`, `HistoryDelta`, `Checkpoints`, `CheckpointRuns`, `ReorgRaces`, `RaceRuns`, `CheckpointFloor` |
| from transactions to rows, to a database, to answers | `ChainIndex`, `UnspentOutputs`, `ScriptStats`, `HistoryDb`, `IndexedChain` |
| paged history | `HistoryPages` |
| reply lines under a cap and a shared budget | `Response`, `ResponseAssembly`, `BudgetRuns` |
| checkpoint Merkle proofs, their cache, build slots and memory permits | `MerkleTree`, `MerkleCache`, `MerkleSlots`, `CheckpointReply` |
| header chain and following the daemon | `HeaderChain`, `HeaderSync` |
| mempool view | `Mempool`, `MempoolFees`, `MempoolSync` |
| block template cache, blk file scanner, fee histogram | `BlockTemplate`, `BlkFiles`, `FeeHistogram` |
| shared | `Wrappers`, `Sorting`, `Sums` |

What is taken as given:

- Hashing is a parameter. Block hashing is assumed injective and never all-zero; nothing is assumed of the
  Merkle hash. A block is a function of its header, and an output a function of its outpoint.
- The database is an ordered map, seen through the ascending list of its keys.
- In `CheckpointRuns` a block is appended only when the rows at its height are exactly its own: the cleanup after a
  reorg has removed what the replaced blocks left there.
- A transaction id names one transaction, on chain and in the mempool; a valid chain spends earlier, spendable
  outputs, and none twice.
- The daemon's answers, the clock and other threads are parameters or free steps of a machine.
- Integers are unbounded; sizes that can reach `usize::MAX`, saturation and 32-bit key fields are written out.
- Fee rates are real numbers.

Where the code does not meet a promise on all inputs, the code is kept and the exact condition is proved:

- A header pop does not wait for `utxo`/`stats` calls in flight. A call whose checkpoint block is popped under it
  answers with the value of its checkpoint's chain (`RaceRuns.StaleRun`); `ReorgRaces.StaleAnswerIff` says exactly
  when that is the right value for the list all the same. Looking up a cached coin's block can panic
  (`RaceRuns.PanicRun`); `ReorgRaces.LookUpPanicsIff` says exactly when, and `ReorgRaces.BlockedForGood` that a call
  with such a coin never gets past it. The runs are over any four blocks as described there; `RaceRuns.SomeBlocks`
  shows that there are some.
- A slow call can save an older checkpoint over a newer one (`RaceRuns.LoweringRun`). Retrying still gets somewhere:
  between reorgs the floor under all calls never falls, and rises when the calls at it are done
  (`CheckpointFloor.FloorNeverFalls`, `CheckpointFloor.FloorRises`).
- With a scan limit of zero `stats` makes no progress (`Checkpoints.Stats`, `HistoryDelta.StatsDelta`), so the
  retry loop is proved to end for limits of at least one.
- A cursor that is confirmed but not in the script's history yields an empty page (`HistoryPages.ForeignCursor`).
- A blk header whose body was never written hides every block after it if the size it announces runs past the end
  of the file, and is skipped otherwise: `BlkFiles.FileReadsBack` is the exact condition. This is for files in which
  such a header, if its size fits, is followed at once by the next record's magic or by fewer than four bytes; other
  bytes there are taken for the body (`BlkFiles.AbandonedReadAsBody`).

`drop_unresolvable` is exact for the outputs of a valid chain (`MempoolSync.DropIsGreatest`); for an arbitrary set of
found outputs `MempoolSync.GreatestIff` gives the condition.

## Model

| member | source | states |
|---|---|---|
| `HistoryKeys.KeyRoundTrip` | src/new_index/schema.rs:2059-2150 | decoding an encoded history key gives the key back, for every key whose fields fit |
| `HistoryKeys.KeyOrder` | src/new_index/schema.rs:2059-2145 | byte order of a script's keys is by height, and at one height funding rows precede spending rows |
| `HistoryKeys.HeightSplit` | src/new_index/schema.rs:2132-2138 | a height prefix lies above exactly the rows below that height and below all others |
| `HistoryKeys.PrefixInterval` | src/new_index/db.rs:26-78 | keys sharing a prefix are contiguous, so stopping at the first other prefix loses nothing |
| `HistoryKeys.BigEndianOrder` | src/util/bincode.rs:17-66 | big-endian byte order is numeric order whatever follows |
| `HistoryKeys.OneOrder` | src/new_index/schema.rs:2104-2145 | key order leaves a single way to list a set of rows |
| `HistoryKeys.IterScanFrom` | src/new_index/db.rs:288-310 | the forward scan visits exactly the keys with the prefix that are not below the start |
| `HistoryKeys.IterScanReverse` | src/new_index/db.rs:312-324 | the reverse scan visits exactly the keys with the prefix that are not above the end |
| `HistoryKeys.HistoryIterScan` | src/new_index/schema.rs:930-940 | lists exactly the script's rows from a height up, each once, in scan order |
| `HistoryKeys.HistoryIterScanReverse` | src/new_index/schema.rs:942-959 | lists exactly the script's rows below a height, newest first |
| `HistoryKeys.FromRow` | src/new_index/schema.rs:2147-2150 | a stored key of the script decodes to the row it was made from |
| `HistoryScan.Resume` | src/new_index/schema.rs:1145-1326 | from the value at any height, scanning rows up to any later height gives the value there, for unspent set and statistics alike |
| `HistoryScan.UtxoRun` | src/new_index/schema.rs:1175-1188 | row by row through a block equals the block as a whole, because funding rows come first |
| `HistoryScan.StatsRun` | src/new_index/schema.rs:1273-1318 | counting rows one by one with a set of seen ids equals counting the block's transactions, outputs and values |
| `HistoryScan.SamePrefix` | src/new_index/schema.rs:1068-1326 | unspent set and statistics at a height depend only on the blocks below it |
| `HistoryDelta.UtxoDelta` | src/new_index/schema.rs:1145-1206 | the scan folds a prefix of the listed rows; it stops at the first block boundary with the limit reached, at the end, or at once when the set grows too large (and then is tagged with nothing) |
| `HistoryDelta.StatsDelta` | src/new_index/schema.rs:1249-1326 | the same for statistics; with a limit of zero it stops before the first row |
| `HistoryDelta.EndOfScan` | src/new_index/schema.rs:1176-1206 | where a scan ends it holds the value of the chain up to the block it is tagged with, and of the whole list if it was not stopped |
| `Checkpoints.CacheRoundTrip` | src/new_index/schema.rs:2319-2342 | saving heights and restoring block ids gives the same unspent set on any list agreeing with the chain it was saved from |
| `Checkpoints.TagPins` | src/new_index/schema.rs:1080-1088 | a tag found in the list pins the whole chain the checkpoint was made for |
| `Checkpoints.Stats` | src/new_index/schema.rs:1208-1247 | a finished call is the value of the whole chain, saved exactly if it saw a row and counts many, under the last row's block; what is saved is right; it gives up exactly if more listed rows than the scan limit remain (any row, for a limit of zero), and then, for a limit of at least one, leaves its checkpoint at the first block below which the limit is reached and above which rows remain |
| `Checkpoints.Utxo` | src/new_index/schema.rs:1068-1143 | a finished call lists exactly the chain's unspent outputs, within the limit; too many is refused; what is saved is right; finished calls save exactly if they saw a row and had a checkpoint or saw many, under the last row's block; the history is too big exactly if the cached or the folded set exceeds the checkpoint limit or more rows than the scan limit remain; a raised checkpoint is at the first block where they do |
| `Checkpoints.EndMeans` | src/new_index/schema.rs:1169-1206 | where a scan ends says what rows the script has: a stop is at the lowest height with the limit reached below and rows above, an end means there is no such height and every row was seen |
| `Checkpoints.NeverOutgrows` | src/new_index/schema.rs:1190-1196 | a scan that saw every row without the set growing too large shows that it never does, whatever the listing |
| `Checkpoints.Precache` | src/new_index/precache.rs:37-50 | retrying on every failure terminates, with the value of the whole chain |
| `Checkpoints.RetryUtxo` | src/new_index/schema.rs:1068-1143 | asking for unspent outputs again while the checkpoint moves terminates for every scan limit: with the chain's unspent outputs, with too many, or because the saved or folded set exceeds the checkpoint limit |
| `Checkpoints.StatsStart` | src/new_index/schema.rs:1212-1228 | a call starts just above its checkpoint's height, with the value there |
| `Checkpoints.UtxoStart` | src/new_index/schema.rs:1072-1097 | the same for unspent outputs; no cached coin is of an unlisted block |
| `CheckpointRuns.StepKeepsInv` | src/new_index/schema.rs:1068-1326 | every step of every thread keeps all checkpoints and calls right |
| `CheckpointRuns.RunKeepsInv` | src/new_index/schema.rs:1068-1326 | so does every run of appends, pops, cleanups and calls |
| `CheckpointRuns.EveryCheckpointIsRight` | src/new_index/schema.rs:1109-1117 | in every run each saved checkpoint is the value of the chain up to its block |
| `CheckpointRuns.EveryCompletedScan` | src/new_index/schema.rs:1099-1143 | in every run a completed scan gives the from-scratch value of the list, or of the checkpoint's chain if a reorg cut the list below it |
| `CheckpointRuns.UndisturbedCall` | src/new_index/schema.rs:1208-1247 | without a pending reorg it is the from-scratch value of the list |
| `CheckpointRuns.GivingUpProgresses` | src/new_index/schema.rs:1230-1243 | in every run a scan-limit failure is tagged strictly above the checkpoint it started from |
| `ReorgRaces.LookUpPanicsIff` | src/new_index/schema.rs:2331-2342 | in every run, with coins looked up one by one and pops in between, a lookup panics if and only if the coin was made at a height the list no longer has at that moment; that takes a pop during the call |
| `ReorgRaces.BlockedForGood` | src/new_index/schema.rs:2331-2342 | in every run a call with a coin whose block is off the list never restores: it waits for it or panics, since the list cannot grow back during the call |
| `ReorgRaces.StaleAnswerIff` | src/new_index/schema.rs:1072-1107 | in every run a completed scan is right for the list if and only if the list reaches its checkpoint or the popped blocks change nothing: no row of the script for statistics; no coin made and no earlier unspent output touched for unspent outputs |
| `ReorgRaces.SameUtxos` | src/new_index/schema.rs:1175-1188 | the unspent sets of a chain and of its first blocks are equal exactly if no coin is from the later blocks and these leave every earlier unspent output alone |
| `ReorgRaces.CountsGrow` | src/new_index/schema.rs:1273-1318 | statistics stay the same over blocks without rows of the script and grow otherwise |
| `RaceRuns.StaleRun` | src/new_index/schema.rs:1099-1143 | a run, for unspent outputs and for statistics, in which a call answers with the value of a popped block |
| `RaceRuns.PanicRun` | src/new_index/schema.rs:2331-2342 | a run in which restoring cached coins panics |
| `RaceRuns.LoweringRun` | src/new_index/schema.rs:1230-1240 | a run in which a slow call saves an older checkpoint over a newer one |
| `CheckpointFloor.StepKeepsAhead` | src/new_index/schema.rs:1176-1206 | while no reorg is pending, what a call is about to save is strictly above what it started from |
| `CheckpointFloor.FloorNeverFalls` | src/new_index/schema.rs:1080-1117 | in every run, between reorgs, the least of the saved height and the heights calls in flight started from never falls |
| `CheckpointFloor.FloorRises` | src/new_index/schema.rs:1109-1117 | and it has risen once some call has saved and the calls that started from it are done |
| `ChainIndex.IndexTransaction` | src/new_index/schema.rs:1777-1835 | adds exactly the confirmation row, the funding rows of indexed outputs, and a spending and an edge row per input |
| `ChainIndex.IndexBlock` | src/new_index/schema.rs:1751-1774 | a block's rows are exactly those of its transactions and its done marker |
| `ChainIndex.BlockRowsAreInfos` | src/new_index/schema.rs:1777-1835 | the history rows written for a block are, per script, its funding and spending entries at that height |
| `ChainIndex.IndexIsPublished` | src/new_index/schema.rs:1751-1835 | an indexed chain has exactly the rows the scans expect |
| `UnspentOutputs.UnspentExactly` | src/new_index/schema.rs:1145-1206 | for every valid chain the unspent set is exactly the script's indexed outputs that no transaction spends |
| `UnspentOutputs.CoinIs` | src/new_index/schema.rs:1179-1183 | each coin carries the block that made it and the value of its output |
| `UnspentOutputs.BlockConserves` | src/new_index/schema.rs:1179-1188 | a block changes size and value of the set by what it funds less what it spends |
| `UnspentOutputs.FundedLessSpent` | src/new_index/schema.rs:1208-1326 | for every valid chain number and value of unspent outputs are the statistics' funded less spent |
| `ScriptStats.StatsMean` | src/new_index/schema.rs:1249-1326 | for every valid chain the transaction count is the number of distinct ids of transactions that pay the script or spend an output paid to it, the funded count and sum are the number and value of the outputs paid to it, the spent count and sum those of the outputs paid to it and spent |
| `ScriptStats.IdsOfBlock` | src/new_index/schema.rs:1284-1286 | the ids in a block's rows for a script are those of its transactions that take part, each once however many rows it has |
| `ScriptStats.PartakesStep` | src/new_index/schema.rs:1273-1286 | ids taking part in different blocks are different, so counting per block counts none twice |
| `ScriptStats.RowsAreOuts` | src/new_index/schema.rs:1288-1300 | rows that are each about their own output add up to the number and value of these outputs |
| `UnspentOutputs.ValidIndexIsPublished` | src/new_index/schema.rs:1751-1848 | the rows indexed for a valid chain are what a script's scans rely on |
| `HistoryDb.AddBlocks` | src/new_index/schema.rs:1651-1699 | stores exactly the spendable outputs of the chain, as they are |
| `HistoryDb.BlockResolves` | src/new_index/schema.rs:1701-1726 | on a valid chain every output a block spends is found |
| `HistoryDb.PutAscends` | src/new_index/schema.rs:725-739 | keys stay in byte order |
| `HistoryDb.WriteRows` | src/new_index/schema.rs:725-739 | the database then holds exactly the old and the new rows |
| `HistoryDb.IndexChain` | src/new_index/schema.rs:707-765 | indexing a valid chain block by block ends with ascending keys, exactly those of its blocks' rows |
| `HistoryDb.IndexedIsIndexOf` | src/new_index/schema.rs:1751-1774 | at each height of the chain the history is that of the block there |
| `HistoryDb.IndexedHolds` | src/new_index/schema.rs:1906-2145 | for every script the keys hold exactly its rows: no other row's key starts like its own |
| `IndexedChain.RowsConfirmed` | src/new_index/schema.rs:1734-1749 | every history row's transaction is confirmed at the row's height |
| `IndexedChain.ReadyStore` | src/new_index/schema.rs:707-765 | the database of a valid chain is what `utxo`, `stats` and the history pages rely on |
| `IndexedChain.UtxoAndStats` | src/new_index/schema.rs:1068-1247 | on that database a finished `utxo` is exactly the script's paid and unspent outputs with height, hash and time of their blocks and their values; a finished `stats` counts exactly the transactions that pay or spend from the script, the paid outputs and the spent ones with their values; the two agree: funded less spent, in number and value |
| `IndexedChain.WholeHistory` | src/new_index/schema.rs:961-1047 | on that database following the pages lists exactly the transactions of the chain that pay the script or spend an output paid to it, once each, newest first, unless the script has more rows than the scan limit |
| `IndexedChain.AskUntilAnswered` | src/new_index/precache.rs:37-50 | on that database asking again ends: always with the statistics, which count what they say, and with the unspent outputs unless they are too many for the caller or too large for the checkpoint limit |
| `IndexedChain.IndexAndAsk` | src/new_index/schema.rs:707-1247 | from a valid chain alone: index it, ask, and get exactly that |
| `HistoryPages.Walk` | src/new_index/schema.rs:999-1041 | a page is the next distinct listed transactions after the cursor up to the limit; refused exactly if the scan limit is reached with rows left, the page not full and the cursor not passed by |
| `HistoryPages.History` | src/new_index/schema.rs:971-1047 | scans from the cursor's height, and answers or refuses as the walk does; an unknown or unlisted cursor gives an empty page |
| `HistoryPages.FullIs` | src/new_index/schema.rs:1010-1031 | the full history lists exactly the script's listed transactions, each once, newest first |
| `HistoryPages.ContinuesFrom` | src/new_index/schema.rs:981-1029 | continuing from a transaction of the history shows exactly what follows it |
| `HistoryPages.FollowPages` | src/new_index/schema.rs:961-1047 | following pages of any size concatenates to the full history with no gap or repeat; the first short page is the real end; it is cut short only if there are more rows than the scan limit |
| `HistoryPages.ForeignCursor` | src/new_index/schema.rs:1014-1027 | a cursor outside the script's history gives an empty page wherever the history ends |
| `Response.ErrorTextLen` | src/electrum/response.rs:54-70 | an error envelope is as long as computed beforehand from its message and id |
| `Response.ResponseBuffer.Ensure` | src/electrum/response.rs:131-159 | whatever other connections do, what is granted is not refused and then costs nothing; a refusal changes nothing and happens only if the total exceeds what the others leave of the limit; success covers the request, rounded up to whole chunks if there is room for them |
| `Response.ResponseBuffer.Reserve` | src/electrum/response.rs:186-189 | bytes up to the floor are exempt; covered bytes are never refused; a refusal means the bytes above the floor exceed what is left |
| `Response.ResponseBuffer.Write` | src/electrum/response.rs:260-299 | all of a chunk or none; reserved room is never refused; the per-line reason exactly when the cap is the obstacle, the budget reason only when the budget is; capacity stays paid for |
| `Response.ResponseBuffer.Encode` | src/electrum/response.rs:191-217 | on any failure the contents are as before; a value that fits reserved room is never limited; a budget failure means that the budget does not hold the value |
| `Response.ResponseBuffer.Framing` | src/electrum/response.rs:219-230 | framing within reserved room cannot fail |
| `Response.ResponseBuffer.Discard` | src/electrum/response.rs:447-455 | frees the buffer, keeps the grant |
| `Response.ResponseBuffer.Recycle` | src/electrum/response.rs:232-235 | at most the floor is kept and the whole grant released |
| `Response.Grant` | src/electrum/response.rs:134-147 | a grant covers what is required, never exceeds what is available, and is whole chunks if these are available |
| `ResponseAssembly.AssembleBatch` | src/electrum/response.rs:484-568 | refused exactly for length or errors that cannot fit the cap; refused for the budget only if the errors are not covered and do not fit what is left of it; past the reservation no limit makes it fail; one reply per command in order |
| `ResponseAssembly.AnswerAll` | src/electrum/response.rs:542-568 | with the error room reserved the line is complete, within the cap, and nothing runs after the first overflow |
| `ResponseAssembly.AnswerOne` | src/electrum/response.rs:546-565 | answers one command with its own reply, or the right error if the reply exceeds the cap or what is left of the budget, leaving the room for the rest |
| `ResponseAssembly.AnsweredNext` | src/electrum/response.rs:545-565 | own replies, then the limit's error, then skipped errors, each with its own id and code |
| `ResponseAssembly.AssembleSingle` | src/electrum/response.rs:439-482 | runs only once its error is paid for, and fails there only if the budget does not hold that error; if it fits the cap no limit can make it fail |
| `ResponseAssembly.StreamBudgetErrors` | src/electrum/response.rs:337-366 | one budget error per id, in order |
| `ResponseAssembly.ResponseWriter.SendBatch` | src/electrum/response.rs:384-418 | the line sent, and whatever happens at most the floor of memory kept and the whole grant given back |
| `ResponseAssembly.ResponseWriter.SendSingle` | src/electrum/response.rs:384-418 | the same for a single request: its reply or the error of the limit it hit |
| `ResponseAssembly.ResponseWriter.SendMalformed` | src/electrum/response.rs:400-414 | a malformed line is answered with the parse error whenever that fits |
| `ResponseAssembly.SumErrors` | src/electrum/response.rs:489-499 | the sum of all error sizes |
| `BudgetRuns.StepKeepsInv` | src/electrum/response.rs:130-304 | every atomic step of every connection keeps the counter the sum of grants and every buffer paid for |
| `BudgetRuns.RunKeepsInv` | src/electrum/response.rs:130-304 | in every interleaving the counter is the sum of live grants and within the limit |
| `BudgetRuns.CapacityWithinBudget` | src/electrum/response.rs:259-304 | in every interleaving total capacity above the floors is within the budget |
| `BudgetRuns.NothingLeaks` | src/electrum/response.rs:162-168 | with all grants released the counter is zero |
| `BudgetRuns.RefusedForCause` | src/electrum/response.rs:131-159 | in every interleaving a refused connection had read the counter in its own last load, and what it needed did not fit then |
| `MerkleTree.StoredFormAgrees` | src/util/electrum_merkle.rs:318-364 | for two or more leaves the stored levels with the clamped sibling give the one-shot builder's branch and root, and the branch folds to the root |
| `MerkleTree.BuildLevelsAboveLeaves` | src/util/electrum_merkle.rs:318-336 | builds the levels; in each round at most three hashes per leaf are held |
| `MerkleTree.RoundFits` | src/util/electrum_merkle.rs:97-101 | leaves, padded level, next level and stored levels of any round are together at most three hashes per leaf |
| `MerkleTree.ExtractBranchAndRoot` | src/util/electrum_merkle.rs:338-364 | reads the stored siblings and the root |
| `MerkleTree.CreateMerkleBranchAndRoot` | src/util/electrum_merkle.rs:499-518 | the one-shot builder returns branch and root as defined, the root being the top node of the tree |
| `MerkleTree.FoldAlongBranchIsRoot` | src/util/electrum_merkle.rs:499-518 | folding a leaf along its branch gives the root |
| `MerkleTree.RootIsTop` | src/util/electrum_merkle.rs:499-518 | pairing level by level ends in the top node of the tree defined from the root down, where a node without a right child hashes its left child twice |
| `MerkleTree.BranchIsBeside` | src/util/electrum_merkle.rs:499-518 | a branch is as long as the tree is high and holds, bottom up, the node beside each node on the way from the leaf, or that node itself where there is none |
| `MerkleTree.EstimatedPeakBuildBytes` | src/util/electrum_merkle.rs:97-101 | bounds the bytes of three hashes per header |
| `MerkleCache.CheckpointMerkleCache.Insert` | src/util/electrum_merkle.rs:184-223 | heights distinct, bytes and count within caps; too large changes nothing; otherwise entries of its height and above the tip go, and the new entry is taken exactly if it is not above the tip and fits without the lower entries, with just as many of the lowest gone as have to be; any other entry stays |
| `MerkleCache.InsertedIsInto` | src/util/electrum_merkle.rs:184-223 | the list the steps leave is the one described by which entries survive, which are evicted and whether the new one is taken |
| `MerkleCache.CheckpointMerkleCache.GetValid` | src/util/electrum_merkle.rs:177-182 | a hit is the entry for that height and checkpoint hash; a miss means there is none |
| `MerkleCache.CheckpointMerkleCache.constructor` | src/util/electrum_merkle.rs:162-175 | the cache may use half of the memory |
| `MerkleCache.Place` | src/util/electrum_merkle.rs:194-222 | evicts as few lowest heights as make the entry fit, or none if no number is enough |
| `MerkleCache.CountEvictions` | src/util/electrum_merkle.rs:203-214 | counts the least number of evictions that is enough, or finds that none is |
| `MerkleCache.EvictionPositions` | src/util/electrum_merkle.rs:196-202 | all entries below the new height, lowest first |
| `MerkleCache.RemoveAll` | src/util/electrum_merkle.rs:215-219 | removing positions highest first is filtering |
| `MerkleCache.InsertedKeepsBounds` | src/util/electrum_merkle.rs:184-223 | an insert as specified keeps distinct heights and both caps |
| `MerkleSlots.StepKeepsInv` | src/util/electrum_merkle.rs:31-148 | every atomic step keeps slots, table and counters in step |
| `MerkleSlots.RunKeepsInv` | src/util/electrum_merkle.rs:225-308 | so does every interleaving |
| `MerkleSlots.TableIsLiveGuards` | src/util/electrum_merkle.rs:137-148 | a height is in the table exactly while a guard for it lives, and all its guards share that slot |
| `MerkleSlots.OneBuildPerHeight` | src/util/electrum_merkle.rs:225-308 | at most one build per height |
| `MerkleSlots.NothingLeaks` | src/util/electrum_merkle.rs:91-148 | at rest the table is empty and both counters are zero |
| `MerkleSlots.NoUnderflow` | src/util/electrum_merkle.rs:55-120 | no release exceeds what is counted |
| `MerkleSlots.RebuildsWithinLimit` | src/util/electrum_merkle.rs:31-60 | in every run no more requests than the configured limit are rebuilding |
| `MerkleSlots.ReservedWithinBudget` | src/util/electrum_merkle.rs:62-95 | in every run a reservation leaves the bytes in flight within the memory the cache leaves, unless that build has all the memory to itself |
| `MerkleSlots.AdmittedIff` | src/util/electrum_merkle.rs:31-95 | in every run a request gets its rebuild permit exactly if fewer than the limit are rebuilding, and its memory exactly if what is held and kept leaves room for it or is nothing |
| `MerkleSlots.AlwaysUnwinds` | src/util/electrum_merkle.rs:55-148 | in every run a request can give back what it took last: nobody is stuck |
| `CheckpointReply.EveryReplyIsRight` | src/electrum/server.rs:275-366 | under every interleaving of reorgs, hits, retained trees and rebuilds a reply's header folds along its branch to the root over the chain that is current in the very step that sends it |
| `CheckpointReply.StepKeepsInv` | src/util/electrum_merkle.rs:386-468 | every step keeps shared trees right for the chain their checkpoint hash names |
| `CheckpointReply.NewReplyIsRight` | src/electrum/server.rs:288-311 | the recheck of the checkpoint hash makes the reply right for the chain at that moment |
| `CheckpointReply.UndisturbedNeverFails` | src/electrum/server.rs:275-366 | in every run a request fails only if the chain was changed after it arrived |
| `CheckpointReply.CanGoOn` | src/util/electrum_merkle.rs:386-468 | an undisturbed request can always take its next step, at most three before its reply |
| `HeaderChain.HashPinsPrefix` | src/util/block.rs:140-186 | two linked chains containing the same block hash agree from genesis up to it |
| `HeaderChain.HeaderList.Preprocess` | src/util/block.rs:140-186 | numbers the new headers and finds where they attach and what they replace |
| `HeaderChain.HeaderList.Pop` | src/util/block.rs:190-205 | takes off everything from a height up and forgets exactly those hashes |
| `HeaderChain.HeaderList.Append` | src/util/block.rs:207-240 | extends the list, keeping heights the exact inverse of headers |
| `HeaderChain.HeaderList.HeaderByBlockhash` | src/util/block.rs:242-248 | finds an entry exactly if its hash is in the list |
| `HeaderChain.HeaderList.HeaderByHeight` | src/util/block.rs:250-255 | finds an entry exactly below the end |
| `HeaderSync.GetAllHeaders` | src/daemon.rs:1552-1601 | whatever the daemon serves, an accepted download is linked and ends at the best block; a chain served by height that does is accepted as it is |
| `HeaderSync.GetNewHeaders` | src/daemon.rs:1603-1633 | returns exactly the daemon's chain above the highest known header, exactly if the daemon serves the headers it asks for |
| `HeaderSync.Update` | src/new_index/schema.rs:443-537 | no assertion fails; a cleanup that is put off or fails ends the update early with the list's tip, untouched or cut back to the fork; otherwise the list is a prefix of the daemon's chain that keeps the shared part, complete blocks only; with the headers served and the genesis block unchanged it succeeds exactly if the cleanup is not interrupted and the commit goes through, and after a finished cleanup and a complete fetch the list is the daemon's chain |
| `HeaderSync.PopReplaced` | src/new_index/schema.rs:446-462 | cuts the list back to the fork, unless the cleanup does not get that far, and returns the numbered headers above it |
| `HeaderSync.Commit` | src/new_index/schema.rs:504-536 | appends exactly the leading run of complete headers; fails exactly if a full fetch left some incomplete or the list stays empty |
| `HeaderSync.ForkAtGenesis` | src/new_index/schema.rs:446-462 | the fork is at the start of a list that is not empty exactly if the genesis blocks differ |
| `HeaderSync.CommitsIff` | src/new_index/schema.rs:504-536 | the commit goes through exactly if a full fetch completed every block above the fork and some block is there |
| `HeaderSync.Load` | src/util/block.rs:97-132 | rebuilds the chain that ends at the saved tip |
| `HeaderSync.CompletedPrefixLen` | src/new_index/schema.rs:54-56 | the longest leading run of complete headers |
| `Mempool.Mempool.Add` | src/new_index/mempool.rs:414-531 | all of the batch in some order, exactly if every spent output is found in batch, mempool or chain, else nothing; the five maps stay in step |
| `Mempool.Mempool.AddOne` | src/new_index/mempool.rs:443-528 | does to the five maps what `AddTx` says |
| `Mempool.AddTxOk` | src/new_index/mempool.rs:443-528 | adding a new transaction keeps the five maps in step |
| `Mempool.AddAllOk` | src/new_index/mempool.rs:442-528 | so does adding a batch, in any order |
| `Mempool.Mempool.Remove` | src/new_index/mempool.rs:601-662 | removes exactly those transactions with no missing entry; the five maps stay in step |
| `Mempool.Mempool.RemoveOne` | src/new_index/mempool.rs:607-653 | does to the five maps what `RemoveTx` says |
| `Mempool.RemoveTxOk` | src/new_index/mempool.rs:607-653 | no lookup of evicting a live transaction misses, and the five maps stay in step |
| `Mempool.RemoveAllOk` | src/new_index/mempool.rs:601-662 | so it is for any number of live transactions, in any order |
| `Mempool.PruneHistoryEntries` | src/new_index/mempool.rs:825-849 | bucket by bucket, exactly the transaction's entries go, and empty buckets with them |
| `Mempool.PrunedAll` | src/new_index/mempool.rs:825-849 | every bucket of a live transaction exists and holds an entry of it; afterwards each bucket is exact again |
| `Mempool.PushFundings` | src/new_index/mempool.rs:487-511 | pushes the funding entries of indexed outputs in order, and collects their scripts |
| `Mempool.PushSpendings` | src/new_index/mempool.rs:470-511 | pushes the spending entries of the looked-up outputs in order, and collects their scripts |
| `Mempool.PushedAll` | src/new_index/mempool.rs:470-511 | after both every bucket holds exactly the entries its live transactions generate, none twice |
| `Mempool.ScriptsAll` | src/new_index/mempool.rs:506-514 | the collected scripts are exactly those the transaction adds an entry to |
| `Mempool.InsertEdges` | src/new_index/mempool.rs:515-517 | each input in turn takes the edge of what it spends |
| `Mempool.EdgesWithTaken` | src/new_index/mempool.rs:515-517 | every spend then owns its edge, other edges are untouched |
| `Mempool.RemoveEdges` | src/new_index/mempool.rs:622-652 | each input in turn gives up its edge if it is still the transaction's |
| `Mempool.EdgesWithoutDropped` | src/new_index/mempool.rs:622-652 | exactly the transaction's own edges go, edges taken over by a conflicting spend stay |
| `Mempool.LookupBatch` | src/new_index/mempool.rs:420-440 | succeeds exactly if every spent output is found, with the right outputs |
| `MempoolFees.FeeFromHistory` | src/util/fees.rs:32-44 | the fee kept for a transaction is what its spending entries in the history are worth, less the value of its outputs |
| `MempoolSync.DropUnresolvable` | src/new_index/mempool.rs:564-598 | drops exactly the unresolvable transactions and their descendants in the batch |
| `MempoolSync.RemainderResolves` | src/new_index/mempool.rs:564-598 | what remains can be added |
| `MempoolSync.RemainderIsGreatest` | src/new_index/mempool.rs:564-598 | if what is found is closed under ancestors, no part that can be added loses anything |
| `MempoolSync.ChainIsAncestorClosed` | src/new_index/mempool.rs:732-737 | for the outputs of a valid chain it is |
| `MempoolSync.DropIsGreatest` | src/new_index/mempool.rs:732-805 | so what remains of every batch is the greatest part of it that can be added |
| `MempoolSync.LostIsExact` | src/new_index/mempool.rs:420-440 | the lost transactions are exactly those in no part that can be added |
| `MempoolSync.GreatestIff` | src/new_index/mempool.rs:580-594 | for any found outputs, what remains is the greatest such part if and only if children of lost transactions are lost |
| `MempoolSync.DropReplaced` | src/new_index/mempool.rs:762-779 | removes exactly the transitive descendants of replaced transactions, and terminates |
| `MempoolSync.AddFetched` | src/new_index/mempool.rs:782-810 | if the batch cannot be added, the second attempt on the remainder always succeeds |
| `MempoolSync.AddMissing` | src/new_index/mempool.rs:402-411 | a broadcast adds everything that is new, or nothing |
| `MempoolSync.AlwaysInStep` | src/new_index/mempool.rs:369-822 | in every run of one updater and any broadcasters, each step changing the maps as its method does, the maps stay in step and no lookup of an eviction misses |
| `BlockTemplate.FetchValidTemplate` | src/new_index/block_template.rs:164-185 | at most two daemon calls, the second exactly after a first that is behind the tip; it succeeds exactly if the last one fits the tip probed after its call |
| `BlockTemplate.KeptFits` | src/new_index/block_template.rs:137-162 | what is kept is exactly what is current for, or ahead of, the tip; what is retried is exactly what is behind it |
| `BlockTemplate.AttemptedIs` | src/new_index/block_template.rs:164-185 | a worker's calls in the machine are those of the fetch loop |
| `BlockTemplate.StepKeepsInv` | src/new_index/block_template.rs:228-321 | every step of requests and workers keeps the cache entry and workers in step |
| `BlockTemplate.OneFetchTwoCalls` | src/new_index/block_template.rs:242-300 | in every run at most one worker fetches, with at most two daemon calls |
| `BlockTemplate.ServedFits` | src/new_index/block_template.rs:86-104 | in every run a template served from the cache is current for the tip probed for that request, or ahead of it and validated against that very tip; a worker stored it less than the time to live before the request |
| `BlockTemplate.AskIs` | src/new_index/block_template.rs:238-256 | a request gets the cached template exactly if that is young enough and fits the tip, without a fetch; is refused exactly while backing off; joins the fetch under way; and only otherwise starts one |
| `BlockTemplate.RefusedAfterFailure` | src/new_index/block_template.rs:245-249 | in every run a request is refused only within the backoff after a worker stored a failure |
| `BlockTemplate.CompletedStored` | src/new_index/block_template.rs:187-197 | in every run a request that waited to the end has the outcome that the worker it waited for stored |
| `BlockTemplate.RankFalls` | src/new_index/block_template.rs:242-300 | every action of a worker lowers its rank, no other action touches it |
| `BlockTemplate.WaitIsBounded` | src/new_index/block_template.rs:187-197 | in every run a waiting request can receive after at most four actions of its worker, which until then always has one to take |
| `BlockTemplate.DeadFetchIsCleared` | src/new_index/block_template.rs:302-318 | an entry left by a dead worker is cleared by whoever asks next, and the request after that fetches anew |
| `BlkFiles.ParseBlocks` | src/new_index/fetch.rs:295-336 | the scanning loop finds what the scan defines, or fails for a missing size |
| `BlkFiles.FileReadsBack` | src/new_index/fetch.rs:295-336 | scanning a written file yields exactly its bodies in order, whatever they contain, if and only if no block comes after an abandoned header that announces more than the rest of the file; otherwise exactly the bodies before it |
| `BlkFiles.SizeReadsBack` | src/new_index/fetch.rs:311-311 | four bytes, least significant first, read back as the number they were written from |
| `BlkFiles.SizeMissing` | src/new_index/fetch.rs:311-311 | a file that ends in a magic without all of its size is an error |
| `BlkFiles.ScanIsWellPlaced` | src/new_index/fetch.rs:295-336 | on every input slices are in bounds, disjoint, in order, and follow a magic and their size |
| `BlkFiles.CutLosesBlocks` | src/new_index/fetch.rs:311-318 | a block after such a header is lost |
| `BlkFiles.AbandonedReadAsBody` | src/new_index/fetch.rs:320-334 | an abandoned header whose size fits, followed by four bytes other than the magic, is read as a block |
| `BlkFiles.ApplyXorKey` | src/new_index/fetch.rs:261-265 | xors every byte with the key byte at its position modulo eight, in place |
| `BlkFiles.ApplyXorKeyTwice` | src/new_index/fetch.rs:261-265 | applying the key twice restores the file |
| `FeeHistogram.MakeFeeHistogram` | src/util/fees.rs:52-71 | every rate is one some entry pays, and rates fall strictly; every bin but the last is over-full, and none before its own rate; each running total is the size paying at least that rate; total size is conserved |
| `FeeHistogram.BinsOf` | src/util/fees.rs:58-70 | the binning loop over sorted entries gives such a histogram |

## Left out

- Sockets, HTTP and JSON text, configuration, metrics, logging, peer discovery and subscriptions: plumbing over libraries that are not part of this model.
- RocksDB internals: the database is an ordered map. Values are kept for confirmations alone; batches, flushes and undo markers are not.
- SHA-256, script and transaction parsing: hashes, ids and outputs are parameters.
- The reorg cleanup's own bookkeeping (undo markers, deferred undo, rewriting of shared rows): the model has a step that may change rows above the header list and forgets checkpoints, exclusive with calls.
- Liquid/Elements variants and asset statistics: the same scans with more cases.
- `send_notification`: a short member of the same kind as those modelled.
- Reading only, `Mempool`'s `utxo`, `stats` and recent transactions, and backlog statistics: filters over the maps proved in step.
- `ExpiryQueue` (a heap of connection deadlines with an occasional compaction), `read_bounded_line` (a line reader with a length cap), and the counters that cap subscriptions and connections: each is one small loop or counter.
- Mempool transactions with a coinbase input: the daemon has none, so `Mempool.Genuine` excludes them.
- The chain's outputs are one fixed set during a mempool batch; a block indexed between the two lookups of a retry is not modelled.
- A transaction's sorted, deduplicated list of script hashes is a set, and map iteration order is arbitrary.
- Sums of fees, values and batch error sizes are unbounded; the source's 64-bit sums and checked additions are not modelled.
- Rounding of floating-point fee rates.
- `CheckpointRuns` follows one script; other scripts' rows do not interact.
- FeeHistogram.MakeFeeHistogram: rates are compared exactly, so nothing is said of the source's incomparable floating-point rates.
