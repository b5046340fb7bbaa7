# Verified models of the CBDC workload generator and of the affinity-set pipeline

Two parts of the repository are modelled in Dafny and proved to do what they are for.

**The CBDC workload generator** (`cbdc/benchmark_workload.cpp`). It mints coins, shuffles a list in which every
wallet appears a fixed number of times, and carves transfers out of that list with a circular cursor, while it
keeps a ledger of the values expected at the end. The published contract is that executing all transfers from the
minted wallets leads to that ledger. `Machine.dfy` states what one pick does; `At(p, order, k)` is the state after
`k` steps when shuffling turned the list into `order`, so that every lemma about it speaks of every reachable state
of every run, for every seed. `Generator.dfy` holds the class with its fields and loops, proved to end in the
machine's final state. `Ledgers.dfy` is an independent ledger that executes coin movements one at a time, refuses
to overdraw a coin or to overflow 32 bits, and knows nothing of generation.

**The pipeline of `affinity_sets_generic`**. Keys are printed by one stage and parsed by the next, an affinity
function decides which keys are kept together, and clients publish how many data parts there are. The model
composes the stages, and follows the store over any sequence of client setups.

| files | about |
|---|---|
| `Common`, `Workload` | widths, arithmetic; parameters, coins, transfers, minted ledger |
| `Machine`, `Events`, `Invariants` | the generator step by step; accounting of wallets, shapes, the list and the cursor |
| `Ledgers`, `Accounts`, `Schedules`, `Contract` | the reference ledger, conservation, schedule independence, the contract |
| `Completion`, `Funds`, `Chunking`, `Abandonment` | how many transfers complete, which coin pays, when funds run out, plain chunking, which parameters let a run abandon a transfer |
| `Generator` | the class: `generate`, `to_file`, `from_file` |
| `Text`, `FileFormat`, `FileLoops`, `RoundTrip`, `GeneratedFiles`, `FileLayout` | the workload file, character by character and line by line |
| `DocumentedRun` | the example of the documentation, from the first pick to the last line of its file |
| `PipelineKeys`, `Affinity`, `Setup`, `SetupRuns`, `Observers` | keys, affinity sets, setup, the observers |

Throughout, `w`, `c`, `t`, `s`, `r`, `n = s + r` stand for wallets, coins per wallet, transfers per wallet, senders,
receivers and wallets per transfer, and the price is `transfer_value * r` truncated to 32 bits.

Four results say that something the code or its documentation suggests does not hold, and when it does:

- The ledger is not the outcome of the transfers when a transfer is abandoned: its debits and credits stay in the
  ledger. `Contract.ContractHoldsExactly` says so run by run, and `Abandonment.EveryShuffleKeepsContract` says for
  which parameters no shuffle can get there: those with `s = 0`, with price 0, or whose `w`, `t` and `n` fix the
  number of transfers. `Contract.ContractBroken` is a run that gets there. Like all runs here it is a run of the scan
  as it is intended; the literal comparison, on that input, meets an erased iterator and need not give up.
- A client whose node id is 2^31 or more is never answered, because the return observer parses the id as an `int`
  (`PipelineKeys.PipelineRoundTrip`).
- A client that asks for another part size but fewer parts leaves parts of the old size below the published count
  (`SetupRuns.MixedSizes`, `SetupRuns.UniformExactly`).
- A client that starts while another one has published its part size but not yet its count puts a part with index -1
  (`SetupRuns.HalfConfigured`).

One place of the code cannot be taken literally. The scan for a free wallet is meant to give up when it is back at
`started` (lines 58, 69 and 123 of `cbdc/benchmark_workload.cpp`), but the entry that `started` refers to has been
erased by the first pick, so the comparison is with an invalid iterator. The model takes the intent: a scan gives up
after one full circle in which it saw only wallets that are picked already. `Completion.TransferCompletes` says
exactly which transfers get there, and `Abandonment.SomeShuffleAbandons` for which parameters there are such
transfers at all, so that the comparison can be decisive.

## Model

| member | source | states |
|---|---|---|
| Schedules.AnyInterleaving | cbdc/benchmark_workload.cpp:52-159 | in every reachable state, the coin movements of all transfers, in any order and interleaved at will, execute on the reference ledger without overdraft or overflow and reach the generator's ledger; so does any part of them, without the last |
| Schedules.AnySchedule | cbdc/benchmark_workload.cpp:52-159 | the same for whole transfers: any order of them reaches the ledger, any selection in any order executes |
| Schedules.ExpectedValues | cbdc/README.md:60-66 | the published contract: a run that ends between transfers publishes what executing its transfers, in any order, leads to |
| Contract.ContractHoldsExactly | cbdc/benchmark_workload.cpp:86-96 | a run that does not fail publishes what every wallet holds after its transfers if and only if it abandons none, or has no senders, or the price is 0; the maps are equal in the first two cases, and at price 0 they agree up to positions of value zero |
| Abandonment.SomeShuffleAbandons | cbdc/benchmark_workload.cpp:52-159 | for parameters with sufficient funds, some shuffle abandons a transfer if and only if the fewest transfers, `max(t, ceil((w - n + 1) * t / n))` (0 if `w < n`), are less than `floor(w * t / n)` |
| Abandonment.EveryShuffleKeepsContract | cbdc/README.md:60-66 | for parameters with sufficient funds, every shuffle keeps the published contract if and only if `s = 0`, or the price is 0, or the fewest transfers are also the most |
| Abandonment.ContractKept | cbdc/benchmark_workload.cpp:52-159 | whatever the funds, a run that does not fail keeps the contract under that condition |
| Abandonment.AbandonmentNeeds | cbdc/benchmark_workload.cpp:52-159 | whatever the funds, a run abandons a transfer only if the fewest transfers are less than the most |
| Abandonment.AttainableExactly | cbdc/benchmark_workload.cpp:40-159 | for parameters with sufficient funds, exactly which numbers of transfers some shuffle leads to: all from the fewest to the most, or only 0 if `w < n` |
| Abandonment.FundsSufficeExactly | cbdc/benchmark_workload.cpp:98-100 | the condition for sufficient funds holds if and only if no shuffle fails, and whenever a wallet can afford `t` sends |
| Contract.ContractBroken | cbdc/benchmark_workload.cpp:108-110 | a concrete run of the scan as intended whose ledger is not the outcome of its transfers |
| Schedules.Replays | cbdc/benchmark_workload.cpp:86-96 | after every step the ledger equals the in-order replay of the emitted transfers and the partial one on the minted coins; no 32-bit operation wraps |
| Schedules.LedgerKeys | cbdc/benchmark_workload.cpp:137-148 | the ledger's keys are exactly the minted positions and the credited ones |
| Schedules.Provenance | cbdc/benchmark_workload.cpp:83-96 | own coins are only debited, foreign coins only credited, so what is received is never sent on |
| Schedules.CoinConservation | cbdc/benchmark_workload.cpp:135-148 | after every step, a coin's value over all wallets plus what is paid but not paid out is its initial value, exactly |
| Schedules.HeldAtMost | cbdc/benchmark_workload.cpp:145-145 | no position of the ledger ever exceeds the initial coin value |
| Contract.CoinKept | cbdc/benchmark_workload.cpp:50-50 | over a complete run a coin keeps its value if and only if it is never spent or the price divides evenly among the receivers |
| Contract.TransferBalance | cbdc/benchmark_workload.cpp:138-148 | what an emitted transfer takes from and pays out of each coin; equal when the price is not truncated |
| Contract.NoTruncation | cbdc/benchmark_workload.cpp:50-50 | when `v * r` fits 32 bits, each receiver gets the transfer value and the sender pays the sum |
| Contract.PriceWraps | cbdc/benchmark_workload.cpp:50-50 | the price differs from `v * r` by a multiple of 2^32 and fits 32 bits; the receivers get it in equal parts but for a rest smaller than their number |
| Completion.TransferCompletes | cbdc/benchmark_workload.cpp:52-158 | a transfer whose senders can pay is emitted after `n + 1` steps if the entries left name at least `n` wallets, and is abandoned otherwise |
| Completion.EnoughEntries | cbdc/benchmark_workload.cpp:52-81 | more than `(n - 1) * t` entries always name at least `n` wallets |
| Completion.CompletionBound | cbdc/benchmark_workload.cpp:40-159 | every run that does not fail emits between `max(t, ceil((w - n + 1) * t / n))` and `floor(w * t / n)` transfers, and none if `w < n` |
| Completion.CompleteMeansMost | cbdc/benchmark_workload.cpp:52-159 | a run that does not fail ends between transfers if and only if it has emitted `floor(w * t / n)` of them |
| Completion.AbandonedEmitsRounds | cbdc/benchmark_workload.cpp:52-159 | with `w >= n`, a run that abandons a transfer has emitted at least `t` before |
| Completion.SingleRound | cbdc/benchmark_workload.cpp:40-159 | with one appearance per wallet nothing is abandoned and exactly `floor(w / n)` transfers are emitted |
| Completion.StopReasons | cbdc/benchmark_workload.cpp:52-110 | why a run stops: too few entries between transfers, no free entry inside one, or a free sender without a coin that is worth the price |
| Completion.LeftOver | cbdc/benchmark_workload.cpp:52-79 | how many entries a run can leave unused |
| Funds.WhichCoin | cbdc/benchmark_workload.cpp:83-96 | first fit in closed form: a send with `k` earlier sends of the same wallet spends coin `k / (initial / price)` of that wallet |
| Funds.OwnCoins | cbdc/benchmark_workload.cpp:83-96 | what is left of every own coin depends only on the number of sends, and no wallet sends more often than it can afford |
| Funds.FailsExactly | cbdc/benchmark_workload.cpp:98-100 | "Not enough funds" is thrown exactly when the next sender has sent `c * (initial / price)` times |
| Funds.NeverFails | cbdc/benchmark_workload.cpp:98-100 | if a wallet can afford `t` sends, no run fails |
| Chunking.SomeShuffleFails | cbdc/benchmark_workload.cpp:98-100 | some shuffle fails if and only if there are senders, enough entries for a transfer, and a wallet cannot afford the last send it may be picked for |
| Chunking.GreedyFails | cbdc/benchmark_workload.cpp:98-100 | the shuffle that lets wallet 0 send in every transfer fails whenever it can |
| Chunking.SingleRoundChunks | cbdc/benchmark_workload.cpp:51-159 | for `t = 1` the list, cursor and erase machinery is plain chunking of the shuffled list, senders first |
| Chunking.TransfersAreChunks | cbdc/benchmark_workload.cpp:51-159 | the same for any `t`, as long as the chunks name no wallet twice |
| Invariants.OccurrenceAccounting | cbdc/benchmark_workload.cpp:40-46 | for every wallet, after every step: appearances in emitted transfers, in the partial one and in the list are together exactly `t` |
| Invariants.Shapes | cbdc/benchmark_workload.cpp:54-158 | every emitted transfer has `s` senders with one own coin each and `r` receivers that list the senders' coins in order, all wallets distinct |
| Invariants.CoinsOfTransfer | cbdc/benchmark_workload.cpp:86-153 | coin by coin: each sender sends one coin of its own for the price, and each receiver gets the `r`-th part of each sender's coin, in the senders' order |
| Invariants.StaysSubsequence | cbdc/benchmark_workload.cpp:102-102 | the list stays a subsequence of the shuffled one |
| Invariants.CursorAfterPick | cbdc/benchmark_workload.cpp:102-105 | after a pick the scan goes on at the first remaining entry behind the picked one in the shuffled order, or at the first of all |
| Machine.FirstFree | cbdc/benchmark_workload.cpp:60-75 | the scan returns the first free entry in circular order from the cursor, and gives up only if there is none |
| Machine.ScanFinds | cbdc/benchmark_workload.cpp:60-75 | a scan gives up if and only if every entry left is picked |
| Machine.FirstFit | cbdc/benchmark_workload.cpp:86-96 | the first coin that is worth the price, or none if no coin is |
| Machine.FuelBound | cbdc/benchmark_workload.cpp:52-159 | every step uses up one of at most `2 * w * t + 1` steps |
| Machine.Terminates | cbdc/benchmark_workload.cpp:52-159 | every run stops |
| Events.EventOf | cbdc/benchmark_workload.cpp:52-158 | every step is one of seven events with its cause and effect |
| Generator.Scan | cbdc/benchmark_workload.cpp:61-75 | the loop finds what the scan is meant to find; the cursor is always at an entry |
| Generator.CBDCBenchmarkWorkload.constructor | cbdc/benchmark_workload.hpp:43-59 | a new workload has its parameters and nothing generated |
| Generator.CBDCBenchmarkWorkload.MintCoins | cbdc/benchmark_workload.cpp:27-34 | the loops mint wallets `0..w-1` with consecutive coin ids, and the ledger of their initial values |
| Generator.CBDCBenchmarkWorkload.ListWallets | cbdc/benchmark_workload.cpp:37-44 | the list of all wallets, each as often as it is used |
| Generator.CBDCBenchmarkWorkload.FindCoin | cbdc/benchmark_workload.cpp:85-96 | the loop over a sender's coins is first fit; without coins it leaves an empty wallet behind |
| Generator.CBDCBenchmarkWorkload.PayReceiver | cbdc/benchmark_workload.cpp:137-147 | the nested loops credit the receiver with its part of every sent coin, and list these parts in order |
| Generator.CBDCBenchmarkWorkload.PickSenders | cbdc/benchmark_workload.cpp:57-106 | the sender loop follows the machine, in all three outcomes |
| Generator.CBDCBenchmarkWorkload.PickReceivers | cbdc/benchmark_workload.cpp:112-154 | the receiver loop follows the machine |
| Generator.CBDCBenchmarkWorkload.Generate | cbdc/benchmark_workload.cpp:16-162 | `generate` ends with the transfers and ledger of the machine's final state, fails exactly if that ran out of funds, and does nothing the second time |
| Generator.CBDCBenchmarkWorkload.ToFile | cbdc/benchmark_workload.cpp:164-209 | `to_file` generates if need be and writes exactly the specified text |
| Generator.CBDCBenchmarkWorkload.FromFile | cbdc/benchmark_workload.cpp:211-293 | `from_file` builds exactly the workload that the specified reading of the text yields |
| FileLoops.ExtractWallets | cbdc/benchmark_workload.cpp:230-240 | the wallet loops read `w * c` lines and push each coin to its wallet |
| FileLoops.ExtractTransfers | cbdc/benchmark_workload.cpp:242-279 | the transfer loops read `s` senders and `r` receivers per transfer |
| FileLoops.WalletLines | cbdc/benchmark_workload.cpp:174-180 | the wallet loops print one line per coin, wallets in ascending order |
| FileLoops.TransferLines | cbdc/benchmark_workload.cpp:182-201 | one line per transfer, senders first |
| FileLoops.LedgerLines | cbdc/benchmark_workload.cpp:203-206 | one line per ledger position, in ascending order |
| RoundTrip.FileRoundTrip | cbdc/benchmark_workload.cpp:164-293 | a workload survives printing and parsing, with no number left unread, if and only if it has the shape that its parameters announce |
| RoundTrip.ReadsShaped | cbdc/benchmark_workload.cpp:225-289 | whatever a file says, what is read has the shape that its first line announces |
| RoundTrip.ReadsFit | cbdc/benchmark_workload.cpp:211-293 | whatever a file says, what is read fits the widths of its fields |
| RoundTrip.LoadedFileRoundTrip | cbdc/benchmark_workload.cpp:164-293 | every workload that has been loaded survives being saved and loaded again |
| GeneratedFiles.GeneratedFileRoundTrip | cbdc/benchmark_workload.cpp:164-293 | every generated workload survives its file: parameters, wallets with coin order, transfers and expected values |
| GeneratedFiles.GeneratedShaped | cbdc/benchmark_workload.cpp:52-158 | what a run ends with has the shape that the file format relies on |
| DocumentedRun.DocumentedFile | cbdc/README.md:33-57 | the documented run `-w 4`: for the order 3, 1, 0, 2 it ends with the documented transfers and ledger, and its file is the documented one, to the letter |
| FileLayout.LinesOfFile | cbdc/benchmark_workload.cpp:171-206 | every file is its header line, one line for each coin, one for each transfer and one for each ledger position, in ascending order, with exactly these numbers and blanks on each |
| FileLayout.RowsRead | cbdc/benchmark_workload.cpp:225-289 | any rows are read, if there are as many as announced: wallets collect what is pushed, the ledger what is put, and reading stops behind them |
| FileLayout.ScatteredRows | cbdc/benchmark_workload.cpp:230-240 | a wallet gets the coins of its rows in their order, wherever the rows are |
| FileLayout.LastRowCounts | cbdc/benchmark_workload.cpp:282-289 | of several ledger rows for one position the last one counts |
| Text.TokensOfRender | cbdc/benchmark_workload.cpp:172-206 | numbers that are printed with separators are read back in order |
| Text.DecimalSpelled | cbdc/benchmark_workload.cpp:172-205 | the numeral printed for `n`: digit `j` from the right is the character '0' plus `n / 10^j % 10`, and there are no leading zeros |
| Text.DigitsRead | cbdc/benchmark_workload.cpp:225-289 | any string of digits is read as the number it stands for, up to the next other character |
| Text.OtherCharacters | cbdc/benchmark_workload.cpp:225-289 | of the characters that are not digits, exactly the six of white space are skipped, and any other ends the reading |
| PipelineKeys.PipelineRoundTrip | affinity_sets_generic/return_udl.cpp:49-65 | client key, entry rewrite, category rewrite and return parse together give back category, object and client, exactly when all three are in the range of `int` |
| PipelineKeys.KeysInjective | affinity_sets_generic/pipeline_client.cpp:169-169 | different requests have different keys at every stage |
| PipelineKeys.RequestIsNotData | affinity_sets_generic/entry_udl.cpp:24-24 | no request key is taken for entry data |
| PipelineKeys.EntryIgnores | affinity_sets_generic/entry_udl.cpp:24-24 | the entry observer puts nothing for a key if and only if the key is `/entry/data` followed by anything |
| Observers.EntryDataIgnored | affinity_sets_generic/entry_udl.cpp:24-24 | the entry observer puts nothing for any part of the entry data |
| PipelineKeys.KeysSpelled | affinity_sets_generic/common.hpp:22-37 | how the keys of the stages read, to the letter |
| PipelineKeys.CutAtFirst | affinity_sets_generic/category_udl.cpp:22-25 | a text is cut at its first separator; without one both parts are the whole text |
| PipelineKeys.StoIReads | affinity_sets_generic/return_udl.cpp:52-65 | what `std::stoi` makes of white space, a sign, digits and anything behind them, and when it throws |
| PipelineKeys.StoIThrows | affinity_sets_generic/return_udl.cpp:52-65 | it throws on every text that does not look like that |
| PipelineKeys.CategoryStage | affinity_sets_generic/category_udl.cpp:22-62 | the category observer turns the new key of a category and object into their output key |
| Affinity.CoLocation | affinity_sets_generic/common.hpp:59-127 | under logics 1 and 2 the new, data and output keys of a category share an affinity key, and no two categories do |
| Affinity.AffinityExactly | affinity_sets_generic/common.hpp:59-127 | exactly which keys have a given category as their affinity key; the character after `/new`, `/output` or `/data` is not looked at |
| Affinity.AffinityIdempotent | affinity_sets_generic/common.hpp:59-127 | both logics are idempotent, map no key to the empty key, and agree outside the entry path |
| Affinity.EntryAffinity | affinity_sets_generic/common.hpp:61-96 | requests and entry data share one affinity key under logic 1 and keep their own under logic 2 |
| Affinity.EntrySetApart | affinity_sets_generic/common.hpp:59-96 | under logic 1 requests and entry data share a set that no new, output or data key of any category and no config key belongs to |
| Affinity.EntryPathAffinity | affinity_sets_generic/common.hpp:61-61 | all keys under the entry path share one set under logic 1 and keep their own under logic 2 |
| Setup.RunSetup | affinity_sets_generic/pipeline_client.cpp:92-145 | `setup` puts exactly the specified sequence of objects into the store it finds |
| SetupRuns.PartsPut | affinity_sets_generic/pipeline_client.cpp:92-145 | for every integer index: a client whose part size is published puts the parts from the published count on, any other client all of its parts, each once and with its size |
| SetupRuns.OtherCategories | affinity_sets_generic/pipeline_client.cpp:140-145 | nothing is put for a category that the deployment does not have |
| SetupRuns.ConfigPutsCount | affinity_sets_generic/pipeline_client.cpp:94-128 | a size is published exactly if it is new, a count exactly if it is larger for the same size or the store is empty, and the client's own address always |
| SetupRuns.PutsInOrder | affinity_sets_generic/pipeline_client.cpp:95-145 | one setup publishes before it puts parts, and puts the parts in ascending order, category by category |
| SetupRuns.OwnParts | affinity_sets_generic/pipeline_client.cpp:92-145 | after a setup of a consistent store all parts of the client are there with its size; with a size other than the published one it has put exactly these |
| SetupRuns.OwnPartsExactly | affinity_sets_generic/pipeline_client.cpp:92-145 | in any configured store, exactly which of its own parts a client finds with its size |
| SetupRuns.HalfConfigured | affinity_sets_generic/pipeline_client.cpp:94-137 | what a client does that starts in the middle of the setup of another one |
| SetupRuns.PublishedAfter | affinity_sets_generic/pipeline_client.cpp:92-127 | what a setup publishes, given what was published |
| SetupRuns.PublishedPartsExist | affinity_sets_generic/pipeline_client.cpp:92-145 | after any sequence of setups every part below the published count is in the store, for entry and every category |
| SetupRuns.OneSizeOnePut | affinity_sets_generic/pipeline_client.cpp:101-145 | with one part size the published count is the largest requested, and over the whole run exactly the parts below it are put, once each, from 0 or from the first client's negative request on |
| SetupRuns.LargestIsMaximum | affinity_sets_generic/pipeline_client.cpp:101-113 | the count that such a run publishes is the maximum of the requested ones |
| SetupRuns.UniformExactly | affinity_sets_generic/pipeline_client.cpp:111-113 | parts and published size stay consistent if and only if the size is kept or the client puts at least the published number of parts |
| SetupRuns.MixedSizes | affinity_sets_generic/pipeline_client.cpp:111-113 | two concrete clients after which they are not: part 0 has the new size and part 1 the old one |
| SetupRuns.NamesDistinct | affinity_sets_generic/common.hpp:22-38 | all config, part and address keys are different, and exactly the config keys are under the config path |
| SetupRuns.NamesSpelled | affinity_sets_generic/common.hpp:28-33 | how the config, address and part keys read, to the letter |
| Observers.HashParts | affinity_sets_generic/entry_udl.cpp:32-55 | the fetch and hash loops return the object's own hash plus the sum of the hashes of all published parts, modulo 2^64 |
| Observers.TotalLaws | affinity_sets_generic/entry_udl.cpp:53-55 | the total of these hashes is their sum: 0 for none, the hash itself for one, and additive |
| Observers.NothingPublished | affinity_sets_generic/entry_udl.cpp:32-39 | as long as no count is published no part is asked for or hashed |
| Observers.EntryObserver | affinity_sets_generic/entry_udl.cpp:24-65 | keys that begin with `/entry/data` are ignored; any other is rewritten for the category that is the remainder of the request's hash plus those of the published entry parts |
| Observers.CategoryObserver | affinity_sets_generic/category_udl.cpp:21-68 | for any first segment as the category: the output key, and as result the object's hash plus those of the parts published for it, modulo 2^64 |
| Observers.AddressPublished | affinity_sets_generic/pipeline_client.cpp:128-128 | the store holds the address that each client's last setup published |
| Observers.EndToEnd | affinity_sets_generic/entry_udl.cpp:32-60 | after any setups, a request finds every part it needs at both stages and arrives as its own category, object and client, with the client's address on file |

## Left out

- The Mersenne Twister and `std::shuffle`: the shuffled list is a parameter, any permutation of the list.
- The literal comparison with the erased iterator `started`: it has no defined outcome; see above for what is modelled.
- 64-bit wrap-around of wallet ids, coin ids, counters and `s + r`: they are unbounded here, since a run that reaches it cannot fit in memory. Coin values and the price are 32 bits wide, and the file's numbers have the widths of their fields.
- Parameters with `s + r = 0`: `generate` would emit empty transfers for ever.
- gzip streams and file handles: a file is a string.
- Generator.CBDCBenchmarkWorkload.FromFile: a stream on which an extraction fails yields no workload, because the original goes on with indeterminate values; nor does a file with a signed number, which `operator>>` accepts for unsigned fields.
- Abandonment.SomeShuffleAbandons: supposes sufficient funds, and so do `EveryShuffleKeepsContract` and `AttainableExactly`. Without them whether a run comes to abandon a transfer depends on who sends, and only one direction is stated, by `AbandonmentNeeds` and `ContractKept`.
- GeneratedFiles.GeneratedFileRoundTrip: supposes that coins, transfers and ledger positions can be counted in 64 bits, as they are in the program.
- PipelineKeys.PipelineRoundTrip: the slots that the return observer fills one by one are the fields of one result here, and the node id it adds is left out.
- The loop of `benchmark` that sends the requests: only the key of each request is modelled.
- Machine.Terminates: is about the scan as intended; with the erased iterator a scan without a free entry need not end.
- `cbdc/generate_workload.cpp`: option parsing and console output.
- Cascade itself: `put` and `get` act on one map, each `setup` is atomic, and the prefix length of an observer ends behind the slash after its path. Of setups that overlap only the start is modelled (`HalfConfigured`).
- Signed overflow when two clients ask for part counts more than 2^31 apart.
- UDP notification, sockets, time stamps, sleeping, CPU affinity, object pools and the random contents of objects; a content hash is an arbitrary number.
- AFFINITY_LOGIC 0, which is the identity.
- `multishard_tx`, `multiple_object` and the other test clients and scripts of the repository.
