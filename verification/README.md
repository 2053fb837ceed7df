# Verified model of the federation-migration wallet

A wallet application keeps a shared wallet per user under a federation of HSM signers, on Bitcoin and on Elements
(Liquid). When the federation changes, a migration tool sweeps every account from its old-federation address to its
new one. This project models, in Dafny, the four stateful protocols around that and proves what they do over whole
runs. The calls the source makes into other crates (sweep planner, PSBT/PSET builders, BDK, block-scan engine,
HSM) are parameters with stated contracts.

| files | protocol |
|---|---|
| `Ledger`, `SweepPlan`, `ChainedSweep` | the UTXO ledger, the plan, and what a chain of sweep broadcasts does to both |
| `ElementsMigration`, `ElementsRuns`, `ElementsFinish`, `ElementsEnact`, `ElementsExample` | the batched Elements executor: ledger, when it stops and finishes, owners and txids |
| `ElementsSingle`, `SingleEnact` | the account-for-account Elements executor |
| `BitcoinMigration`, `BitcoinRuns`, `BitcoinFinish`, `BitcoinEnact`, `BitcoinExample` | the Bitcoin executor |
| `SweepTxids` | the sweep txid recorded for each account, shared by both |
| `ScopedSigning` | index-scoped signing of a shared PSET or PSBT, in place |
| `ElementsSync`, `ScanDriver` | the UTXO, block and checkpoint stores, and the per-block driver over them |
| `FederationVersions`, `MigrationStatus` | the version table and its status machine |
| `WalletSync`, `Reconciliation`, `ReorgSync`, `SyncHistory` | sync, the persisted changeset, reorg reconciliation, histories of syncs |
| `WalletLoad` | self-heal on load |
| `Accounting`, `AddressHistory`, `Sorting` | balances, asset tabs, address history |

How it is built. Each executor is a method proved equal to a function of its inputs (`RunTo`, `Execute`, `Single`);
the theorems are about that function, for every plan and every way the environment can fail. The stores and tables
are classes whose methods state their whole new state. A transaction id is the transaction under an injective
constructor (`Ledger.Txid`), the ideal of a collision-free hash: that a broadcast's outputs were unknown before is a
theorem about sound ledgers (`Ledger.SpendKeepsSound`), not an assumption. Both executors are shown to deliver, step
by step, what `ChainedSweep.Delivers` asks, and the whole-run theorems are proved once, there. The hypotheses on
accounts, plan and builder are named predicates (`GoodAccounts`, `GoodPlan`, `BuilderContract`, `TrueInputs`);
`ElementsExample` and `BitcoinExample` show that they can be met together.

Where the code and what is written about it differ, the model follows the code:

- `migrations/0006_migration_status.sql` says an older version passes through `in_progress`; no code ever sets that
  status, and `MigrationStatus.RowOk` proves no run does.
- The Bitcoin form of scoped signing returns on a signing error before it restores the other inputs' derivation maps
  (`ScopedSigning.SignMigrationInputs`).
- The Elements load goes back to the base blinding key once the row has been healed (`WalletLoad.KeyStableIff`).
- A rebuild of version wallets in a sync that then fails is not remembered. The next completed sync reconciles only if
  it rebuilds a wallet itself, which it does not when every wallet, the primary one too, now holds no block of the
  abandoned branch; a sweep gone with that branch then stays recorded as complete (`SyncHistory.ForgottenRebuild`).
  `SyncHistory.SweepsPresentIff` says over which histories no vanished sweep is missed, and
  `SyncHistory.OwedAfterCompleted` how to tell before a sync is made.
- A nodeless sync can revert a migration whose sweep is still on chain. It cannot exactly when no wallet holds an
  abandoned block, or some wallet watches an address the sweep pays or spends from, or some wallet that will not be
  rebuilt already has the sweep (`ReorgSync.KeptIffProtected`). Until an address has been revealed nothing is watched
  (`ReorgSync.FalseRevertWhenNothingRevealed`).
- Applying a different block over what an interrupted one left behind, without rolling back first, is right only
  under the condition in `ScanDriver.LeftoversIff`.
- The wallet lock is released between a rebuild and the replacement of the aggregate; a reveal persisted in between
  is lost when the rebuild had not revealed as far (`WalletSync.UserWallet.RevealDuringSync`).

## Model

| member | source | states |
|---|---|---|
| Ledger.SpendKeepsSound | examples/federation_migration.rs:1399-1411 | One accepted broadcast on a sound ledger: its outputs were unknown before, its inputs become spent, everything it does not name stays as it was, and the ledger stays sound. |
| Ledger.NoDoubleSpend | examples/federation_migration.rs:1312-1430 | Over any sequence of accepted broadcasts no outpoint is an input twice, and the spent set is exactly what was spent before plus the inputs. |
| ChainedSweep.NextProgress | examples/federation_migration.rs:1312-1430 | One more delivered sweep keeps the state of every account (wholly old or wholly new), of every fee coin and of the one live change of the chain. |
| ChainedSweep.CompleteLog | examples/federation_migration.rs:1312-1430 | A complete chain of sweeps has as inputs, once each, exactly the coins of the paid customers, the fee account's coins and every intermediate change. |
| ChainedSweep.CompleteLogConserves | examples/federation_migration.rs:1312-1430 | Per asset, each paid customer has received what it held and every other one nothing; the fee account has what it held less all fees, from the policy asset. |
| ChainedSweep.ProgressIsSafe | examples/federation_migration.rs:1312-1430 | Safety of every prefix: each customer wholly on one side, nothing at the fee account's new address before the final transaction, the rest of the chain and the unused fee coins unspent, and no receipt spent again. |
| ChainedSweep.OnlyPlannedCoinsSpent | examples/federation_migration.rs:1329-1389 | Nothing outside the plan is ever an input: every input is a planned account's coin or an intermediate change. |
| ElementsMigration.Gather | examples/federation_migration.rs:1324-1366 | The loop over one entry's outputs computes the inputs (each paid account's coins once), recipients, report and owner map of `Assemble`, or fails on an account that is not funded. |
| ElementsMigration.PushFeeInputs | examples/federation_migration.rs:1368-1388 | The fee account's inputs: what is left of its UTXOs plus the chained change in the final transaction, the chained change or the seed in every other; the seed flag is set exactly when the seed is taken. |
| ElementsMigration.Sweep | examples/federation_migration.rs:1312-1430 | The body of the loop computes `Step`: gather, build, sign, finalize, broadcast and capture, each failure leaving the variables as the source does. |
| ElementsMigration.RunBatched | examples/federation_migration.rs:1291-1430 | The batched executor's loop, stopping at the first failure, computes `Execute`: log of broadcasts, chained change, seed flag, error. |
| ElementsRuns.GatheredAccounts | examples/federation_migration.rs:1335-1366 | However many outputs an account has, its coins are gathered exactly once, and exactly the paid accounts' coins are gathered. |
| ElementsRuns.RecipientsAt | examples/federation_migration.rs:1343-1365 | The recipients pay each account's own destination exactly what the entry plans for that account, in every asset. |
| ElementsRuns.NextBalance | examples/federation_migration.rs:1324-1398 | What is handed to the builder balances in every non-policy asset and leaves the fee account's share over in the policy asset, so the builder's contract applies. |
| ElementsRuns.IntermediateFee | examples/federation_migration.rs:1413-1427 | An intermediate transaction pays the fee account's new address nothing, and its first output at the old address is the builder's change. |
| ElementsRuns.NextDelivers | examples/federation_migration.rs:1324-1411 | Each built and broadcast sweep delivers what the chained sweep asks: exact inputs, whole balances, the change where it belongs. |
| ElementsRuns.RunProgress | examples/federation_migration.rs:1309-1430 | After any number of entries, stopped or not: the account invariant; and while no error, a change is chained exactly between two transactions and the seed is used exactly when a non-final transaction has run. |
| ElementsRuns.NoOutpointSpentTwice | examples/federation_migration.rs:1309-1430 | For every well-formed plan of any length and every stopping point, no outpoint is spent twice over all broadcasts. |
| ElementsRuns.CompletedRun | examples/federation_migration.rs:1309-1430 | A run that finishes has broadcast every entry, chains nothing, and has spent once each exactly the planned accounts' coins and every intermediate change. |
| ElementsRuns.Conservation | examples/federation_migration.rs:1335-1427 | Per asset, every planned customer receives at its new address what it held; the fee account what it held less the sum of all fees, from the policy asset. |
| ElementsRuns.PrefixSafety | examples/federation_migration.rs:1312-1430 | Wherever the run stops the log is safe, and between the first and last transaction the live change is worth the seed less the fees so far. |
| ElementsFinish.BroadcastIff | examples/federation_migration.rs:1343-1411 | While a run has no error, an entry is broadcast if and only if every customer it pays is funded, there is something to spend, the builder builds, the transaction finalizes and the node accepts it; what is logged is the built transaction, and otherwise the log is unchanged. |
| ElementsFinish.StoppedIff | examples/federation_migration.rs:1291-1430 | For any plan, a run ends with an error exactly when the fee account is unknown or has no coins or some entry reached without error cannot be carried through, named by the first thing that went wrong; nothing is broadcast after that entry. |
| ElementsFinish.FinishesIff | examples/federation_migration.rs:1309-1430 | A run of a well-formed plan finishes, with every entry broadcast, if and only if every customer is funded, every build, finalization and broadcast succeeds and every change but the last is unblinded. |
| ElementsSingle.RunSingle | examples/federation_migration.rs:1431-1503 | The account-for-account branch computes `Single`: one transaction over every account's coins with the planned recipients. |
| ElementsSingle.SameInputs | examples/federation_migration.rs:1470-1484 | Its inputs are a permutation of those of the batched form on the same one-entry plan. |
| ElementsSingle.SingleConserves | examples/federation_migration.rs:1431-1503 | The single transaction spends every account's coins exactly once, gives each customer in every asset what it held and the fee account what it held less the fee. |
| SingleEnact.SingleIff | examples/federation_migration.rs:1431-1503 | The account-for-account form broadcasts if and only if there is a plan and a fee account and build, finalization and broadcast succeed; otherwise nothing, with the error of the first failure. |
| SingleEnact.SingleOwners | examples/federation_migration.rs:1470-1484 | Every input of the single transaction has as recorded owner the account that holds the coin. |
| SingleEnact.SingleHolderSigns | examples/federation_migration.rs:1247-1285 | With scoped signing every input of the single transaction gets exactly its holder's signatures. |
| SingleEnact.SingleReportIsPaid | examples/federation_migration.rs:1446-1469 | Its report names exactly the customers the entry pays. |
| SingleEnact.SingleRecorded | examples/federation_migration.rs:1512-1522 | Every customer is recorded with the single transaction's txid, which carries its whole balance; the fee account is not recorded. |
| SingleEnact.StampedWithSingle | examples/federation_migration.rs:1538-1575 | After it every older version of a customer's wallet is complete with that txid; the fee account's get a bare flip. |
| ElementsEnact.GatheredOwner | examples/federation_migration.rs:1354-1361 | The owner recorded for a gathered coin is the account that holds it, and only gathered coins have one. |
| ElementsEnact.OwnersAreHolders | examples/federation_migration.rs:1332-1389 | Every input of every broadcast of a run has its holder as recorded owner, the fee account for the chained change. |
| ElementsEnact.HolderSigns | examples/federation_migration.rs:1247-1285 | With scoped signing, every input of every broadcast of a run gets exactly its holder's signatures. |
| ElementsEnact.ReportIsPaid | examples/federation_migration.rs:1363-1364 | The report of an entry names exactly the customers it pays. |
| ElementsEnact.ReportAmounts | examples/federation_migration.rs:1363-1364 | The amounts reported for a customer add up to what the entry plans to pay it. |
| ElementsEnact.RecordedSweepPays | examples/federation_migration.rs:1512-1522 | An account has a recorded txid exactly when a broadcast paid it, it is the txid of a broadcast that carried its whole balance, and the fee account has none. |
| ElementsEnact.StampedWithPayingSweep | examples/federation_migration.rs:1538-1575 | After a finished run every older version of a paid customer's wallet is complete with the txid of a broadcast that carried its balance; the fee account's get a bare flip. |
| SweepTxids.Collect | examples/federation_migration.rs:1512-1522 | The nested loops over transactions and reports map each reported account to the last broadcast that reported it. |
| SweepTxids.RecordedSweepCarries | examples/federation_migration.rs:1512-1522 | For either executor and any prefix, the recorded txid of an account is that of the broadcast that carried its whole balance, present exactly when there is one. |
| BitcoinMigration.BuildOwners | examples/federation_migration.rs:2211-2226 | The owner map sends each captured UTXO to its account's wallet, the last wallet loaded for an account winning. |
| BitcoinMigration.CollectInputs | examples/federation_migration.rs:2305-2362 | Real sources with an owner become inputs described by their wallet, sources without one are passed over, a failed description stops the run; the signing wallet of every input is recorded. |
| BitcoinMigration.CollectOutputs | examples/federation_migration.rs:2382-2402 | An exact recipient per customer and a drain for any fee change, to the old address until the final transaction. |
| BitcoinMigration.FindChange | examples/federation_migration.rs:2498-2548 | The capture loop finds the first output at the fee account's old script, or none. |
| BitcoinMigration.Sweep | examples/federation_migration.rs:2289-2590 | The body of the loop computes `Step`, each failure leaving the variables as the source does; a change that cannot be rebuilt only leaves the kept data alone. |
| BitcoinMigration.RunPlan | examples/federation_migration.rs:2280-2590 | The executor's loop, stopping at the first failure, computes `RunTo`: log of broadcasts, fee-change data, error. |
| BitcoinMigration.FeeChangeOrigin | examples/federation_migration.rs:2280-2360 | For every plan, well formed or not: fee-change data was captured from a broadcast and has been neither consumed nor replaced since. |
| BitcoinMigration.NeverStale | examples/federation_migration.rs:2332-2344 | When every entry but the first carries a placeholder, the fee-change data before an entry is exactly the change captured from the broadcast just before it, or absent when that capture failed. |
| BitcoinMigration.ResolvedOrStopped | examples/federation_migration.rs:2332-2344 | A placeholder is resolved with the kept change or the run stops and broadcasts nothing more. |
| BitcoinRuns.ResolvedIsWanted | examples/federation_migration.rs:2305-2362 | For a well-formed plan the resolved inputs are, as a multiset, the paid customers' coins and the fee coins the entry names. |
| BitcoinRuns.IntermediateFee | examples/federation_migration.rs:2382-2402 | An intermediate transaction pays the fee account's new address nothing, and its first output at the old address is the drained change. |
| BitcoinRuns.NextDelivers | examples/federation_migration.rs:2289-2497 | Each built and broadcast transaction delivers what the chained sweep asks. |
| BitcoinRuns.RunProgress | examples/federation_migration.rs:2289-2590 | After any number of entries, stopped or not, the account invariant holds, with one broadcast per entry while there is no error. |
| BitcoinRuns.NoOutpointSpentTwice | examples/federation_migration.rs:2289-2590 | No outpoint is spent twice over all broadcasts of a run, however it ends. |
| BitcoinRuns.CompletedRun | examples/federation_migration.rs:2289-2590 | A finished run has broadcast every entry, keeps no fee change, and has spent once each exactly the planned accounts' coins and every intermediate change. |
| BitcoinRuns.Conservation | examples/federation_migration.rs:2289-2590 | Every planned customer receives what it held, the fee account what it held less all fees. |
| BitcoinRuns.PrefixSafety | examples/federation_migration.rs:2289-2590 | Wherever the run stops, the log is safe. |
| BitcoinFinish.BroadcastIff | examples/federation_migration.rs:2305-2497 | While a run has no error, an entry is broadcast if and only if its placeholder, if any, has a kept change, every owned source is described, the builder builds, the signers sign, the transaction finalizes and the node accepts it; otherwise the run ends there with the log unchanged. |
| BitcoinFinish.StoppedIff | examples/federation_migration.rs:2280-2590 | For any plan, a run ends with an error exactly when some entry reached without error cannot be carried through, named by the first thing that went wrong; nothing from that entry on is broadcast. |
| BitcoinFinish.ChangeKeptIff | examples/federation_migration.rs:2498-2548 | In a well-formed plan an entry after the first finds its fee change kept exactly when it could be rebuilt. |
| BitcoinFinish.FinishesIff | examples/federation_migration.rs:2280-2590 | A run of a well-formed plan finishes, with every entry broadcast, if and only if every source is described, every build, signature, finalization and broadcast succeeds and every change but the last is rebuilt. |
| BitcoinEnact.InputsHaveTheirWallet | examples/federation_migration.rs:2417-2434 | Every input of every broadcast has a signing wallet on record: its holder's, the fee account's for the chained change. |
| BitcoinEnact.ReportAmounts | examples/federation_migration.rs:2382-2402 | The amounts reported for a customer add up to what the entry plans to pay it. |
| BitcoinEnact.RecordedSweepPays | examples/federation_migration.rs:2556-2562 | The recorded txid of an account is that of the broadcast that carried its whole balance, present exactly when there is one; never for the fee account. |
| BitcoinEnact.StampedWithPayingSweep | examples/federation_migration.rs:2592-2617 | After a finished run every older version of a paid customer's wallet is complete with the txid of a broadcast that carried its balance; the fee account's get a bare flip. |
| ElementsExample.HypothesesCanBeMet | examples/federation_migration.rs:1291-1430 | The hypotheses of the Elements theorems hold together of a concrete two-transaction plan. |
| BitcoinExample.HypothesesCanBeMet | examples/federation_migration.rs:2211-2590 | The hypotheses of the Bitcoin theorems hold together of a concrete two-transaction plan. |
| ScopedSigning.SignIndices | src/elements_wallet.rs:1777-1794 | In place: the chosen inputs gain exactly this account's signatures, every other input and every derivation map is as before. |
| ScopedSigning.SignMigrationInputs | src/wallet.rs:1767-1794 | The Bitcoin form: the same on success; on a signing error the chosen inputs carry the signatures made so far and all others have lost their derivation maps. |
| ScopedSigning.SignScoped | examples/federation_migration.rs:1247-1285 | After all accounts, in whatever order the hash set yields them, every derivation map is unchanged and each input has gained exactly its owner's signatures. |
| ScopedSigning.GroupByWallet | examples/federation_migration.rs:2425-2432 | The input positions grouped by wallet: every input with a known wallet in that wallet's list and in no other. |
| ScopedSigning.SignByWallet | examples/federation_migration.rs:2434-2445 | All wallets in any order: when no signer fails, derivations unchanged and each input with exactly its wallet's signatures; it fails exactly when some signer fails. |
| ScopedSigning.NoForeignPath | src/elements_wallet.rs:1770-1776 | No signature an input gets is derived along another account's path. |
| ScopedSigning.UnscopedMisderives | src/elements_wallet.rs:1770-1776 | Without scoping, a second account showing the same fingerprint adds a signature along its own path to an input it does not own. |
| ElementsSync.PgWalletUtxoStore.UpsertUtxos | src/elements_sync.rs:365-416 | The statement loop computes `Upserted`: data and height taken from the last capture of a key, spent columns of existing rows kept. |
| ElementsSync.PgWalletUtxoStore.MarkSpent | src/elements_sync.rs:418-437 | Every row of a listed outpoint, in any wallet, is spent at the given height; all others unchanged. |
| ElementsSync.PgWalletUtxoStore.RollbackAbove | src/elements_sync.rs:493-512 | Rows above the height go, spends above it are undone, all else stays. |
| ElementsSync.PgWalletUtxoStore.ListUnspent | src/elements_sync.rs:439-473 | Exactly the unspent rows of the wallet, with their data and height. |
| ElementsSync.PgWalletUtxoStore.UnspentOutpoints | src/elements_sync.rs:475-491 | Exactly the outpoint and wallet of every unspent row. |
| ElementsSync.PgBlockStore.StoreBlock | src/elements_sync.rs:106-123 | The block at its height is inserted or replaced, unless another height already has that hash; then nothing changes. |
| ElementsSync.PgBlockStore.SetSyncedTip | src/elements_sync.rs:142-158 | The cursor is the given tip, blocks unchanged. |
| ElementsSync.PgCheckpointStore.Load | src/elements_sync.rs:242-262 | Exactly the wallet's checkpoints. |
| ElementsSync.PgCheckpointStore.RollbackAbove | src/elements_sync.rs:282-295 | The wallet's checkpoints above the height go, every other one stays. |
| ElementsSync.PgBlockStore.RollbackAbove | src/elements_sync.rs:173-216 | Blocks above the height go; a cursor above it moves to the highest block left or disappears. |
| ElementsSync.UpsertConverges | src/elements_sync.rs:389-413 | Stopping an upsert after any statement and running the whole again gives the uninterrupted rows. |
| ElementsSync.MarkConverges | src/elements_sync.rs:422-434 | The same for marking spends. |
| ElementsSync.RollbackConverges | src/elements_sync.rs:497-509 | The same for a rollback between its two statements. |
| ElementsSync.RollbacksCompose | src/elements_sync.rs:493-512 | Rolling back to `a` then `b` is rolling back to the lower of the two. |
| ElementsSync.BlockRollbacksCompose | src/elements_sync.rs:173-216 | The same for blocks and the cursor. |
| ElementsSync.BlockRollbackConverges | src/elements_sync.rs:173-216 | A block rollback stopped after its delete is completed by the next run. |
| ElementsSync.CheckpointRollbacksCompose | src/elements_sync.rs:282-295 | The same for one wallet's checkpoints. |
| ElementsSync.CheckpointWalletsIndependent | src/elements_sync.rs:282-295 | Rollbacks of different wallets' checkpoints commute. |
| ElementsSync.LoadedIffLastSaved | src/elements_sync.rs:242-295 | After any sequence of saves and rollbacks of any wallets, a load returns a tip exactly when it was saved for that wallet and no later save at its height and no later rollback below it has displaced it. |
| ElementsSync.SaveAndLoad | src/elements_sync.rs:242-295 | The checkpoint store itself, driven through any sequence of saves and rollbacks of any wallets, loads exactly the tips still saved. |
| ScanDriver.Scanner.Apply | src/elements_sync.rs:365-437 | The driver's block application over the stores computes `Applied`, or stops with the rows written when the block is refused. |
| ScanDriver.Scanner.RollbackAbove | src/elements_sync.rs:173-216 | The driver's rollback over the stores computes `Back`. |
| ScanDriver.UndoIff | src/elements_sync.rs:365-512 | A rollback exactly undoes a block if and only if the block re-captures no stored output and re-spends no spent one. |
| ScanDriver.UndoAll | src/elements_sync.rs:365-512 | From any rows scanned to a height, any sequence of such blocks above it followed by the rollback restores the same rows, spent flags and heights. |
| ScanDriver.ApplyConverges | src/elements_sync.rs:106-142 | Re-running a block application after it stopped anywhere gives the uninterrupted database. |
| ScanDriver.LeftoversIff | src/elements_sync.rs:365-437 | Applying another block over a half-applied one gives the right rows if and only if it captures and spends what the half left behind. |
| ScanDriver.ReplayRows | migrations/0007_elements_block_sync.sql:33-47 | In a replay every row is spent exactly when it has a spent height, with capture height <= spent height <= tip. |
| ScanDriver.UnspentIsFoundNotSpent | src/elements_sync.rs:439-491 | The unspent rows of a replay are exactly the outputs found on the chain and not spent on it. |
| ScanDriver.UnspentData | src/elements_sync.rs:439-473 | Each row's data and height are those of the output as found in the block at that height. |
| ScanDriver.BackIsReplay | src/elements_sync.rs:173-216 | Rolling a replay back is the replay of the prefix: scan, roll back and scan again equals the second scan alone. |
| ScanDriver.NextKeeps | src/elements_sync.rs:365-512 | Block application, rollback, and a crash after any statement of either keep the invariant from which every interrupted operation can be finished or rolled back. |
| ScanDriver.TablesRefineReplay | src/elements_sync.rs:365-512 | After any run of these events, between operations the tables are the replay of the best chain, the unspent rows are what was found and not spent on it, and the cursor is the highest stored block. |
| ScanDriver.StoredHash | src/elements_sync.rs:160-216 | After any run, in the middle of an interrupted operation too, the stored hash at a height not being worked on is that of the best chain's block there, and absent where the chain has none. |
| ScanDriver.HashOf | src/elements_sync.rs:160-171 | What the block store answers for a settled height after any run: the hash of the best chain's block there, or nothing. |
| ScanDriver.StoreNeverRefused | src/elements_sync.rs:106-123 | The unique block hash never refuses a block the driver stores. |
| FederationVersions.Table.List | src/db.rs:530-560 | The wallet's rows, all of them, in index order. |
| FederationVersions.Table.Insert | src/db.rs:503-528 | A fresh `not_applicable` row, refused exactly when the wallet already has that index, leaving the table as it was. |
| FederationVersions.Table.SetPendingForOlder | src/db.rs:662-678 | Exactly the wallet's `not_applicable` rows below the index become pending. |
| FederationVersions.Table.SetMigrationComplete | src/db.rs:609-624 | The row with this id becomes complete with this sweep, every other row unchanged. |
| FederationVersions.Table.UpdateMigrationStatus | src/db.rs:587-598 | The row with this id takes the status, every other row unchanged. |
| FederationVersions.Table.ReconcileMigration | src/db.rs:644-660 | Reverts the row with this id exactly when it is complete with this sweep, and reports whether it did. |
| MigrationStatus.CountIsFresh | examples/federation_migration.rs:2135-2145 | The number of listed versions is an unused index and the last listed version is the latest. |
| MigrationStatus.CountIsFirstFree | src/db.rs:503-528 | The number of a wallet's versions is its first free index, so no insertion is ever refused. |
| MigrationStatus.StatementKeeps | src/db.rs:503-717 | Every statement the application issues keeps the version-history invariant. |
| MigrationStatus.EveryRun | src/db.rs:503-717 | In every reachable state: indices 0 to n-1 per wallet, the latest row `not_applicable` without txid, a txid only on `complete` rows, never `in_progress`. |
| MigrationStatus.Bootstrap | src/wallet.rs:519-555 | A wallet without versions gets version 0; any other is left alone. |
| MigrationStatus.ApplyFederationChange | examples/federation_migration.rs:2135-2176 | Step 1 for a wallet, crashing between its statements or not: the next version appended as the latest, the older `not_applicable` ones pending. |
| MigrationStatus.StampWallet | examples/federation_migration.rs:1548-1575 | The updates of one wallet's older versions, stopped after `budget` of them: it finishes exactly when that is enough, what is left over is the rest of the budget, and the rows stamped are exactly the `budget` oldest versions or all older ones. |
| MigrationStatus.StampAll | examples/federation_migration.rs:2592-2617 | The completion stamp of all wallets, stopped after `budget` updates: the invariant holds, exactly the first `budget` updates have been made, it finishes exactly when that is enough for all older versions, and then every row is as `EnactedRow` says. |
| MigrationStatus.UpdatesMade | examples/federation_migration.rs:1563-1572 | Of a wallet's older versions, the first `budget` updates of a stamp touch exactly `budget` rows, those with the lowest indices. |
| MigrationStatus.EnactedIsComplete | examples/federation_migration.rs:1548-1575 | Every older version of a stamped wallet is complete, with the account's txid when one is on record and its own otherwise, and unchanged in everything else. |
| WalletSync.ReplaceNotMerge | src/wallet.rs:1114-1122 | Merging a rebuilt changeset would load to the right wallet exactly when nothing was evicted, no higher reveal is missing and no old block is gone. |
| WalletSync.MergeKeepsEvicted | src/wallet.rs:1116-1119 | A merge keeps an evicted transaction that the replacement drops. |
| WalletSync.LoadMerge | src/wallet.rs:1109-1142 | Loading what was merged is applying what was merged to what was loaded. |
| WalletSync.StagedChange | src/wallet.rs:1318-1336 | After one more staged change, the aggregate merged with what is staged still loads to the live wallet. |
| WalletSync.UserWallet.RevealAddresses | src/wallet.rs:1273-1337 | The reveal is applied, merged and stored; what is stored loads to the live wallet. |
| WalletSync.UserWallet.Send | src/wallet.rs:1898-1925 | What building staged is stored before the broadcast and stays when the broadcast is rejected. |
| WalletSync.UserWallet.InsertUnconfirmed | src/wallet.rs:1799-1810 | Every version wallet and the primary one see the transaction; nothing is stored. |
| WalletSync.UserWallet.RevealVersionsToInner | src/wallet.rs:1153-1163 | Every version wallet is revealed as far as the primary one; nothing happens until that one has revealed. |
| WalletSync.UserWallet.ScanVersions | src/wallet.rs:1039-1046 | Every version wallet goes through the backend in order up to the first failure; it reports a reorg exactly when one it reached was rebuilt. |
| WalletSync.UserWallet.PersistSync | src/wallet.rs:1109-1142 | A rebuilt changeset replaces the aggregate, any other is merged, none leaves it; the row follows the aggregate and the tip is stored. |
| WalletSync.UserWallet.RevealDuringSync | src/wallet.rs:1043-1064 | A reveal that gets in between taking a rebuild and persisting it: the stored changeset ends as the rebuilt one, and loads to the live wallet exactly when the rebuild had revealed as far. |
| WalletSync.UserWallet.Sync | src/wallet.rs:971-1142 | Each version wallet becomes what the backend makes of it as revealed to the primary wallet's index (as it is, on a full node), up to the first failure. A completed sync leaves the stored changeset loading to the live wallet, the rebuilt one after a rebuild, and stores the tip; a failed one stores nothing. |
| Reconciliation.RevertAbsent | src/wallet.rs:1207-1213 | The guarded loop reverts exactly the rows whose sweep is absent and returns how many rows went from complete to pending, saturating at 2^32 - 1, keeping the version-history invariant. |
| Reconciliation.Reconcile | src/wallet.rs:1185-1237 | An armed pass reverts precisely the completed versions of this wallet whose parseable recorded sweep is in no graph, returns how many rows went from complete to pending, leaves every other row alone; unarmed it does nothing. |
| Reconciliation.SecondPassFindsNothing | src/wallet.rs:1185-1215 | After a pass, complete with a parseable sweep means the sweep is present; a second pass finds nothing. |
| ReorgSync.SyncWallet | src/wallet.rs:971-1105 | The whole sync: scans of the revealed wallets, persistence, and every version row as `SyncedRow` says, reconciled against the graphs left when the sync completes and some wallet was rebuilt; a failure leaves rows and stored changeset alone. |
| ReorgSync.KeptIffProtected | src/wallet.rs:1031-1237 | A nodeless sync, against every backend that keeps its promises, leaves a completed migration as it is if and only if no wallet holds an abandoned block, or some wallet (the primary one included) watches an address its sweep pays or spends from, or some wallet that will not be rebuilt has the sweep. |
| ReorgSync.LeastSync | src/wallet.rs:1031-1237 | The sync against the backend that finds the least it may: it keeps the promises, and reverts exactly the completed migrations whose sweep is not so protected. |
| ReorgSync.NoFalseRevert | src/wallet.rs:1031-1215 | Once the primary wallet has revealed, a nodeless sync, completed or not, leaves every row whose sweep is on chain or in the mempool and touches external index 0 of a tracked version: the reveal makes the backend find it. |
| ReorgSync.FalseRevertWhenNothingRevealed | src/wallet.rs:1153-1163 | In a process that loaded the wallet before the federation change, with nothing revealed anywhere, a nodeless sync in which a wallet is rebuilt and the backend finds the least it may reverts every tracked migration, whatever is on chain. |
| SyncHistory.Sync | src/wallet.rs:971-1105 | Every sync against a lawful backend, completed or failed, moves chains, views and version rows as an attempt of the history does. |
| SyncHistory.Reload | src/wallet.rs:691-797 | A restart starts the version wallets afresh and loads the primary one from its row. |
| SyncHistory.CompletedKeeps | src/wallet.rs:1185-1215 | A completed sync keeps: complete with a recorded sweep means the sweep is in some wallet's view. |
| SyncHistory.NotOwedKeeps | src/wallet.rs:983-1024 | Over any history of completed syncs, failed syncs and restarts from a moment with no sweep missing: while no rebuild has been forgotten, complete with a recorded sweep means the sweep is in some wallet's view. |
| SyncHistory.SweepsPresentIff | src/wallet.rs:983-1024 | Over every history of completed syncs, failed syncs and restarts: no recorded sweep is missing at the end, whatever the wallets found, if and only if no rebuild has been forgotten or the wallet has one version. |
| SyncHistory.OwedAfterCompleted | src/wallet.rs:983-1024 | Decided before the sync is made: a completed sync forgets a rebuild exactly when one was forgotten before it and no wallet holds an abandoned block. |
| SyncHistory.ForgottenRebuild | src/wallet.rs:983-1024 | On the wallet itself: version wallets rebuilt by a sync that fails on a primary wallet behind the fork; the next sync completes, reverts nothing and leaves the migration complete with its sweep in no graph. |
| SyncHistory.StampThenSync | examples/federation_migration.rs:1548-1575 | The tool stamps a wallet's older versions, stopped after `budget` updates, and the wallet then syncs: exactly those rows are stamped, and when some wallet watches an address the sweep touches none is reverted, and a completed sync finds every recorded sweep present again. |
| WalletLoad.Store.Rebind | src/wallet.rs:652-689 | The row is replaced by a fresh wallet on the current descriptor revealed as far as the old one, or left alone when the old one does not load. |
| WalletLoad.BuildFederated | src/wallet.rs:519-578 | Version 0 is recorded when there is none; otherwise every version is reconstructed or the load fails, and the table is unchanged. |
| WalletLoad.LoadWallet | src/wallet.rs:691-797 | It succeeds exactly when its calls do; then the row's descriptor is the latest version's, a rebound row is empty and revealed exactly as far as the old one (index 0 if nothing was), and the live wallet is what the row loads to. A later failure leaves the heal in place. |
| WalletLoad.LoadHealed | src/wallet.rs:737-755 | Loading a wallet whose row is bound to its latest version changes nothing. |
| WalletLoad.LoadTwice | src/wallet.rs:691-797 | The load after a successful load succeeds with the same live wallet. |
| WalletLoad.ElementsStore.Load | src/elements_wallet.rs:420-495 | Version 0 recorded when there is none; the wallet bound, and when the write goes through the row healed, to the latest version. |
| WalletLoad.DescriptorHeals | src/elements_wallet.rs:455-495 | The bound descriptor is the latest version's on every load; a stored heal holds that descriptor and the version's key text, the row's own when it has none, and leaves nothing to heal. |
| WalletLoad.KeyStableIff | src/elements_wallet.rs:455-495 | The blinding key of the next load is that of this one if and only if the row had not drifted or the latest version's key is the base key or unreadable. |
| WalletLoad.RotatedKeyIsLost | src/elements_wallet.rs:464-475 | In a two-version history that a run of statements reaches, version 0 the row's own and version 1 with a rotated key: the first load after the migration binds to the rotated key, the second, once healed, to the base key again. |
| Accounting.SyntheticUtxos | examples/federation_migration.rs:788-824 | At least one part; the parts sum exactly to the total, never increase and differ by at most 1. |
| Accounting.BalancesBySpk | src/elements_wallet.rs:1838-1855 | For every script the tables equal filter-and-sum, list exactly the scripts paid (left unspent), and unspent never exceeds received. |
| Accounting.BalancesBySpkPerAsset | src/elements_wallet.rs:1863-1877 | One table pair per asset held, each equal to filter-and-sum over that asset's UTXOs. |
| Accounting.OrderedAssets | src/elements_wallet.rs:1881-1892 | The policy asset first, every other asset once, in increasing order. |
| Accounting.TabsAddUp | src/elements_wallet.rs:1838-1892 | Summed over the asset tabs, the per-asset tables are the plain tables, received and unspent. |
| AddressHistory.History | src/wallet.rs:1461-1522 | Every output that pays the address is listed once, as the first version wallet with it has it: value, height, spent flag and confirmations; totals are those of the receipts; height order, unconfirmed last, equal heights in the order found. |
| AddressHistory.DeeperByOne | src/wallet.rs:1487-1497 | A receipt at the tip has one confirmation, one block deeper is one more, an unconfirmed one has none. |

## Left out

- The sweep planner, `build_migration_pset`, BDK's builder, the miniscript finalizer and the HSM signers: contracts or parameters only.
- BDK dropping a dust change output: the builder contract has exactly one change output.
- Which stored version holds the funds and how the fee account's old and new addresses are derived from descriptors: parameters of the executors.
- Amounts as 64-bit integers: values are unbounded; the executors' `u32`/`i32` account conversions are modelled (`SweepPlan.Idx`).
- ElementsEnact.RecordedSweepPays: says what the log records at any stopping point; the executor hands the report on only when the run finishes, so after an early stop nothing is stamped.
- BitcoinEnact.RecordedSweepPays: likewise, the process exits before the stamp when the run stops early.
- MigrationStatus.StampAll: when a wallet is migrated a second time, the newest sweep txid overwrites that of older versions already complete, as in the source.
- ScopedSigning.SignScoped: a signer that fails leaves no signature, as in the source, which ignores the error.
- ScanDriver.TablesRefineReplay: the per-block driver (upsert captures, mark spends, store block, set tip) is this project's own, since the engine is in a crate; an interrupted application is run again or rolled back, never skipped.
- WalletSync.UserWallet.Sync: BDK's changeset is reduced to transactions, last revealed external index and chain checkpoints; internal addresses, anchors and timestamps are not modelled.
- Reconciliation.Reconcile: parsing of recorded txids is a parameter.
- The chain backend: a contract (`ReorgSync.LawfulScan`). A scan rebuilds exactly when the wallet holds an abandoned block, and only a rebuild drops a transaction (the premise of src/wallet.rs:1180-1184); an unconfirmed sweep evicted from the mempool without a reorg is outside it.
- A backend that looks at revealed addresses only: a contract (`ReorgSync.Promised`) that it finds all activity on the revealed addresses of the wallet it is given; activity is on external addresses, as only those are modelled.
- WalletLoad.LoadWallet: registration of signers and construction of metadata wallets, which touch no stored state.
- AddressHistory.History: the `u32` clamp of output positions beyond 2^32.
- The nodeless multi-wallet Elements pass (`src/elements_ingest.rs`): what its client does on a reorg is not visible.
- Per-asset address history, `balance` and `asset_total_sat` on Elements: sums of the same kind as the tables above.
- SQL failures other than stopping between statements, and two processes interleaving on one wallet (a stamp between two syncs is in `SyncHistory.StampThenSync`).
- HTTP handlers, templates, sessions, QR codes, chain transports, prompts, configuration, floating-point display, hex parsing and key derivation.
