# qubership-zookeeper, verified

A Dafny model of the parts of the repository that keep a ZooKeeper cluster and its data safe,
and proofs of what they promise. `dafny verify dfyconfig.toml` checks all of it.

**Transactional backup** (`backup-daemon/scripts`): the readers of a transaction record consume
a mutable record (`TxnEntries`), one transaction is read from a log and the log is rewritten
without session transactions (`LogFilter` as functions, `LogFilterRun` as the loop). The filter's
output is characterised for every input, and filtering it again changes no byte. `CreateLayout` is
the layout ZooKeeper writes a create in, `WrittenLogs` has all transaction types and what the
filter makes of logs as ZooKeeper writes them, and `DocumentedLog` compares that with what is
documented.

**Hierarchical backup**: a znode tree is written to directories and archived (`HierarchyBackup`),
extracted and walked back into ZooKeeper (`HierarchyRestore`). `HierarchyRoundTrip` says exactly
which trees survive byte for byte, and `TextLines` what becomes of the bytes of a value.

**Disaster recovery** (`docker-zookeeper/docker/dr_reconfig.sh`): the written dynamic
configuration (`DrConfig`) is read back strictly and judged by ZooKeeper's hierarchical quorum
rule (`Quorum`).

**Operator** (`operator/controllers`): one reconcile cycle is a function of cluster, memory, spec
and secrets (`Cycle`); the `Operator` class computes it step by step, with every API call and wait
free to fail. `CycleSuccess` says exactly when a cycle can succeed and `BuiltObjects` what it then
leaves, object by object. On it rest scaling (`Scaling`), the change-detection cache
(`CacheSoundness`, `CacheStarts`, `RevertedSpec`, `MonitoringCache`, `BackupCache`),
secret-driven restarts (`RestartDelivery`, `SecretDelivery`) and volume claim annotations
(`Claims`, `ClaimCycles`, `DeletedClaims`). The rolling update is a state machine over single
steps (`RollingUpdate`), credential rotation is `VaultRotation` with `VaultNames`, and status
conditions are `Conditions`.

A loop or an object of the source is a method or a class here, proved against a function; the
lemmas are about those functions and about whole runs.

Where the code falls short of what is documented or expected, a lemma gives the exact condition:

- `docs/public/backup-modes.md` says that log filtering deletes ephemeral nodes. `read_bool`
  compares a tuple with 0 and is always false, so ephemeral creates stay: `DocumentedIff`. The
  reader would not see all flags even otherwise: `ReadsWithoutData`.
- A znode that was set to missing data makes the filter abort: `FilterOnWritten`.
- A hierarchical backup loses a child named `content` of a znode with a value, line ends in
  values, and top-level znodes that are empty and have no persistent children: `ExactIff`.
- An annotation set that was applied by a failed cycle and then replaced leaves its keys on
  claims: `MergeExactIff`, `AbandonedSetStays`. A claim without any annotations cannot be merged
  into (a nil map), so it blocks cycles: `CycleSucceedsIff`, `BareClaimBlocks`.
- A server's deleted claim comes back only when the ZooKeeper gate opens: `ServerClaimIff`,
  `DeletedClaimStaysGone`.
- A downscale counts active servers but stops them by number, so a gap survives it: `ActiveIff`.
- The cache assumes that active servers are 1..k, and is unsound from every other start:
  `CacheSoundIff`.
- After a failed cycle a spec that goes back to the remembered one is not applied:
  `ServersBuiltIff`, `RevertIsSkipped`.
- The Monitoring hash omits what its pod is built from of the Backup Daemon section:
  `MonitoringFreshIff`. The Backup Daemon's gate does not see the removal of the S3 aliases
  secret: `BackupFreshIff`.
- A failure that was written to the status stays until a cycle with a changed spec succeeds:
  `ReportIff`, `FailureSticks`.
- Changing the wanted templates after a rolling update that timed out can take a second server
  down: `SafeIff`, `ReplacedPlanIsUnsafe`.

## Model

| member | source | states |
|---|---|---|
| `TxnEntries.AclBound` | backup-daemon/scripts/parse_transaction_logs.py:183-186 | whatever count a record claims, twelve times the ACLs read is at most the bytes left; the loop ends without an error exactly when it read the claimed number, and a larger claim always ends in an error |
| `TxnEntries.ReadsConserve` | backup-daemon/scripts/parse_transaction_logs.py:94-104 | over any sequence of reads, negative counts included, what was handed out followed by the rest is the body |
| `TxnEntries.TransactionData.constructor` | backup-daemon/scripts/parse_transaction_logs.py:95-98 | record, body and rest all start as the given bytes |
| `TxnEntries.TransactionData.Read` | backup-daemon/scripts/parse_transaction_logs.py:100-104 | the part handed out and the new rest are the old rest, for every count; the record and body stay |
| `TxnEntries.TransactionData.StartBody` | backup-daemon/scripts/parse_transaction_logs.py:159-159 | after the header the body is what is left |
| `TxnEntries.TransactionData.Rewind` | backup-daemon/scripts/parse_transaction_logs.py:215-215 | the second attempt starts from the whole body again |
| `TxnEntries.ReadInt` | backup-daemon/scripts/parse_transaction_logs.py:193-196 | a signed big-endian field or a struct.error, with exactly its bytes gone |
| `TxnEntries.ReadString` | backup-daemon/scripts/parse_transaction_logs.py:173-177 | a length-prefixed string; negative and too long lengths are struct.errors |
| `TxnEntries.ReadData` | backup-daemon/scripts/parse_transaction_logs.py:179-181 | length-prefixed data; no length is an error, a negative one slices from the end |
| `TxnEntries.ReadAcl` | backup-daemon/scripts/parse_transaction_logs.py:274-278 | permissions, scheme and id in this order |
| `TxnEntries.ReadAclLoop` | backup-daemon/scripts/parse_transaction_logs.py:183-186 | the claimed number of ACLs in order, or the error of the first that cannot be read |
| `TxnEntries.ReadAcls` | backup-daemon/scripts/parse_transaction_logs.py:183-186 | count, then that many ACLs |
| `TxnEntries.ReadBool` | backup-daemon/scripts/parse_transaction_logs.py:199-202 | takes one byte, and is false whatever it holds |
| `TxnEntries.ReadCreateWithoutData` | backup-daemon/scripts/parse_transaction_logs.py:208-212 | the first layout of a create: path, ACLs, flag; the body is kept whatever happens |
| `TxnEntries.ReadCreateWithData` | backup-daemon/scripts/parse_transaction_logs.py:215-219 | the second layout: path, data, ACLs, flag |
| `TxnEntries.ReadCreate` | backup-daemon/scripts/parse_transaction_logs.py:207-219 | the first layout if it reads, else the second from the start of the body |
| `TxnEntries.ReadSetData` | backup-daemon/scripts/parse_transaction_logs.py:234-239 | path, data, version |
| `TxnEntries.ReadSetAcl` | backup-daemon/scripts/parse_transaction_logs.py:245-250 | path, ACLs, version |
| `LogFilter.NextTxnShrinks` | backup-daemon/scripts/parse_transaction_logs.py:113-120 | each transaction takes at least its twelve-byte head from the stream |
| `LogFilter.NoCreateReadsEphemeral` | backup-daemon/scripts/parse_transaction_logs.py:146-147 | no create that parses is ever seen as ephemeral |
| `LogFilter.ReadsWholeRecord` | backup-daemon/scripts/parse_transaction_logs.py:112-147 | a whole record in front of any bytes is read back exactly, and dropped exactly when it is a session transaction |
| `LogFilter.ReadRecordIsWhole` | backup-daemon/scripts/parse_transaction_logs.py:112-147 | a record after which another head can be read is whole: short reads and the length -1 exhaust the file |
| `LogFilter.EndsAtStop` | backup-daemon/scripts/parse_transaction_logs.py:114-140 | reading ends without an error exactly at a zero length or at an unknown type whose length can be read; a truncated head and a length below -1 abort |
| `LogFilter.FirstOfLog` | backup-daemon/scripts/parse_transaction_logs.py:112-147 | the first read of a log gives its first record, or the end when there is none |
| `LogFilter.FilterRecordsComplete` | backup-daemon/scripts/process_zookeeper_logs.py:83-94 | on whole records and a stop, all but session records are written in order with the terminator |
| `LogFilter.FilterRecordsSound` | backup-daemon/scripts/process_zookeeper_logs.py:83-94 | an input on which the loop ends is a sequence of whole records and a stop |
| `LogFilter.LogOfRun` | backup-daemon/scripts/process_zookeeper_logs.py:72-98 | every run that does not abort saw a log of whole records |
| `LogFilter.RunOnLog` | backup-daemon/scripts/process_zookeeper_logs.py:72-98 | on every log the output is the header, the kept records with their exact bytes in order, and the terminator |
| `LogFilter.FilterImage` | backup-daemon/scripts/process_zookeeper_logs.py:72-98 | for all inputs and outputs: the run writes this output if and only if the input is a log whose kept records spell it; it aborts, with a struct.error or a ValueError, exactly on what is no log |
| `LogFilter.LogIsUnambiguous` | backup-daemon/scripts/parse_transaction_logs.py:110-147 | one byte string is a log in one way only |
| `LogFilter.KeptIsKept` | backup-daemon/scripts/parse_transaction_logs.py:146-147 | dropping twice drops no more |
| `LogFilter.FilterRoundTrip` | backup-daemon/scripts/process_zookeeper_logs.py:72-98 | the output of every run that does not abort is a log of exactly the kept records, and filtering it again changes no byte |
| `LogFilter.FilteredIsLog` | backup-daemon/scripts/process_zookeeper_logs.py:72-98 | the same, for a log given record by record |
| `LogFilterRun.InputFile.Read` | backup-daemon/scripts/parse_transaction_logs.py:114-120 | a file read takes up to the count, everything for -1, and is refused below that |
| `LogFilterRun.ReadEntry` | backup-daemon/scripts/parse_transaction_logs.py:123-140 | the reader chosen by the type field, MULTI without one, other types unknown |
| `LogFilterRun.ReadRecord` | backup-daemon/scripts/parse_transaction_logs.py:122-159 | header, then entry, with the record's own bytes kept |
| `LogFilterRun.ReadTxn` | backup-daemon/scripts/parse_transaction_logs.py:112-147 | constructing a transaction computes the model's next transaction and leaves the stream behind it |
| `LogFilterRun.FilterAndStore` | backup-daemon/scripts/process_zookeeper_logs.py:72-98 | the loop over the file ends exactly when the model's filter does, with its output |
| `CreateLayout.Int32IsSigned32` | backup-daemon/scripts/parse_transaction_logs.py:193-196 | reading a 32-bit field is the inverse of writing it, both ways |
| `CreateLayout.ReadsWithData` | backup-daemon/scripts/parse_transaction_logs.py:215-219 | on every create with data that ZooKeeper writes, the second layout gives exactly its path, data, ACLs and flag |
| `CreateLayout.ReadsWithoutData` | backup-daemon/scripts/parse_transaction_logs.py:208-212 | on every create without data the first layout is accepted, and what it takes for the flag is the top byte of the number of ACLs, 0 below 2^24 of them |
| `CreateLayout.EveryCreateReads` | backup-daemon/scripts/parse_transaction_logs.py:205-219 | every create that ZooKeeper writes is read without an error |
| `CreateLayout.LayoutIsUnambiguous` | backup-daemon/scripts/parse_transaction_logs.py:205-219 | one body is one create: all fields, the flag included, are determined by the bytes |
| `WrittenLogs.ReadsDataSet` | backup-daemon/scripts/parse_transaction_logs.py:234-239 | on every setData in the layout ZooKeeper writes, path, data and version are read exactly, and a missing value is a struct.error |
| `WrittenLogs.ReadsAclSet` | backup-daemon/scripts/parse_transaction_logs.py:245-250 | on every setACL in the layout ZooKeeper writes, path, ACLs and version are read exactly |
| `WrittenLogs.ReadsRecord` | backup-daemon/scripts/parse_transaction_logs.py:112-147 | records of types 1, 2, 5, 7, -1, 14, -10 and -11 as ZooKeeper writes them are whole; those of -10 and -11 are dropped; only a znode set to missing data makes the run abort |
| `WrittenLogs.OtherTypesStop` | backup-daemon/scripts/parse_transaction_logs.py:122-140 | a record of any other type stops the reading, whatever its fields |
| `WrittenLogs.MalformedAborts` | backup-daemon/scripts/parse_transaction_logs.py:173-177 | a delete is read exactly when the length of its path is neither negative nor more than there is, a setData or setACL only then, an error or session record exactly when its number is whole; otherwise the run aborts |
| `WrittenLogs.ShortRecordAborts` | backup-daemon/scripts/parse_transaction_logs.py:114-122 | a record too short for its header, or with a length below -1, makes the run abort |
| `WrittenLogs.NegativeData` | backup-daemon/scripts/parse_transaction_logs.py:179-181 | data with the length -k is all that follows but its last k bytes, or nothing if fewer follow |
| `WrittenLogs.FilterOnWritten` | backup-daemon/scripts/process_zookeeper_logs.py:72-98 | on every log that ZooKeeper can have written the run ends if and only if no znode was set to missing data, and then writes the file header, every record that is not a session's byte for byte and in order, and twelve zeros |
| `WrittenLogs.MissingDataAborts` | backup-daemon/scripts/parse_transaction_logs.py:179-181 | a concrete log on which the run aborts |
| `DocumentedLog.DocumentedKeepsLess` | docs/public/backup-modes.md:34-36 | the documented output is shorter as soon as ZooKeeper wrote a create with the ephemeral flag, and the same otherwise |
| `DocumentedLog.DocumentedIff` | docs/public/backup-modes.md:34-36 | the code writes the documented log if and only if no record is a create that ZooKeeper wrote with the ephemeral flag, whatever layout the reader guessed |
| `DocumentedLog.EveryCreateSurvives` | backup-daemon/scripts/parse_transaction_logs.py:146-147 | every create ZooKeeper writes, with any fields, is a whole record and kept, and the documentation has it deleted exactly when its flag is set |
| `DocumentedLog.TwoSurvivors` | backup-daemon/scripts/parse_transaction_logs.py:199-219 | two concrete ephemeral creates that are kept, with and without data; for the second even the byte read as the flag is 0 |
| `HierarchyBackup.StoreData` | backup-daemon/scripts/process_znode_hierarchy.py:59-77 | directory and value file are there afterwards; a failed makedirs is only logged, a failed open is not caught |
| `HierarchyBackup.StoreStep` | backup-daemon/scripts/process_znode_hierarchy.py:50-77 | storing one persistent znode fails exactly when its directory is its parent's value file and it has a value; otherwise it puts the znode in place and changes nothing else |
| `HierarchyBackup.VisitNodes` | backup-daemon/scripts/process_znode_hierarchy.py:40-56 | for any order of children: it raises exactly when some value below cannot be written, else exactly the persistent subtree's image is there and nothing else changed |
| `HierarchyBackup.Backup` | backup-daemon/scripts/process_znode_hierarchy.py:23-37 | it fails exactly when a requested znode is missing or a value cannot be written; the archive holds exactly the image of the covered persistent znodes |
| `Znodes.ArchiveLookup` | backup-daemon/scripts/process_znode_hierarchy.py:23-37 | what an archive holds at each path |
| `Znodes.NormaliseIdentity` | backup-daemon/scripts/process_znode_hierarchy.py:128-131 | reading in text mode gives a value back exactly when it holds no carriage return |
| `TextLines.NormaliseLines` | backup-daemon/scripts/process_znode_hierarchy.py:129-130 | a value made of lines ended by CR, LF or CR LF is read as the same lines, each ended by one LF |
| `TextLines.EveryValueHasLines` | backup-daemon/scripts/process_znode_hierarchy.py:129-130 | every value is such lines in one of these spellings, so that says what is read of any value |
| `Znodes.RestoreLookup` | backup-daemon/scripts/process_znode_hierarchy.py:80-98 | the live tree at each path after a restore |
| `HierarchyRestore.ZkClient.Delete` | backup-daemon/scripts/process_znode_hierarchy.py:123-125 | a recursive delete removes the subtree and nothing else |
| `HierarchyRestore.ZkClient.Create` | backup-daemon/scripts/process_znode_hierarchy.py:132-138 | a create is refused when the znode exists or its parent is missing or ephemeral |
| `HierarchyRestore.RestoreNode` | backup-daemon/scripts/process_znode_hierarchy.py:121-138 | one walked directory replaces whatever was at its znode with its value and no children |
| `HierarchyRestore.Walk` | backup-daemon/scripts/process_znode_hierarchy.py:119-140 | for any listing order: the only delete is of the first directory's own znode, every create succeeds, each directory is created once and after its parent, the subtree is exactly what the directories say, and the count is the number of creates |
| `HierarchyRestore.VisitNodesWhileRestoring` | backup-daemon/scripts/process_znode_hierarchy.py:115-140 | the same for a top-level znode, and no call at all when its directory is missing |
| `HierarchyRestore.ExtractZnode` | backup-daemon/scripts/process_znode_hierarchy.py:108-112 | extracting one znode adds its entries with the directories above them and leaves the others |
| `HierarchyRestore.GetZnodesList` | backup-daemon/scripts/process_znode_hierarchy.py:101-105 | all top-level directories but zookeeper, and an error when that one is absent |
| `HierarchyRestore.Restore` | backup-daemon/scripts/process_znode_hierarchy.py:80-98 | without requested znodes it raises exactly when there is no archive or no zookeeper directory in it, before changing anything; else the live tree is rebuilt for the selected znodes and unchanged elsewhere |
| `HierarchyRestore.RestoredIsValid` | backup-daemon/scripts/process_znode_hierarchy.py:80-98 | a restore keeps every znode under a parent that is not ephemeral |
| `HierarchyRoundTrip.ArchiveNested` | backup-daemon/scripts/process_znode_hierarchy.py:23-37 | every archive of a backup is a directory tree, as a restore needs |
| `HierarchyRoundTrip.RestoredSubtree` | backup-daemon/scripts/process_znode_hierarchy.py:80-140 | a restored top-level znode is its persistent subtree with line ends normalised if it had a value or a persistent child, else as it was |
| `HierarchyRoundTrip.RoundTrip` | backup-daemon/scripts/process_znode_hierarchy.py:23-140 | backup then restore, full or granular, into any live tree: exactly the persistent subtrees come back with line ends normalised, and every other znode is unchanged |
| `HierarchyRoundTrip.RoundTripLines` | backup-daemon/scripts/process_znode_hierarchy.py:23-140 | byte by byte: a znode in a backup comes back persistent, with its lines, however they were ended, each ended by LF |
| `HierarchyRoundTrip.NoClashNoFailure` | backup-daemon/scripts/process_znode_hierarchy.py:59-77 | without a child named content of a znode with a value a full backup does not fail |
| `HierarchyRoundTrip.TopClashFails` | backup-daemon/scripts/process_znode_hierarchy.py:72-77 | writing a value fails exactly at a znode with a value that is named content below one with a value, when none above it is |
| `HierarchyRoundTrip.ExactIff` | docs/public/backup-modes.md:44-49 | lost top-level znodes come back byte for byte if and only if no name clashes with a value file, no value holds a carriage return, and each has a value or a persistent child |
| `HierarchyRoundTrip.UnfaithfulTrees` | backup-daemon/scripts/process_znode_hierarchy.py:59-131 | a concrete tree for each of the three ways to lose data, and that /a does not come back from it |
| `HierarchyRoundTrip.PassLookup` | backup-daemon/scripts/process_znode_hierarchy.py:23-140 | one full pass normalises what it restores and leaves the rest, /zookeeper included |
| `HierarchyRoundTrip.PassKeeps` | backup-daemon/scripts/process_znode_hierarchy.py:23-140 | a full pass neither adds nor removes persistent znodes nor empties a value |
| `HierarchyRoundTrip.SecondPassIsFixpoint` | backup-daemon/scripts/process_znode_hierarchy.py:23-140 | a second full pass changes nothing, whatever bytes the values hold |
| `HierarchyRoundTrip.WalkCounts` | backup-daemon/scripts/process_znode_hierarchy.py:116-140 | the restored count is the number of directories below the walked one, itself included |
| `HierarchyRoundTrip.RunFullPass` | backup-daemon/scripts/process_znode_hierarchy.py:23-98 | the two scripts one after the other compute the pass |
| `Text.SplitJoin` | operator/controllers/zookeeper_vault.go:222-241 | splitting undoes joining when no part holds the separator |
| `Text.ParseOfDecimal` | docker-zookeeper/docker/dr_reconfig.sh:49-61 | a printed server number reads back as itself |
| `Quorum.QuorumsIntersect` | docker-zookeeper/docker/dr_reconfig.sh:63-79 | for every assignment of groups and weights, two hierarchical quorums share a server |
| `DrConfig.AppendServers` | docker-zookeeper/docker/dr_reconfig.sh:44-62 | one side's server lines and the colon-separated group of their ids |
| `DrConfig.AppendWeights` | docker-zookeeper/docker/dr_reconfig.sh:74-79 | one weight line for each id of a side |
| `DrConfig.Generate` | docker-zookeeper/docker/dr_reconfig.sh:39-79 | the script writes servers, groups and weights of both sides, for every count and side argument |
| `DrConfig.ServersAre` | docker-zookeeper/docker/dr_reconfig.sh:44-79 | read back, ids 1..n are on the left with their own number, n+1..2n on the right with theirs less n; suffix, domain and namespace are the environment's; groups are the sides, and only the passive side weighs 0 |
| `DrConfig.HostsDiffer` | docker-zookeeper/docker/dr_reconfig.sh:45-57 | no two of the 2n servers have the same host name |
| `DrConfig.FileReadsBack` | docker-zookeeper/docker/dr_reconfig.sh:39-79 | for every n >= 1 the file, read strictly, defines each id exactly once, in one group, with one weight |
| `DrConfig.QuorumIff` | docker-zookeeper/docker/dr_reconfig.sh:66-79 | a set is a quorum if and only if it holds a majority of the active side, or of both sides when none is active |
| `DrConfig.PassiveSideAlone` | docker-zookeeper/docker/dr_reconfig.sh:68-73 | servers of the passive side alone are never a quorum |
| `DrConfig.EveryoneIsQuorum` | docker-zookeeper/docker/dr_reconfig.sh:66-79 | all servers together always are one |
| `DrConfig.DrQuorums` | docker-zookeeper/docker/dr_reconfig.sh:39-79 | for every n >= 1 and side: the file reads, any two quorums intersect, the passive side alone is none, everyone is one |
| `Claims.MergeClaim` | operator/controllers/zookeeperservice_reconciler.go:105-119 | the two loops compute the three-way merge; a missing annotation map is an error |
| `Claims.MergeKeepsForeign` | operator/controllers/zookeeperservice_reconciler.go:105-119 | a merge never touches an annotation of others |
| `Claims.MergeExactIff` | operator/controllers/zookeeperservice_reconciler.go:105-119 | a merge leaves exactly the wanted operator keys if and only if every operator key found is wanted or recorded (or, when nothing changed, they were already exact) |
| `Claims.MergeTwice` | operator/controllers/zookeeperservice_reconciler.go:105-119 | merging again before the status is written changes nothing |
| `Claims.ProgressTrans` | operator/controllers/zookeeperservice_reconciler.go:87-119 | partial cycles compose: each claim is untouched, merged once, or new |
| `Claims.RunHolds` | operator/controllers/zookeeperservice_controller.go:161-167 | over every run with retries a claim holds the recorded set or the pending one, and the wanted one after a success |
| `Claims.ExactAfterSuccess` | operator/controllers/zookeeperservice_reconciler.go:105-119 | after each success of a run in which wanted sets are retried a visited claim is the annotations of others plus exactly the wanted set |
| `Claims.AbandonedSetStays` | operator/controllers/zookeeperservice_reconciler.go:111-115 | a set applied by a failed cycle and then replaced leaves its key: why retries are needed |
| `ClaimCycles.ApplyAdvances` | operator/controllers/zookeeper_reconciler.go:107-173 | applying the component merges the claims of all servers and of snapshots, and every other claim only progresses |
| `ClaimCycles.BackupMerges` | operator/controllers/backupdaemon_reconciler.go:110-130 | after the Backup Daemon its claim is merged, if its gate can be shut only when nothing is due |
| `ClaimCycles.CycleIsClaimStep` | operator/controllers/zookeeperservice_controller.go:103-114 | a successful cycle merges every claim the operator makes, of servers, snapshots and the Backup Daemon, if its gates can be shut only when nothing is due: it is a successful step of the claims' runs |
| `ClaimCycles.GatesHideNothing` | operator/controllers/backupdaemon_reconciler.go:110-114 | if the memory keeps its promises, a shut gate of the ZooKeeper component or of the Backup Daemon means that the wanted set is recorded and every claim of it is there |
| `ClaimCycles.ZooKeeperGate` | operator/controllers/zookeeper_reconciler.go:239-248 | the component remembers its specification only once its claims are there |
| `ClaimCycles.BackupGate` | operator/controllers/backupdaemon_reconciler.go:169-182 | so does the Backup Daemon |
| `ClaimCycles.OperatorRunIsClaimRun` | operator/controllers/zookeeperservice_controller.go:56-158 | every run of the operator from empty memory, with restarts, failed cycles and foreign edits, in which wanted sets are retried, is a run of the claims |
| `ClaimCycles.ClaimsStayExact` | operator/controllers/zookeeperservice_controller.go:56-167 | over all such runs of the gated operator every claim that it makes and its cycles visit, the Backup Daemon's included, ends each successful cycle as the annotations of others plus exactly the wanted set |
| `DeletedClaims.ServerClaimIff` | operator/controllers/zookeeper_reconciler.go:104-173 | after a successful cycle a server that needs a claim has it if and only if it had it before or the ZooKeeper gate was open |
| `DeletedClaims.DeletedClaimStaysGone` | operator/controllers/zookeeper_reconciler.go:235-237 | a concrete cluster: the claim is created, deleted by someone, and missing after the next successful cycle |
| `Cluster.ActiveIds` | operator/controllers/zookeeper_reconciler.go:252-264 | the servers whose deployment has replicas |
| `RestartDelivery.StampCarries` | operator/controllers/deployment_secret_restart.go:35-57 | after stamping, the template says the version of every auto-restart secret |
| `RestartDelivery.CarriedStampIsSame` | operator/controllers/deployment_secret_restart.go:48-50 | stamping what is already said changes nothing |
| `SecretDelivery.CycleSaysAll` | operator/controllers/deployment_secret_restart.go:59-79 | after every successful cycle, from any cluster and any memory, each existing deployment says the current version of every auto-restart secret it depends on: servers ZooKeeper's, Monitoring its own and the one the Backup Daemon section names, the Backup Daemon its own, that of enabled S3, and the S3 aliases |
| `SecretDelivery.CycleSaysOnly` | operator/controllers/deployment_secret_restart.go:35-57 | and no other: every stamp was there before or is the current version of an auto-restart secret that the deployment depends on |
| `RestartDelivery.CycleDelivers` | operator/controllers/deployment_secret_restart.go:59-79 | the same, over the lists of secrets that the components use |
| `RestartDelivery.CycleUpdatesMemory` | operator/controllers/backupdaemon_reconciler.go:175-182 | after every successful cycle the memory says that nothing has changed, although components share secrets |
| `RestartDelivery.CycleIsQuiet` | operator/controllers/deployment_secret_restart.go:74-76 | repeating a successful cycle with the same inputs writes no deployment and changes nothing at all |
| `Scaling.ScaleDownAt` | operator/controllers/zookeeper_reconciler.go:148-155 | scaling down succeeds exactly when all excess numbers exist, and only sets their replicas to 0 |
| `Scaling.PutServersAt` | operator/controllers/zookeeper_reconciler.go:157-195 | servers 1..n have the built deployment, service and claim, and nothing else changed |
| `Scaling.ApplyAt` | operator/controllers/zookeeper_reconciler.go:107-229 | every object after the component was applied |
| `Scaling.ApplySucceeds` | operator/controllers/zookeeper_reconciler.go:148-155 | without claims the component fails exactly when an excess server is missing |
| `Scaling.ActiveIff` | operator/controllers/zookeeper_reconciler.go:138-195 | the active servers afterwards are exactly 1..n if and only if every active one was numbered from 1 up to n or up to the count of active ones |
| `Scaling.ApplyShapes` | operator/controllers/zookeeper_reconciler.go:138-195 | from active servers 1..k, upscaling and downscaling give exactly 1..n |
| `Scaling.GapActive` | operator/controllers/zookeeper_reconciler.go:252-264 | servers 1, 2 and 4 count as three |
| `Scaling.GapSurvives` | operator/controllers/zookeeper_reconciler.go:150-154 | with that gap a downscale to two leaves server 4 active |
| `CycleSuccess.CycleSucceedsIff` | operator/controllers/zookeeperservice_controller.go:101-109 | a cycle can succeed if and only if, before it: all named secrets exist; behind an open ZooKeeper gate the snapshot volume is usable, no server to stop is missing and no claim is without annotations while some are due; behind an open Backup Daemon gate its volume is usable |
| `CycleSuccess.BareClaimBlocks` | operator/controllers/zookeeperservice_reconciler.go:105-110 | a server's claim without any annotations blocks every cycle with an open gate that wants some |
| `BuiltObjects.OpenCycleServers` | operator/controllers/zookeeper_reconciler.go:121-195 | behind an open gate, field by field: servers 1..n have one replica, their own pod and the secret's version; excess ones are stopped, others untouched; services are built |
| `BuiltObjects.ShutCycleServers` | operator/controllers/zookeeper_reconciler.go:235-245 | behind a shut gate nothing about a server changes but its stamps |
| `BuiltObjects.SwitchIsNoRestart` | operator/controllers/zookeeper_reconciler.go:143-146 | the rollingUpdate switch alone changes no deployment |
| `BuiltObjects.CycleMonitoring` | operator/controllers/monitoring_reconciler.go:107-142 | Monitoring's service and deployment, field by field: built anew behind an open gate, else as they were but for stamps |
| `BuiltObjects.CycleBackup` | operator/controllers/backupdaemon_reconciler.go:115-167 | the same for the Backup Daemon |
| `CacheSoundness.ApplySettled` | operator/controllers/zookeeper_reconciler.go:107-229 | applying the component to what it built changes nothing but the number of updates |
| `CacheSoundness.ShutIsSettled` | operator/controllers/zookeeper_reconciler.go:97-106 | when the gate is shut the component is already as the new inputs want it |
| `CacheSoundness.GateIsSound` | operator/controllers/zookeeper_reconciler.go:97-106 | one cycle with the gate gives the cluster and memory of one without it |
| `CacheSoundness.CycleRemembers` | operator/controllers/zookeeper_reconciler.go:247-248 | after a successful cycle the memory again describes a settled component |
| `CacheSoundness.CacheSound` | operator/controllers/zookeeper_reconciler.go:97-106 | from active servers 1..k, over every run of specs, secrets and operator restarts without a failed cycle, the gated operator leaves the same services, claims, deployments and memory as one that always applies the component |
| `CacheStarts.CacheSoundIff` | operator/controllers/zookeeper_reconciler.go:97-155 | this holds of all runs from a cluster if and only if its active servers are 1..k for some k |
| `CacheStarts.Unsound` | operator/controllers/zookeeper_reconciler.go:104-155 | asking twice for a number of servers that exposes a gap: the ungated operator stops a server or fails the second time, the gated one does nothing |
| `CacheStarts.LateIsUnsound` | operator/controllers/zookeeper_reconciler.go:148-155 | a concrete start: servers 4, 5 and 6 active, 2 and 3 stopped |
| `RevertedSpec.ServersBuiltIff` | operator/controllers/zookeeper_reconciler.go:97-248 | after a successful cycle from any world, those that failed cycles leave included, servers and services are as wanted and no others active if and only if the gate was open and active servers had no gap, or it was shut and they were so already, missing stamps aside |
| `RevertedSpec.RevertIsSkipped` | operator/controllers/zookeeper_reconciler.go:193-214 | a concrete case: a spec is applied, a cycle for another one times out, the spec is reverted, and the successful cycle that follows leaves the other one's deployment |
| `CacheSoundness.ScalingShape` | operator/controllers/zookeeper_reconciler.go:138-195 | over every such run from active servers 1..k the active servers after each cycle with n >= 1 are exactly 1..n |
| `MonitoringCache.CyclePod` | operator/controllers/monitoring_reconciler.go:99-142 | after a cycle the Monitoring pod is as wanted if and only if the gate was open or it was so before |
| `MonitoringCache.MonitoringUses` | operator/controllers/monitoring_reconciler.go:91-106 | the versions that open Monitoring's gate are those of its own secret and of the one the Backup Daemon section names |
| `MonitoringCache.MonitoringFreshIff` | operator/controllers/monitoring_reconciler.go:99-106 | after a cycle that left the Monitoring pod as wanted, and any change outside the Monitoring and global sections, the next cycle leaves it as wanted if and only if what it reads of the Backup Daemon section (being there, secret, TLS secret, S3 switch) is the same or a secret of the new pod has a version not recorded |
| `MonitoringCache.MonitoringStale` | operator/controllers/provider/monitoring_provider.go:281-292 | a concrete stale pod: S3 is enabled for the Backup Daemon and nothing else changes |
| `BackupCache.CycleBackupPod` | operator/controllers/backupdaemon_reconciler.go:106-167 | after a cycle the Backup Daemon pod is as wanted if and only if its gate was open or it was so before |
| `BackupCache.BackupUses` | operator/controllers/backupdaemon_reconciler.go:84-114 | the versions that open the Backup Daemon's gate are those of its own secret, of the enabled S3 secret, and of the S3 aliases |
| `BackupCache.BackupFreshIff` | operator/controllers/backupdaemon_reconciler.go:102-114 | after a cycle that left the Backup Daemon pod as wanted, and any change outside its own and the global section, the next cycle leaves it as wanted if and only if the S3 aliases secret is there as before or a secret of the component has a version not recorded |
| `BackupCache.BackupStale` | operator/controllers/provider/backupdaemon_provider.go:242-260 | a concrete stale pod: the S3 aliases secret is removed and the pod keeps using it |
| `Operator.ApplyStamps` | operator/controllers/deployment_secret_restart.go:35-57 | the loop over secrets computes the stamps, and reports a change exactly when there is one |
| `Operator.Operator.constructor` | operator/main.go:100-106 | the operator starts with empty memory |
| `Operator.Operator.PutStamped` | operator/controllers/zookeeperservice_reconciler.go:131-156 | a deployment is replaced by the built and stamped one, or nothing changes |
| `Operator.Operator.UpdateStamps` | operator/controllers/deployment_secret_restart.go:59-79 | missing stamps are added in one update, and none is made when nothing is missing |
| `Operator.Operator.PutClaim` | operator/controllers/zookeeperservice_reconciler.go:87-103 | a claim is created with the wanted set or merged; a failure changes nothing |
| `Operator.Operator.PutVolume` | operator/controllers/zookeeperservice_reconciler.go:273-339 | the claim for a snapshot or backup volume, by kind; a predefined volume without a name is an error |
| `Operator.Operator.CountActive` | operator/controllers/zookeeper_reconciler.go:252-264 | the loop counts exactly the servers with replicas |
| `Operator.Operator.StopServer` | operator/controllers/zookeeperservice_reconciler.go:366-376 | one deployment goes to 0 replicas, and a missing one is an error |
| `Operator.Operator.StopExcess` | operator/controllers/zookeeper_reconciler.go:148-155 | the numbers n+1..count are stopped in order, and claims stay |
| `Operator.Operator.PutOneServer` | operator/controllers/zookeeper_reconciler.go:157-227 | service, claim if there is storage for this server, and deployment; a failure in between only lets claims progress |
| `Operator.Operator.PutAllServers` | operator/controllers/zookeeper_reconciler.go:157-229 | the same for servers 1..n |
| `Operator.Operator.StampAllServers` | operator/controllers/zookeeper_reconciler.go:239-245 | the last pass stamps servers 1..n and leaves claims alone |
| `Operator.Operator.ApplyServers` | operator/controllers/zookeeper_reconciler.go:107-229 | what is done when the gate is open |
| `Operator.Operator.RunZooKeeper` | operator/controllers/zookeeper_reconciler.go:85-250 | success computes the component; failure leaves the memory and only lets claims progress |
| `Operator.Operator.RunMonitoring` | operator/controllers/monitoring_reconciler.go:80-156 | the same for Monitoring, with its own and the Backup Daemon's secret |
| `Operator.Operator.RunBackup` | operator/controllers/backupdaemon_reconciler.go:81-184 | the same for the Backup Daemon, with the S3 secrets |
| `Operator.Operator.Reconcile` | operator/controllers/zookeeperservice_controller.go:56-158 | a cycle, each of whose calls may fail: success computes the cycle function; failure leaves a state that the runs of ClaimsStayExact allow |
| `RollingUpdate.PlanIsValid` | operator/controllers/zookeeper_reconciler.go:187-192 | every spec with three or more servers and rollingUpdate gives a plan as the theorems assume |
| `RollingUpdate.WriteKeeps` | operator/controllers/zookeeper_reconciler.go:193-195 | a server written while another is down would break the invariant, and never is |
| `RollingUpdate.StepKeeps` | operator/controllers/zookeeper_reconciler.go:138-245 | every step of a cycle, a failure or a change of status keeps the invariant, and the last pass restarts nobody |
| `RollingUpdate.RunKeeps` | operator/controllers/zookeeper_reconciler.go:138-245 | the invariant holds at every state of every run |
| `RollingUpdate.RollingSafety` | operator/controllers/zookeeper_reconciler.go:216-227 | from servers that are all ready, at every step of a cycle and any number of retries at most one server is not ready, so a majority is up |
| `RollingUpdate.ReadyMeans` | operator/controllers/zookeeperservice_reconciler.go:341-349 | a server with one replica counts as ready exactly when it has a ready and an updated pod, and not more than one of both |
| `RollingUpdate.WaitsIff` | operator/controllers/zookeeper_reconciler.go:138-146 | servers are waited for exactly when rollingUpdate is on, at least three are active, and their number does not change |
| `RollingUpdate.NeverWaits` | operator/controllers/zookeeper_reconciler.go:143-146 | over every run with fewer than three servers or without the switch nobody is waited for |
| `RollingUpdate.SafeIff` | operator/controllers/zookeeper_reconciler.go:143-227 | every run towards a plan is safe if and only if at most one server is down at the start and all before it already have the wanted deployment |
| `RollingUpdate.UnsafeRun` | operator/controllers/zookeeper_reconciler.go:157-227 | from any other start some run takes a second server down |
| `RollingUpdate.ReplacedPlanIsUnsafe` | operator/controllers/zookeeper_reconciler.go:216-227 | how an unsafe start comes about: from any servers that are all ready a cycle can time out on any server it changes, and then every plan that differs for a server before that one has a run with two servers down |
| `RollingUpdate.ServerCluster.Wait` | operator/controllers/zookeeperservice_reconciler.go:341-349 | while waiting, ready servers stay ready |
| `RollingUpdate.ServerCluster.CountActive` | operator/controllers/zookeeper_reconciler.go:252-264 | the count that decides whether rolling is in effect |
| `RollingUpdate.ServerCluster.UpdateServer` | operator/controllers/zookeeper_reconciler.go:187-227 | write, wait for the pod, wait for readiness: each a step of the state machine |
| `RollingUpdate.ServerCluster.StampServers` | operator/controllers/zookeeper_reconciler.go:239-245 | the last pass is a sequence of steps |
| `RollingUpdate.ServerCluster.Reconcile` | operator/controllers/zookeeper_reconciler.go:138-250 | everything a cycle does is a run of the state machine, and a cycle that succeeds ends with the last server's stamping |
| `RollingUpdate.ReconcileUntilDone` | operator/controllers/zookeeper_reconciler.go:138-250 | a cycle with any number of retries passes only through states with a majority up, and when it succeeds every server is as wanted and ready |
| `RollingUpdate.StampedLast` | operator/controllers/zookeeper_reconciler.go:239-250 | every run from servers that are all ready that got to its end leaves every server as wanted and ready |
| `VaultRotation.ExtractUserNames` | operator/controllers/zookeeper_vault.go:234-241 | overwriting the split slice in place gives exactly these names |
| `VaultRotation.PassSettles` | operator/controllers/zookeeper_vault.go:98-119 | after one pass nothing is left to write or clean |
| `VaultRotation.QuietPass` | operator/controllers/zookeeper_vault.go:243-249 | a pass with nothing to do changes neither Vault nor the secret |
| `VaultRotation.PassWrites` | operator/controllers/zookeeper_vault.go:98-108 | a pass writes each of the three secrets at most once, and leaves those it need not write |
| `VaultRotation.OneRotationPerCycle` | operator/controllers/zookeeper_reconciler.go:180-188 | for any number of servers, all deployments of a cycle are built after the same Vault, in which each secret was written at most once, and the secret is cleaned |
| `VaultRotation.NamesComeBack` | operator/controllers/zookeeper_vault.go:211-241 | the stored list of users reads back as the same names in the same order |
| `VaultRotation.ExtractedAreProper` | operator/controllers/zookeeper_vault.go:234-241 | extracted names hold neither comma nor colon |
| `VaultNames.LoginsAfter` | operator/controllers/zookeeper_vault.go:121-193 | after a pass each login is untouched, or written once with the name the secret supplies, else the former one, and with the new password if there is a name |
| `VaultNames.UsersAfter` | operator/controllers/zookeeper_vault.go:195-232 | after a pass the users are untouched, or written once: for the users in the secret, else in Vault, in order, the i-th entry is name, colon and the i-th generated password |
| `VaultNames.SecretAfter` | operator/controllers/zookeeper_vault.go:109-119 | a pass leaves an existing secret without data and request and its other annotations alone; it fails exactly when there is data but no annotations |
| `VaultNames.NewNameWins` | operator/controllers/zookeeper_vault.go:130-137 | a concrete pass: the name in the secret replaces the one in Vault |
| `VaultRotation.PassIdentities` | operator/controllers/zookeeper_vault.go:121-232 | who can log in after a pass, and that rewritten logins have the new passwords |
| `VaultRotation.SomeIdentities` | operator/controllers/zookeeper_vault.go:98-108 | no part of a pass, cut off after any of its writes, changes who can log in when the secret is emptied |
| `VaultRotation.IdentitiesSurvive` | operator/controllers/zookeeper_vault.go:121-232 | over every history of requests and of failed and successful passes with an emptied secret, both user names and the ordered list of users stay |
| `VaultRotation.NoRequestIsLost` | operator/controllers/zookeeper_vault.go:98-117 | over every history of requests and failed and successful passes, a request that is gone was served by a pass that wrote all three secrets |
| `VaultRotation.Reconciler.WriteSecret` | operator/controllers/zookeeper_vault.go:149-153 | a write raises the version by one, or nothing changes |
| `VaultRotation.Reconciler.ProcessLogin` | operator/controllers/zookeeper_vault.go:121-193 | the admin and client passes, with the name from the secret or else from Vault |
| `VaultRotation.Reconciler.ProcessUsers` | operator/controllers/zookeeper_vault.go:195-232 | the users pass, with names from the secret or else from Vault |
| `VaultRotation.Reconciler.Generate` | operator/controllers/zookeeper_vault.go:211-220 | a pair for each user with a name, in order |
| `VaultRotation.Reconciler.ProcessVaultSecrets` | operator/controllers/zookeeper_vault.go:98-119 | success is a whole pass; a failure is one cut off after some of the writes, and the stored secret still holds the request |
| `VaultRotation.Reconciler.ProcessServers` | operator/controllers/zookeeper_reconciler.go:157-188 | the loop over servers makes the passes of the cycle; wherever it fails, all passes but the last were whole, and together they are a history |
| `Conditions.Find` | operator/controllers/condition.go:55-56 | the first condition with a reason |
| `Conditions.AddCondition` | operator/controllers/condition.go:54-66 | the loop replaces the first condition with the reason if it differs, keeps it if it says the same, or appends |
| `Conditions.AddSays` | operator/controllers/condition.go:54-66 | adding keeps reasons distinct, says the new type, and changes nothing said about other reasons |
| `Conditions.AddKeepsTime` | operator/controllers/condition.go:55-64 | a condition that says the same keeps its time, another one replaces it with the new time, and all others stay |
| `Conditions.HasFailedIff` | operator/controllers/condition.go:68-75 | the scan finds a failure exactly when something is said to have failed |
| `Conditions.FailedIffNotReady` | operator/controllers/zookeeperservice_controller.go:128-143 | after the checks something has failed exactly when a component is not ready |
| `Conditions.ReportIff` | operator/controllers/zookeeperservice_controller.go:83-156 | over every run of restarts and of failed and successful cycles, the status says Successful if and only if the last event that wrote anything was a successful cycle with a changed spec and ready components (or nothing was written since a good start) |
| `Conditions.FailureSticks` | operator/controllers/zookeeperservice_controller.go:104-116 | a concrete run: after a failed cycle for an unchanged spec the next successful one leaves Failed in the status, unless the operator was restarted |
| `Conditions.Status.Update` | operator/controllers/condition.go:44-52 | in every state of the list ever there reasons are distinct and the status is true for Ready and Successful only; a failed write leaves the stored status as it was |
| `Conditions.Status.CheckAll` | operator/controllers/zookeeperservice_controller.go:128-133 | each component is Ready or Failed as its wait came out |
| `Conditions.Status.Judge` | operator/controllers/zookeeperservice_controller.go:136-151 | the verdict is Successful exactly when no condition has failed, and nothing is changed about other reasons |
| `Conditions.Status.Cycle` | operator/controllers/zookeeperservice_controller.go:83-156 | a cycle that waits reports Successful if and only if every component is Ready; a successful cycle for an unchanged spec leaves the status; every cycle is an event of the runs of ReportIff |

## Left out

- HTTP endpoints, process control, TLS, connections and logging of the backup daemon; in particular `time.ctime` and the text form of transactions, which are computed only for log lines and can raise on absurd times or error codes.
- Choosing the last snapshot and its logs, and the loop over several log files, which only repeats the filter.
- The cp437 table (taken as a bijection of bytes and text), limits and case rules of file names, archive compression.
- Requests for znodes below the top level, which the documentation excludes.
- ACLs and versions of znodes, other clients writing during a backup or restore, and ZooKeeper's refusal to change its reserved /zookeeper subtree.
- Ports and role in server lines, the script's defaults for unset variables, client_jaas.conf and the reconfig call.
- Vault policies and roles, the Vault API client, and the Vault variants of Monitoring and the Backup Daemon; the cycle model has Vault off, and versions recorded while a secret is cleaned are not part of it.
- The passwords themselves: a generated password holds no comma.
- SHA-256 and resource versions: a hash stands for what was hashed, and a version for a secret's content.
- What the providers put in pods and services: a built object stands for what is read to build it.
- Service accounts, owner references, labels, pod lists in the status, retries on conflict; a call that reports an error is taken to have changed nothing.
- Real time: a wait sees what it waits for or times out, a status is that of the current deployment, and a server that is ready and not written stays ready.
- A list of volumes or labels shorter than the number of servers, on which building a claim panics.
- A resource without a ZooKeeper section, and the integration tests component.
- zkHealth and the monitoring scripts, the container entry points, Helm charts: independent checks and templates that would add only easy members.
- ClaimCycles.ClaimsStayExact: others may change annotations but not delete claims between cycles, because a shut gate does not create them again (DeletedClaims.ServerClaimIff says exactly when they come back).
- DocumentedLog.DocumentedIff: takes the deletion of ephemeral nodes to mean their create transactions, as the code's own test does; creates inside a multi transaction, and later writes to ephemeral nodes, are kept by the code and not looked at.
- CacheSoundness.CacheSound: covers the ZooKeeper gate, and runs whose cycles all succeed, from active servers 1..k (CacheSoundIff shows that no other start will do); what a failed cycle before a successful one leads to is said by RevertedSpec.ServersBuiltIff, and the gates of Monitoring and the Backup Daemon are unsound as MonitoringFreshIff and BackupFreshIff say.
- VaultRotation.Reconciler.ProcessVaultSecrets: does not record the cleaned secret's version (line 116), because the operator's memory is part of the cycle model, which has Vault off.
- CacheSoundness.ScalingShape: covers runs from active servers 1..k whose cycles all succeed; a downscale that fails partway can leave a gap, and ActiveIff says what then follows.
