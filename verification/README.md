# Turtles etcd restore: a model and its proofs

The repository holds a Kubernetes controller that restores the etcd data of an RKE2 cluster from a
snapshot. It never logs in to a machine: it writes a *plan* (a list of shell instructions) into a Secret
per machine, an agent on the machine executes the plan and writes back the SHA-256 of what it executed,
and the controller compares checksums before it moves on. The restore object's status keeps the phase,
`""` → Started → Shutdown → Restore → Finished; the Cluster API cluster is paused meanwhile. Any call may
fail and any pass may stop half way and be repeated.

`dafny verify dfyconfig.toml` checks everything.

## How the model is built

| file | what it holds |
|---|---|
| Objects.dfy | the API objects, reduced to the fields the controllers use |
| Instructions.dfy | the instruction builders, their intended effect on a machine, crash tolerance of the plans |
| Shell.dfy | the instructions' command texts as shell commands, and that the modelled effects are theirs |
| Codec.dfy | JSON encoding and decoding of plans, hexadecimal checksums |
| Protocol.dfy | the restore as a state machine over API server, agents and machines; its runs |
| Safety.dfy | the inductive invariant |
| Guarantees.dfy | what holds in every reachable state: isolation, data survival, handshake, star, bounded writes, phase and pause |
| Progress.dfy | a measure that every effective step decreases; which inputs can never finish |
| Handshake.dfy | exactly when the first acknowledgement can be trusted; from one restore to the next |
| StaleReads.dfy | how stale the reads of the restore object may be: exactly when plans are written in turn |
| MergePatch.dfy | JSON merge patches (section 2 of RFC 7396) and the status subresource |
| Framing.dfy | what others may do between two API calls; loops over machines cut short at any point |
| Controller.dfy | the controller's code: a class with one method per function, loops, failing calls, stale reads |
| Sync.dfy | the snapshot sync controller and the backup store |
| Webhook.dfy | the mutating webhook for RKE2Config |

The controller's methods work on an `ApiServer` object. Before each API call, agents and other clients
take any number of steps (`Interfere`), and each call may fail; a failing write has had no effect or, its
reply being lost, its whole effect. Each write is recorded as an event of
`Protocol`, and `Commit` demands that the event is `Enabled`. So the methods prove that the code, under
every interleaving and every failure, produces only runs of the state machine. The theorems about runs
then hold of the code. `Operate` puts the two together for any number of passes.

Events are enabled by guards over the *current* state. That the code meets them although it read the
state earlier is part of what the methods' proofs establish.

Agents pick up a plan if and only if its hash differs from the stored checksum, execute instruction by
instruction, may lose their progress at any point and start over, and report when done.

### Assumptions

- One controller worker, and one restore object per cluster.
- The machine list, the restore's spec, the backup and the machines' addresses do not change during a
  restore. Machine names and RKE2Config names are distinct within the cluster.
- Only this controller writes plans, and nobody else pauses or unpauses. Agents delete no keys, and they
  change a secret only to report a plan they finished.
- SHA-256 has no collision between the plans compared (`HexSha` is a free constructor in Protocol.dfy;
  Codec.dfy states the assumption as `NoCollision`).
- A machine is handed to a restore `Quiet`: if its checksum is that of the kill-all plan, that plan was the
  last one executed and no other plan waits behind it. `KillHandshakeExact` shows that this is the exact
  condition under which the first acknowledgement means anything.
- `forward`: reads of the restore object may be as stale as they like but never go back to a version older
  than one read before. The restore object is read through a cache (cmd/main.go:140-147 switches it off for
  Secrets and ConfigMaps only); a cache that follows the server meets this, one that is filled again from a
  server that lags behind does not. All cross-machine results are about runs in which plans are written in
  turn (`IsRun(true, ...)`), and `InTurnIsForwardReads` shows that these are exactly the runs of a
  controller whose reads never go back. The condition cannot be weakened: by `ExactlyForwardReads`, if reads
  may go back then in every scope with a machine to restore on plans are written out of turn, a kill-all
  is believed of a machine at work, and nothing bounds the writes. With any reads whatever, the stored phase,
  the pause and the refusal of outdated passes are still proved. In Controller.dfy the cache is an object of
  its own, and `forward` says of it that it never goes back.
- `calm`: no call fails, caches are up to date, every machine is in phase Running, and only agents act.
  Only the convergence claims need it.

### What the proofs found

- `StrandedRestore`, `InvalidInputsStrand`: a backup that names no listed machine, an empty location or a
  machine without an internal address still shuts every machine down and then leaves the cluster paused
  for good. Inputs are not looked at before the shutdown. The check `initMachine == nil`
  (internal/controller/etcdsnapshotrestore_controller.go:302) never fires, because the search starts from
  an empty machine; the nil reference behind it takes the pass down instead.
- `CrashTolerant`, `JoiningTwice`, `LostTryWipes`, `FinishedOverNothing`: the plans are crash tolerant with one exception. If an
  agent gets through the last instruction of the joining plan and loses that before it reports, it starts
  over: the data directory is removed under the running server, and `systemctl start` does nothing for a
  server that runs. The plan is acknowledged all the same. `FinishedIsStar` says exactly which machines of a
  finished restore run over an empty directory, and `FinishedOverNothing` is a whole run that ends so.
- `FreshStartExact`, `WhenMisleading`: another restore may start over the same machines if and only if no
  secret has a plan waiting behind the checksum of an old kill-all. That is so after a finished restore, and
  not after one abandoned with a restore or a joining plan still to be acknowledged: the next restore takes
  the old checksum for an acknowledgement.
- `NameCollision`: two clusters of one namespace with snapshots of the same name share one backup object;
  by `StoredBackupSelectsItsMachine` it finds a machine only for the cluster that came first.
- `StoredBackupSelectsItsMachine`: the sync stores snapshots without a location too, and does not ask whether
  the machine has an internal address. A restore from such a backup strands the cluster.
- `TokenIsFound`: the webhook looks for its token secret by label in all namespaces
  (internal/webhook/rke2config_webhook.go:230-240). Two configs of one name in two namespaces make each
  other's requests fail.
- `Sync.BackupStore.Reconcile`: one malformed snapshot file keeps every later file of the list out of every
  pass. `NilNodeExactly` says when a machine without a node takes the pass down.
- `ExactlyForwardReads`: see `forward` above.
- Two different instructions share the name `remove-server-manifests`
  (internal/controller/instructions.go:54 and 66). `BuildInjective` shows the plans still differ.

## Model

| member | source | states |
|---|---|---|
| Guarantees.RestoreIsolation | internal/controller/etcdsnapshotrestore_controller.go:158-351 | In every reachable state, from the writing of the restore plan until the init machine picks up its start plan, RKE2 runs on no machine. |
| Guarantees.NothingRunsUntold | internal/controller/etcdsnapshotrestore_controller.go:233-293 | Past the shutdown no machine runs before it picked up the plan of this restore that starts it, whether or not there is a machine to restore on. |
| Guarantees.JoinOnlyBehindRestoredInit | internal/controller/etcdsnapshotrestore_controller.go:353-448 | A machine is told to wipe its data and join only once the init machine has finished the restore plan and then its start plan; it keeps running with the restored data. |
| Guarantees.JoinIsNeverLeftOver | internal/controller/etcdsnapshotrestore_controller.go:396-448 | Past the shutdown no machine holds, executes or has acknowledged a joining plan that this restore did not write; the init machine never does. |
| Guarantees.DataSurvives | internal/controller/etcdsnapshotrestore_controller.go:295-459 | Between the shutdown and any later moment every machine, the init machine included, keeps its etcd directory as it was, or the init machine holds the restored data; all lines that name no server stay, in order. |
| Guarantees.DataIsNeverGone | internal/controller/etcdsnapshotrestore_controller.go:295-459 | If some machine held etcd data once all were stopped, some machine holds data ever after, for any number of machines. |
| Guarantees.UntouchedUntilRestored | internal/controller/etcdsnapshotrestore_controller.go:353-459 | Past the shutdown a machine other than the init machine is as it was stopped in every respect, or the init machine holds the restored data. |
| Guarantees.HandshakeSound | internal/controller/etcdsnapshotrestore_controller.go:256-272 | When the awaited plan is seen acknowledged it is the last one executed, nothing older is in flight, and no agent step is possible until another plan is written. |
| Guarantees.FinishedIsStar | internal/controller/etcdsnapshotrestore_controller.go:393-454 | Finished: all machines run; the init machine has the data restored from the location without `file://` and no `server:` line; every other one has exactly the line `server: https://<address of the init machine>:9345`, has joined exactly if no try at joining was lost at its very end, and runs over an empty directory otherwise. |
| Guarantees.FinishedLines | internal/controller/etcdsnapshotrestore_controller.go:450-454 | The same of the running state and server lines of all machines at once. |
| Guarantees.RestorePathIs | internal/controller/instructions.go:43 | The path handed to the restore is the location without `file://` if it starts with that, and the location itself otherwise. |
| Guarantees.LostTryWipes | internal/controller/instructions.go:88-110 | Wherever an agent has done the last instruction of the joining plan, losing that leads to an acknowledged plan and a running server without data. |
| Guarantees.FinishedOverNothing | internal/controller/etcdsnapshotrestore_controller.go:394-454 | It happens: a whole restore of two machines, from running ones to Finished, after which the one that joined runs over an empty directory. |
| Guarantees.PlanIsServed | internal/controller/etcdsnapshotrestore_controller.go:476-492 | A plan that is written gets executed and acknowledged if its agent is left alone, and nothing else changes. |
| Guarantees.StartNeverWritesNilMap | internal/controller/etcdsnapshotrestore_controller.go:362-375 | Whenever the start handler runs, also after a stale read when all is done, there is a listed init machine and its secret's map is not nil, so the one unguarded map write is safe. |
| Guarantees.BoundedWrites | internal/controller/etcdsnapshotrestore_controller.go:476-492 | Over any run, with any retries, at most 2n + 1 plans are written for n machines. |
| Guarantees.PhaseMovesForward | internal/controller/etcdsnapshotrestore_controller.go:133-178 | Even with stale reads the stored phase only moves forward, only the five used phases occur, and Shutdown and Restore imply paused. |
| Guarantees.StoredPath | api/v1alpha1/etcdsnapshotrestore_types.go:27-46 | The phases a run stores, in order, are a prefix of `""`, Started, Shutdown, Restore, Finished, or of the same without Started. |
| Guarantees.PauseBracket | internal/controller/etcdsnapshotrestore_controller.go:149-176 | From the first plan write until Finished is stored the cluster stays paused, in every run, even with stale reads. |
| Safety.StepKeepsInv | internal/controller/etcdsnapshotrestore_controller.go:130-459 | Every step of controller, agent or another client keeps the per-machine invariant. |
| Safety.RunKeepsInv | internal/controller/etcdsnapshotrestore_controller.go:130-459 | The invariant holds in every reachable state. |
| Safety.HeldIsQuiescent | internal/controller/etcdsnapshotrestore_controller.go:328-338 | An acknowledged plan of the current phase was executed, and the agent is idle. |
| Safety.ReportExecutes | internal/controller/instructions.go:52-110 | However often the agent was interrupted, a finished plan leaves what one execution would have left, except that a joining plan lost at its very end leaves no data. |
| Progress.StepMeasure | internal/controller/etcdsnapshotrestore_controller.go:283-292 | Every effective step lowers the measure, every other step leaves it, so no retry goes round in circles. |
| Progress.RunMeasure | internal/controller/etcdsnapshotrestore_controller.go:130-179 | Over any run the effective steps so far plus the measure left never exceed the measure at the start. |
| Progress.BoundedEffort | internal/controller/etcdsnapshotrestore_controller.go:130-179 | A restore of n machines takes at most 4n + 6 effective steps (plan writes, acknowledgements, phase changes). |
| Progress.InvalidInputsStrand | internal/controller/etcdsnapshotrestore_controller.go:298-304 | With unusable inputs a restore past the shutdown never finishes: the cluster stays paused and every machine stopped. |
| Progress.StrandedRestore | internal/controller/etcdsnapshotrestore_controller.go:216-223 | That happens, for any unusable inputs and any machines: a run from machines that all run to Shutdown, paused. |
| Handshake.KillHandshakeExact | internal/controller/etcdsnapshotrestore_controller.go:256-272 | An acknowledged kill-all can be trusted after every sequence of agent moves and kill writes if and only if the machine was handed over quiet. |
| Handshake.MisleadingIsExact | internal/controller/etcdsnapshotrestore_controller.go:256-272 | In every reachable state of a restore a machine is quiet if and only if no other plan waits behind a kill-all checksum in its secret, and otherwise moves exist after which a kill-all counts as done on a machine at work. |
| Handshake.WhenMisleading | internal/controller/etcdsnapshotrestore_controller.go:295-448 | That happens exactly past the shutdown on machines with a restore or joining plan still to be acknowledged. |
| Handshake.FreshStartExact | internal/controller/etcdsnapshotrestore_controller.go:233-293 | Another restore may start over the machines of a run, wherever it was abandoned, if and only if none of their secrets is misleading. |
| Handshake.FinishedIsAFreshStart | internal/controller/etcdsnapshotrestore_controller.go:450-454 | After a finished restore it always may. |
| StaleReads.ForwardReadsSuffice | internal/controller/etcdsnapshotrestore_controller.go:89-97 | Reads that never go back, however stale, let every plan be written in turn; the newest phase read is the stored one or one edge behind it, with what that edge waited for still true. |
| StaleReads.InTurnIsForwardReads | internal/controller/etcdsnapshotrestore_controller.go:89-97 | The runs in which plans are written in turn are exactly those of a controller whose reads never go back. |
| StaleReads.InPlace | internal/controller/etcdsnapshotrestore_controller.go:476-492 | The handler of a phase that was overtaken finds its plans in place, so it writes nothing. |
| StaleReads.GoingBackBreaks | internal/controller/etcdsnapshotrestore_controller.go:89-97 | With reads that go back, in every scope with an init machine and a location, a kill-all is found acknowledged over a restore plan in flight, and at least 2m plans get written, for any m. |
| StaleReads.ExactlyForwardReads | cmd/main.go:140-147 | Plans are in turn, an acknowledged kill-all can be believed, and 2n + 1 bounds the writes, each if and only if reads never go back. |
| Controller.ApiServer.GetRestore | internal/controller/etcdsnapshotrestore_controller.go:89-97 | A copy of a version the cache holds, which may lag behind the server but not behind what it gave before; what it gives is in turn. |
| Controller.ApiServer.PatchSecret | internal/controller/etcdsnapshotrestore_controller.go:482-487 | A plan patch goes through only against the version read and changes this one secret only; one that fails has had no effect or its whole effect. |
| Controller.ApiServer.UpdatePlanSecretWithPlan | internal/controller/etcdsnapshotrestore_controller.go:476-492 | An equal plan is not written again; otherwise the plan is stored, or an error leaves the old or the new plan; it panics if and only if the map is nil. |
| Controller.ApiServer.GetPlanSecretForMachine | internal/controller/etcdsnapshotrestore_controller.go:461-474 | The copy is the secret as stored at the time of the call. |
| Controller.ApiServer.NewScope | internal/controller/etcdsnapshotrestore_controller.go:185-231 | No scope without a cluster and a backup name; otherwise the listed machines of the cluster, the backup, and the first machine the backup names, or none. |
| Controller.ApiServer.AllMachinesRunning | internal/controller/etcdsnapshotrestore_controller.go:142-147 | True exactly if every machine was listed in phase Running. |
| Controller.ApiServer.WaitForMachines | internal/controller/etcdsnapshotrestore_controller.go:142-156 | If any was not, the pass asks to be called again and nothing is paused or written. |
| Controller.ApiServer.PatchCluster | internal/controller/etcdsnapshotrestore_controller.go:150-156 | The pause is stored as asked, never over a newer version of the cluster; one that fails has had no effect or its whole effect. |
| Controller.ApiServer.GetInternalMachineIP | internal/controller/etcdsnapshotrestore_controller.go:514-521 | The first internal address, or the empty string for none and for the empty machine. |
| Controller.ApiServer.StopRKE2OnAllMachines | internal/controller/etcdsnapshotrestore_controller.go:233-293 | Moves on iff every machine acknowledged; at an error the machines before it hold the plan, those after it are untouched, and the phase stays. |
| Controller.ApiServer.RestoreSnapshotOnInitMachine | internal/controller/etcdsnapshotrestore_controller.go:295-351 | The plan restores from the backup's location without `file://`. Moves on only with it acknowledged, asks to wait only if it was not; panics exactly when the location is set and no machine is named; touches no other machine. |
| Controller.ApiServer.StartInitMachine | internal/controller/etcdsnapshotrestore_controller.go:362-391 | The init machine gets its start plan without a nil-map panic; completion means it is acknowledged. |
| Controller.ApiServer.StartOtherMachines | internal/controller/etcdsnapshotrestore_controller.go:394-458 | Complete iff every other machine acknowledged the joining plan; at an error the machines before it hold it and those after it are untouched. |
| Controller.ApiServer.StartRKE2OnAllMachines | internal/controller/etcdsnapshotrestore_controller.go:353-459 | Finishes only with the init machine's and then all joining plans acknowledged; never panics while reads do not go back. |
| Controller.ApiServer.HandlePhase | internal/controller/etcdsnapshotrestore_controller.go:158-178 | A pass moves to the next phase if it completes, which all acknowledgements earned, and keeps the phase otherwise; only a finished restore gets unpaused, and is unpaused if it completes. |
| Controller.ApiServer.PauseAndHandle | internal/controller/etcdsnapshotrestore_controller.go:149-178 | Nothing is handled before the pause is stored; a Finished pass that completes ends unpaused all the same, whatever failed before. |
| Controller.ApiServer.ReconcileNormal | internal/controller/etcdsnapshotrestore_controller.go:130-179 | A new object becomes Started in memory even if the pass fails; only the phase of the copy changes, to the next one exactly if the pass completes, and as may be persisted; without a cluster and a backup name it fails with nothing done. |
| Controller.ApiServer.PatchRestore | internal/controller/etcdsnapshotrestore_controller.go:113-115 | The first patch stores nothing and overwrites the computed status in memory with the stored one. |
| Controller.ApiServer.PatchRestoreStatus | internal/controller/etcdsnapshotrestore_controller.go:117-121 | The second patch stores exactly the computed status, nothing if the version read is not the latest, and one of the two if its reply is lost. |
| Controller.ApiServer.PatchBoth | internal/controller/etcdsnapshotrestore_controller.go:111-121 | Without an error the stored object is the one read with the computed status and nothing else changed; a stale copy stores nothing. |
| Controller.ApiServer.Reconcile | internal/controller/etcdsnapshotrestore_controller.go:82-128 | An object being deleted ends the pass, complete, with nothing done. Else a pass that returns has stored the status it read, with the next phase if it completed and the same one if it has to wait; a stale one stores nothing; a Finished pass that completes ends unpaused; a calm pass over idle agents with usable inputs lowers the stage. |
| Controller.ApiServer.Operate | internal/controller/etcdsnapshotrestore_controller.go:82-179 | Any number of passes over a cache that lags but never goes back, each failing anywhere: at most 2n + 1 plan writes, the phase never falls back, if the restore finishes every machine runs with the right server line, and once it was read as being deleted nothing is written, paused or unpaused. |
| Framing.SameWrites | internal/controller/etcdsnapshotrestore_controller.go:476-492 | A state the controller has not touched comes with no further plan writes. |
| Controller.ApiServer.RunUntilFinished | internal/controller/etcdsnapshotrestore_controller.go:130-179 | With usable inputs and no failures the restore is finished after at most 7 rounds, for any number of machines. |
| Controller.ApiServer.RunToTheEnd | internal/controller/etcdsnapshotrestore_controller.go:165-176 | One more round, at most the 8th, unpauses the cluster. |
| Controller.ApiServer.Settle | internal/controller/instructions.go:116-121 | Agents left alone come to rest, touching nothing but their own secret and host. |
| Framing.Listed | internal/controller/etcdsnapshotrestore_controller.go:200-208 | The machines of the namespace with the cluster's label, all of them and no other. |
| Framing.FirstNamed | internal/controller/etcdsnapshotrestore_controller.go:216-223 | A machine of that name if there is one, none otherwise. |
| Framing.InternalIPIsFirst | internal/controller/etcdsnapshotrestore_controller.go:514-521 | The address used is that of the first internal address, and empty exactly where none is listed or the first is empty. |
| Framing.NamedLikeInit | internal/controller/etcdsnapshotrestore_controller.go:396-399 | The comparison by name skips exactly the init machine. |
| Framing.AppliedStays | internal/controller/etcdsnapshotrestore_controller.go:261-272 | What the controller saw acknowledged stays so whatever others do until it writes there again. |
| Framing.InStepAfter | internal/controller/etcdsnapshotrestore_controller.go:237-281 | A handler whose phase was overtaken stays so: its plans are in place and nothing it does changes that. |
| Framing.EarnedStays | internal/controller/etcdsnapshotrestore_controller.go:283-287 | What a phase change waited for still holds when the status is patched later. |
| Framing.MayWriteStays | internal/controller/etcdsnapshotrestore_controller.go:372-424 | A plan that may be written when the handler decides may still be written when the patch arrives. |
| Framing.StageStays | internal/controller/etcdsnapshotrestore_controller.go:158-178 | Nobody but the controller moves a restore back or forward. |
| Instructions.CrashOutcome | internal/controller/instructions.go:26-110 | Any number of interrupted tries, each through any prefix, and then one whole execution, leave what one execution leaves, except that a joining plan with a try cut after its last instruction leaves no data. |
| Instructions.CrashTolerant | internal/controller/instructions.go:26-110 | So tries and one execution equal one execution if and only if the server ran at first, the plan does not join, or no try was lost at its very end. |
| Instructions.JoiningTwice | internal/controller/instructions.go:88-110 | From any stopped machine, joining twice leaves a running server over an empty directory, joining once a joined one. |
| Instructions.JoinEffect | internal/controller/etcdsnapshotrestore_controller.go:403-409 | The joining plan leaves exactly the line `server: https://<ip>:9345` and every other line in order; a stopped machine's data is replicated from that server, and under a running one it is removed. |
| Instructions.TrimPrefixIs | internal/controller/instructions.go:43 | A prefix that is there is cut off, and a text without it stays as it is. |
| Instructions.BuildIs | internal/controller/instructions.go:26-110 | Each instruction's name, `/bin/sh -c`, and saved output. |
| Shell.TextsMeanEffects | internal/controller/instructions.go:26-110 | The arguments of every instruction are the words of a shell command whose effect on any machine is the one the model gives the instruction. |
| Shell.ServerUrlText | internal/controller/instructions.go:76-86 | The joining instruction appends exactly the line the joined machine ends up with. |
| Shell.ManifestPattern | internal/controller/instructions.go:58 | The manifests purged are those the pattern in the command matches. |
| Instructions.RestoreEffect | internal/controller/etcdsnapshotrestore_controller.go:313-317 | The restore plan drops every server line, keeps all others, loads the snapshot and neither starts nor stops RKE2. |
| Instructions.NonServerTwice | internal/controller/instructions.go:64-74 | Removing server lines leaves none and is idempotent. |
| Instructions.BuildInjective | internal/controller/instructions.go:26-110 | Two intended instructions are written alike only if they are the same, although two builders share a name. |
| Instructions.BuildAllInjective | internal/controller/etcdsnapshotrestore_controller.go:313-317 | So are whole plans, for any snapshot path and address. |
| Codec.HexEncodeIs | internal/controller/instructions.go:118 | Each byte gives the two lower-case digits of RFC 4648, the high one first, in order. |
| Codec.HexInjective | internal/controller/instructions.go:118 | Hexadecimal encoding loses nothing. |
| Codec.OtherEscapes | internal/controller/instructions.go:112-114 | Control characters are escaped by their code, and nothing but they and the characters of `Codec.EscapesAre` is escaped. |
| Codec.InstructionText | internal/controller/instructions.go:17-24 | The text of an instruction: its fields by their JSON names and in their order, the empty ones left out. |
| Codec.PlanText | internal/controller/instructions.go:13-15 | A plan's text is its list under `instructions`, or an empty object. |
| Codec.ReadEscapedAll | internal/controller/instructions.go:112-114 | Reading back an escaped string gives the string, whatever follows its closing quote. |
| Codec.ParsePrint | internal/controller/instructions.go:112-114 | Parsing a printed JSON value gives the value and leaves what follows it. |
| Codec.DecodeEncode | internal/controller/instructions.go:13-24 | Decoding the encoding of any instruction list gives the list back, omitted empty fields included. |
| Codec.SameBytesSamePlan | internal/controller/etcdsnapshotrestore_controller.go:479 | Two encoded plans are equal byte for byte if and only if the lists are equal. |
| Codec.AppliedMeansSamePlan | internal/controller/instructions.go:116-121 | With any hexadecimal text of one plan's digest stored, whoever wrote it, another plan counts as applied if and only if it is the same plan. |
| MergePatch.ApplyDiff | internal/controller/etcdsnapshotrestore_controller.go:97-121 | Applying the merge patch between two documents to the first gives the second. |
| MergePatch.DocRoundTrip | api/v1alpha1/etcdsnapshotrestore_types.go:52-69 | A restore object is determined by its document, with omitted empty fields. |
| MergePatch.PatchesWriteTheChange | internal/controller/etcdsnapshotrestore_controller.go:113-121 | Against the version it was computed from, the main patch writes all but the status and the status patch the status and nothing else. |
| MergePatch.StoreStatus | internal/controller/etcdsnapshotrestore_controller.go:119-121 | What is stored is the base with the changed status. |
| Sync.MachineForIsRight | internal/controller/etcdsnaphotsync_controller.go:218-233 | The machine found is of this cluster and on this node, and if none is found there is none. |
| Sync.NilNodeExactly | internal/controller/etcdsnaphotsync_controller.go:224-230 | The search takes the pass down if and only if a machine of the cluster without a node stands before any on this node. |
| Sync.BackupStore.FindMachineForBackup | internal/controller/etcdsnaphotsync_controller.go:218-233 | The search loop finds what `MachineFor` says, a machine without a node included. |
| Sync.BackupStore.HandleFile | internal/controller/etcdsnaphotsync_controller.go:111-154 | One file is dealt with, storing at most its own backup, or nothing changes; an error may hide that it was. |
| Sync.BackupStore.HandleFiles | internal/controller/etcdsnaphotsync_controller.go:111-154 | The files are handled in order; without failing calls the loop stops only at a file that does not move on. |
| Sync.BackupStore.Reconcile | internal/controller/etcdsnaphotsync_controller.go:45-157 | A pass handles the files in order up to where it ends, all of them if it ends well, none at or behind a malformed one, and none for a cluster that is paused, not RKE2 or not ready. |
| Sync.GrowOnly | internal/controller/etcdsnaphotsync_controller.go:146-153 | A backup that exists is never changed or removed, over any passes of any clusters, cut short anywhere. |
| Sync.ExtractIs | internal/controller/etcdsnaphotsync_controller.go:179-216 | A snapshot is read from exactly the files with `metadata.name`, `spec.location`, `spec.nodeName` as strings and `status.readyToUse` as a flag. |
| Sync.MakesExactly | internal/controller/etcdsnaphotsync_controller.go:114-144 | A backup is made of exactly the files that describe a ready snapshot on the node of a machine found for it, with that name, location, machine and cluster. |
| Sync.StopsExactly | internal/controller/etcdsnaphotsync_controller.go:114-127 | A file ends the pass if and only if it is malformed, or ready with a machine without a node listed before its own. |
| Sync.Justified | internal/controller/etcdsnaphotsync_controller.go:119-144 | Every backup that appears comes from a file some pass saw that described a ready snapshot, on the node of a machine of its cluster. |
| Sync.EverySnapshotHasBackup | internal/controller/etcdsnaphotsync_controller.go:111-156 | After a pass every file that describes a ready snapshot on the node of a machine found has a backup of its name, and it describes this snapshot if and only if no different one of that name was stored before. |
| Sync.RepeatingChangesNothing | internal/controller/etcdsnaphotsync_controller.go:146-150 | Repeating a pass changes nothing, whatever passes came in between. |
| Sync.StoredBackupSelectsItsMachine | internal/controller/etcdsnapshotrestore_controller.go:199-223 | For every backup any passes stored: as long as its machine exists, in whatever state, a restore of its cluster selects it and a restore of any other none, its snapshot was seen ready there, and the restore has usable inputs if and only if location and address are not empty. |
| Sync.BackupSelectsItsMachine | internal/controller/etcdsnapshotrestore_controller.go:199-223 | A backup whose machine exists selects it for the backup's own cluster, and none for any other. |
| Sync.NameCollision | internal/controller/etcdsnaphotsync_controller.go:134-150 | Two clusters of a namespace with snapshots of one name: the second pass ends well and the backup stays the first cluster's. |
| Webhook.NamesAreInjective | internal/webhook/rke2config_webhook.go:193-195 | The names derived from a config, for all its resources, are jointly injective in config and resource. |
| Webhook.NameIs | internal/webhook/rke2config_webhook.go:64 | Each derived name is the config name followed by its fixed suffix. |
| Webhook.KeysAreInjective | internal/webhook/rke2config_webhook.go:308-316 | No two resources of any configs share a kind, a namespace and a name. |
| Webhook.RKE2ConfigWebhook.CreateSecretPlanResources | internal/webhook/rke2config_webhook.go:132-216 | The five resources are created in order up to the first failure, which may still have created its one; one that exists counts as created. |
| Webhook.RKE2ConfigWebhook.CreateConnectInfoJson | internal/webhook/rke2config_webhook.go:259-339 | Unless the path is there already the file is appended exactly on success, and then the secret exists. |
| Webhook.RKE2ConfigWebhook.CreateSystemAgentInstallScript | internal/webhook/rke2config_webhook.go:341-383 | The same for the install script. |
| Webhook.RKE2ConfigWebhook.CreateConfigYAML | internal/webhook/rke2config_webhook.go:385-406 | The agent's configuration file is appended unless its path is there already. |
| Webhook.RKE2ConfigWebhook.AddPostInstallCommands | internal/webhook/rke2config_webhook.go:408-417 | The install command is appended unless it is there already. |
| Webhook.RKE2ConfigWebhook.Default | internal/webhook/rke2config_webhook.go:54-130 | A request makes a first part of its creates, all of them if it succeeds, and then has the defaulted files and commands; unless a call fails it succeeds if and only if settings and token are there and exactly one token secret of its name exists in all namespaces. |
| Webhook.TokenIsFound | internal/webhook/rke2config_webhook.go:230-240 | Exactly one is found if and only if no config of the same name in another namespace has one. |
| Webhook.DefaultedOnce | internal/webhook/rke2config_webhook.go:262-336 | The given files stay in front, all three paths are present, only missing ones are added, and a second defaulting adds nothing. |
| Webhook.CommandOnce | internal/webhook/rke2config_webhook.go:408-417 | The same for the command list. |
| Webhook.RetriesAddNothing | internal/webhook/rke2config_webhook.go:207-213 | A request that failed at any creates, any number of times, leaves in the end what one success leaves. |
| Webhook.DefaultTwice | internal/webhook/rke2config_webhook.go:54-130 | Defaulting a defaulted config creates nothing, whatever the settings have become and whatever requests came in between. |
| Webhook.NobodyElsesObject | internal/webhook/rke2config_webhook.go:207-213 | However creates of any configs interleave, what is stored for a resource of a config was made for it. |
| Webhook.FilesAre | internal/webhook/rke2config_webhook.go:326-402 | The three files in full; the agent's configuration names the connect-info file, and the install command runs the script that was added. |
| Webhook.AgentReachesItsPlan | internal/controller/etcdsnapshotrestore_controller.go:467 | After a request account, plan secret, role, binding and token secret stand in full under the name the restore controller looks up; an added connect-info file points to that secret with the server, authority and token of a request for this config, and the script has its server. |

## Left out

- Kubernetes client, caches, watches, requeue timing, leader election, access rules, custom resource definitions: only get, list, create and patch with a resource version remain. A restore object that is gone is not modelled; a failed read ends the pass with nothing stored.
- Applied output: gzip and JSON of the agent's output are an external call that may fail. The result is only logged.
- SHA-256: its internals; see the assumptions.
- Shell and system effects: each instruction has its intended effect. As written, the snapshot path of the restore instruction stands after the `-c` string, where `sh` takes it as `$0` and not as an argument of `rke2` (internal/controller/instructions.go:42-46); the model uses what is intended. Removing the data under a running server is taken to leave no data there, and of the shell only the words in Shell.dfy are read, in which an address or a path must not hold quotes.
- Configuration files are lists of newline-terminated lines: appending to a file whose last line is not terminated would merge the two.
- Hosts change only by what agents execute; machines do not fail or restart on their own.
- Plan failure: not handled by the code, so an agent here either finishes a plan or tries it again. The unused phases are declared and shown unreachable.
- Nil references outside the protocol: a machine without `ConfigRef` is not modelled. A machine without `NodeRef` takes the sync pass down (`Sync.NilNode`), a backup that names no machine the restore pass.
- Stale reads: only the restore object and the cluster's version may be stale in the restore controller, the restore object without going back where `forward` is assumed. Cached machines, RKE2Configs and backups are fixed by assumption. Agents read their secret fresh.
- Plan secrets are keyed by the RKE2Config's name; `Webhook.NamesAreInjective` justifies that.
- Codec: strings are sequences of Unicode characters, not UTF-8 bytes. The decoder reads no white space and no surrogate pairs; the encoder produces neither. The escapes are those of Go 1.21, the version the module names.
- Machines that are no servers: `newScope` lists every machine of the cluster, workers included, and the model takes each for an RKE2 server with an etcd directory, as the plans do.
- Controller.ApiServer.PatchRestore: the labels an outside client changes between read and patch are not merged; the version check refuses such a patch.
- Sync: the watch on the remote cluster and the failing of remote calls are one call that may fail. The backups are written by nobody else.
- Webhook: the install script's text, the kubeconfig's encoding and the retry that waits for the service account token; a request's settings are inputs. A resource of the right name that somebody else created is not told apart by the code, so `Webhook.AgentReachesItsPlan` starts from a store this webhook filled.
- Webhook.RKE2ConfigWebhook.Default: other requests do not act between two creates of one call; interleavings are covered by the lemmas over logs of creates.
- EtcdMachineBackupReconciler: its handlers are empty.
