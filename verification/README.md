# Medea, modelled and proved

Medea manages Talos Linux clusters from outside: an embedded store keeps what each cluster should look
like, a server edits that store, and reconcilers drive nodes and machines towards it. This project
models the parts of Medea whose correctness spans whole runs and proves what they promise over every
input, every interleaving and every crash.

Verify everything with `dafny verify dfyconfig.toml`.

## How the model is laid out

| files | what they model |
|---|---|
| `Text`, `Records` | strings in key order; the persisted messages; compound keys and the prefix scan |
| `StoreModel`, `BoltStore` | the store as a value with one transition per operation, and the class that updates buckets, counter, observed caches and subscriber channels in place and refines it |
| `Watch`, `Watcher` | a watcher's register, snapshot-read and forward steps interleaved with any writers; the class that takes those steps |
| `Backup` | export and import |
| `Handlers`, `Server`, `System`, `Switches` | the server's read-modify-write retry loop alone, as code, and among any number of other handlers, deletes, crashes and executor passes; what a committed pause or stop means for the reconcilers |
| `RolloutModel`, `RolloutProtocol`, `RolloutTheorems`, `Rollout`, `Image` | the OS rollout: the calls and record writes of a pass, a protocol automaton every pass follows, the theorems read off it, and the class that makes the calls |
| `Kubernetes`, `Executor`, `JobRollout`, `Drain` | the Kubernetes upgrade, the job executor, one job with the passes it drives, the drain loop |
| `ProvisionModel`, `ProvisionLifecycle`, `ProvisionTheorems`, `ProvisionEffects`, `ProvisionConsistency`, `ProvisionRepair`, `ProvisionMoves`, `Provision` | the provisioning pass as a list of record writes and calls, the lifecycle every prefix of it respects, what each effect is about, convergence, consistency, what is and is not repaired after a cut, what registering a host again does to all that, and the class that performs it |
| `BootstrapModel`, `BootstrapTheorems`, `Bootstrap` | the bring-up phase machine in the same style |
| `Slices` | the reconcilers' records are the store's: running their writes against the store moves exactly the slice the reconciler models say |

Two conventions run through it. Effects are explicit: a pass is a sequence of record writes and outside
calls, and a crash or an error is a cut after any of them, so a theorem about every cut of every pass is
a theorem about crashes between any two effects. The outside world (Talos, Kubernetes, Matchbox, the
clock) answers arbitrarily; its answers are parameters.

Where the code falls short of what one might expect of it, the model keeps the code, and each such place
has a concrete failing input and the exact condition under which the expectation holds:

| expectation | fails at | holds exactly when |
|---|---|---|
| teardown touches only its cluster | `Keys.NulCollision` | `StoreModel.TeardownExactIff` |
| a backup restores everything | `Backup.ArmedHostIsLost` | `Backup.RoundTripIff` |
| an event key names one record of its kind | `Keys.SlashCollision` | `Keys.SlashKeysMeetIff` |
| a watcher sees every announcement | `WatchModel.OneWriteTooMany` | `WatchModel.LiveExactIff` |
| a disabled cluster is not called | `System.StaleCallHappens` | `System.CallAfterDisableIff` |
| a job drives its pool once | `JobRollout.SecondUpgradeAfterCrash` | `JobRollout.SecondDriveIff`; for the nodes, `JobRollout.BetweenUpgrades` says what must come between two upgrades of one |
| a node recorded Done is uncordoned | `RolloutTheorems.DoneWhileCordoned` | `RolloutTheorems.DoneCordonedIff` |
| a nil Kubernetes pass means every node is there | `KubernetesRollout.NilWithWorkerBehind` | `KubernetesRollout.NilConvergedIff` |
| a drain the deadline ends names the pods left | `Drain.DeadlineDuringEviction` | `Drain.DeadlineNamesPodsIff` |
| a bind keeps host, Machine and membership in step | `ProvisionRepair.CutBindHappens` | `ProvisionConsistency.CutBindIff` |
| a cut scale-in is finished by the next pass | `ProvisionRepair.LowerMacTakesOver` | `ProvisionConsistency.CutScaleInFinishedIff`, `ProvisionRepair.HalfRemovedIff` |
| registering a host again keeps one in flight per pool, and records in step | `ProvisionMoves.MoveBreaks` | `ProvisionMoves.MoveKeepsOneInFlightIff`, `ProvisionMoves.MoveKeepsConsistentIff` |

The drain's documentation promises a timeout error naming the blocking pods; when the deadline passes
during an eviction call the code reports that one eviction's error instead, and the model follows the code.

Assumptions, all taken from how the source is used: a bbolt transaction is atomic and encoding loses
nothing; pool members are distinct and non-empty; the rollout reconciler's own record writes succeed;
credential reads fail only when the entry is absent; Talos initialises a node at most once and says
"already" only of an initialised node. Cluster names are taken to be NUL-free only where a contract says so.

## Model

| member | source | states |
|---|---|---|
| Text.LessIff | internal/rollout/rollout.go:103-104 | the order used for members, MACs and keys is Go's: a proper prefix comes first, else the lower character at the first difference |
| Keys.HasPrefix | internal/store/store.go:798-808 | the byte-by-byte test decides exactly the prefix relation |
| Keys.ScanReach | internal/store/store.go:605-622 | over all names whatsoever, exactly which records a cluster's prefix scan reaches |
| Keys.ScanExact | internal/store/store.go:392-409 | with NUL-free cluster names a scan reaches that cluster's records and no other |
| Keys.CKeyInjective | internal/store/store.go:205 | with NUL-free cluster names two identities never share a compound key |
| Keys.NulCollision | internal/store/store.go:205 | a NUL in a name makes two identities share a key and puts one in the other's scan |
| Keys.SlashKeysMeetIff | internal/store/store.go:515 | over all names whatsoever, exactly when two identities are announced under one `cluster/name` key; never with slash-free cluster names |
| Keys.SlashCollision | internal/store/store.go:515 | a slash in a cluster name makes two identities share an event key |
| Records.EventNames | internal/store/store.go:411-418 | the key announced for a record is its own cluster, a slash and its own name, or the bare cluster name, for each of the eight kinds |
| Records.SameKeyIffSameSlot | internal/store/store.go:205 | with NUL- and slash-free cluster names two records of a kind share an event key exactly when they share a place |
| Records.Stamp | internal/store/store.go:278-303 | what is written keeps kind and key, carries the new revision, and never carries observed state |
| StoreModel.RunInv | internal/store/store.go:138-303 | over every run of puts, refused puts, deletes, watch operations and crash/reopen: revisions pairwise distinct and at most the counter, lastRev equals the counter, every record under the key its fields give, no observed state on disk, channels ordered and bounded |
| StoreModel.StepInv | internal/store/store.go:518-650 | each single operation, deletes and teardown included, keeps that invariant |
| StoreModel.RevisionNamesRecord | internal/store/store.go:193-202 | across any run with deletes, re-creations and crashes, equal revisions mean the same record under the same key: no ABA |
| StoreModel.CasExact | internal/store/store.go:212-247 | a put is accepted exactly when named and expected equals the current revision; refused changes and publishes nothing; accepted changes that one key, returns a fresh revision, reads back, and announces itself to every channel with room |
| StoreModel.InvalidIff | internal/store/store.go:367-374 | a put is refused as invalid exactly when a name the record goes by is empty, field by field for each kind; a job may leave its pool empty |
| StoreModel.ClusterObservedReadsBack | internal/store/store.go:330-347 | what is set as observed of a cluster is what the next read of that cluster shows; no other read and nothing on disk changes |
| StoreModel.MachineObservedReadsBack | internal/store/store.go:420-437 | likewise for a machine |
| StoreModel.ObservedIsForgotten | internal/store/store.go:626-650 | a restart forgets every observation, and a machine or cluster deleted and made again starts without one |
| StoreModel.ListedRecords | internal/store/store.go:439-462 | a listing holds exactly the records under the scanned keys, observed cache overlaid |
| StoreModel.TeardownExactIff | internal/store/store.go:549-601 | teardown removes all and only the cluster's records if and only if no stored identity is confusable with the cluster's prefix |
| StoreModel.TeardownScope | internal/store/store.go:549-622 | with NUL-free names teardown leaves exactly the other clusters' records, unchanged, in all eight buckets and both observed caches |
| Bolt.BoltStore.Open | internal/store/store.go:138-179 | reopening keeps the disk, restores lastRev from the counter and starts with empty caches and no subscribers |
| Bolt.BoltStore.Publish | internal/store/watch.go:18-27 | every channel with room gains the event, a full one is left as it is |
| Bolt.BoltStore.PutCAS | internal/store/store.go:212-247 | the in-place update is the model's compare-and-swap put, result included |
| Bolt.BoltStore.PutLWW | internal/store/store.go:251-274 | the in-place update is the model's last-writer-wins put |
| Bolt.BoltStore.DeleteHost | internal/store/store.go:518-539 | the in-place delete is the model's |
| Bolt.BoltStore.DeleteMachine | internal/store/store.go:626-650 | the in-place delete, with its observed entry, is the model's |
| Bolt.BoltStore.DeleteByClusterPrefix | internal/store/store.go:605-622 | the cursor loop removes exactly the scanned keys of one bucket |
| Bolt.BoltStore.DeleteCluster | internal/store/store.go:549-601 | bucket loops and cache loops together are the model's teardown |
| Bolt.BoltStore.Read | internal/store/store.go:330-347 | returns the stored record with the observed cache overlaid, and its revision or 0 |
| Bolt.BoltStore.List | internal/store/store.go:392-409 | returns the scanned records in key order |
| Bolt.BoltStore.SetMachineObserved | internal/store/store.go:778-782 | touches only the in-memory cache |
| WatchModel.ActsInv | internal/store/watch.go:32-81 | what every interleaving of a watcher's steps with any writers keeps |
| WatchModel.StreamIncreasing | internal/store/watch.go:32-81 | the emitted stream is strictly increasing in revision under every interleaving |
| WatchModel.StreamComplete | internal/store/watch.go:32-169 | with no drop and a successful snapshot read, a drained stream contains, for every stored non-bootstrap record newer than since, an event that names that record by its own kind, cluster and name, at its current revision |
| WatchModel.PutIsNamed | internal/store/store.go:212-247 | whatever is put, the one event announced names the record that is then stored, at its new revision |
| WatchModel.PutAndDeleteAgree | internal/store/store.go:511-539 | storing a record and deleting it are announced under one and the same kind and key, which name it, and the delete removes it |
| WatchModel.LiveExactIff | internal/store/watch.go:18-27 | the live part with what is queued is exactly the announcements since registration if and only if, at every action of the run that announces something, fewer announcements than a channel holds are still to be forwarded |
| WatchModel.OneWriteTooMany | internal/store/watch.go:21-24 | from any store, the 257th write with nothing forwarded leaves a gap |
| Watching.SortByRevision | internal/store/watch.go:167-168 | sorting yields the same events in increasing revision |
| Watching.Watcher.constructor | internal/store/watch.go:32-50 | capturing the snapshot revision and joining the subscribers is one step of the model |
| Watching.Watcher.SnapshotEvents | internal/store/watch.go:85-169 | the scan returns, in revision order, one event for exactly the records of the scanned buckets with revision in the window |
| Watching.Watcher.ReadSnapshot | internal/store/watch.go:54-55 | the read is the model's step, and a failed one goes live with nothing to replay |
| Watching.Watcher.Send | internal/store/watch.go:56-79 | one send is the model's replay or forward step |
| Backup.Export | internal/store/watch.go:181-232 | the document the loops build is the model's export |
| Backup.Import | internal/store/watch.go:236-294 | the loops put records in document order, each against the revision just read, until one fails |
| Backup.ExportContents | internal/store/watch.go:181-232 | the document holds exactly the records reachable from a Cluster record, as stored |
| Backup.ImportEffect | internal/store/watch.go:236-294 | import overwrites exactly the named identities with the named contents and leaves the rest |
| Backup.RestoreOver | internal/store/watch.go:181-294 | a backup restored over any store: the reached records, and everything else untouched |
| Backup.RoundTripIff | internal/store/watch.go:181-294 | restored into an empty store, a backup reproduces the desired state up to revision if and only if every record belongs to an existing Cluster record |
| Backup.ArmedHostIsLost | internal/server/server.go:163-173 | a backup taken between a confirmed create and its Cluster record loses the host |
| Handlers.PutAfterRead | internal/store/store.go:212-247 | whatever ran since the read, a put under its revision commits only as an atomic update of the record stored at that moment |
| Handlers.RmwAtomic | internal/server/server.go:330-348 | a call that answers with a revision took effect once, atomically, at the end of one of two attempts; an error changed nothing; it gives up on contention only after the record changed under it |
| Handlers.CommittedReadsBack | internal/server/server.go:233-348 | after every call that answers with a revision, a read shows the fields that call sets as asked, every other field of the record and every other record as before, and that revision; field by field for each handler |
| Handlers.UndisturbedIff | internal/server/server.go:238-247 | with nobody in between, which answer a call gets: NotFound, FailedPrecondition or success, each exactly when |
| Serving.ReadModifyWrite | internal/server/server.go:330-348 | the two-attempt loop over the mutable store, with other operations in between, is that call, and what it commits reads back field by field |
| System.NoLostUpdate | internal/server/server.go:233-399 | for any number of handlers interleaved at Get/Put granularity with deletes and re-creates, each stored record is the fold of the committed mutations in revision order since its creation |
| System.AnswerReadsBack | internal/server/server.go:233-399 | at the very step at which a call is answered with a revision, a read shows what it asked for and nothing else new |
| System.ReadAnswers | internal/server/server.go:238-247 | the answers a call can get at its read, each exactly when |
| System.WriteAnswers | internal/server/server.go:330-348 | at its write a call commits exactly when its record has not changed since its read; a lost race sends an unpinned one back once and ends any other Aborted |
| System.PinnedCommitsOverPin | internal/server/server.go:245-247 | over every interleaving, a call that pins a revision commits only over a record still at that revision, and is never tried twice |
| System.CrashEndsCalls | internal/server/server.go:330-348 | a crash ends every call that has not answered, the grants of new rollouts and the executor's pass; answers given stand |
| Switches.PausedPoolIsLeftAlone | internal/rollout/rollout.go:80-82 | from a committed pause until a resume or a rewrite of that pool commits, over every run in between, a rollout pass over the stored pool makes no call |
| Switches.StoppedProvisioningDoesNothing | internal/provision/reconciler.go:73-75 | from a committed stop until provisioning is turned on again or the cluster record is rewritten, no pass on any pool has an effect |
| Switches.GrantedIff | internal/server/server.go:412-424 | a new rollout gets past its guards exactly when the cluster is stored, enabled and not in auto mode |
| Switches.AutoGetsNoRollout | internal/server/server.go:422-424 | over every run in which its record is not rewritten, a cluster in auto mode is granted no new rollout |
| System.AnsweredIffCommitted | internal/server/server.go:330-348 | a call answers with a revision if and only if it committed, exactly once, within two attempts |
| System.EnableGuard | internal/server/server.go:352-434 | until a write that enables the cluster commits, no run of handlers, seeding, deletes, crashes and executor steps, each pass over what it listed, makes a call for it or gives it a first job |
| System.CallAfterDisableIff | internal/rollout/executor.go:81-154 | from any reachable state with the cluster disabled, over any run that does not enable it: a call for it is made if and only if the listings then held show it on and a drive of it calls before the next listing or crash |
| System.NoCallAfterNextListing | internal/rollout/executor.go:81-92 | so none is made once the executor lists again or restarts |
| System.ListedJobsExact | internal/store/store.go:744-761 | with NUL-free cluster names the executor's job listing is exactly the cluster's stored jobs |
| System.FlagHasCause | internal/seed/seed.go:87-97 | the enabled flag can only come from where the history stood, or from a commit since then that sets it |
| System.CallAfterDisable | internal/rollout/executor.go:104-108 | with a drive at hand, a disable that commits does not stop its next call |
| System.StaleCallHappens | internal/rollout/executor.go:81-154 | a run in full: the pass reaches its drive, the disable commits, the drive still calls |
| Image.RepositoryKeptIff | internal/talos/image.go:42-52 | for every current image and target, the derived image is the kept repository, registry port and schematic included, and the target; it reads back as that repository if and only if the target has neither colon nor slash |
| Image.ImageCases | internal/talos/image.go:42-52 | a tag is replaced whatever the repository in front of it holds, an untagged image gets the target added, and an empty one becomes the default installer |
| Image.LastTagWinsIff | internal/talos/image.go:42-52 | upgrading through an intermediate version ends at the same image if and only if that version has neither colon nor slash |
| RolloutProtocol.PassFollows | internal/rollout/rollout.go:72-146 | every pass, whatever the answers, follows the per-node protocol automaton |
| RolloutTheorems.GateIff | internal/rollout/rollout.go:72-109 | a pass gets past its checks exactly when the pool is stored and not paused, a version is wanted (the pool's own, else the cluster's) and nodes are listed; what it then works with, in the stored pool's terms |
| RolloutTheorems.RecordTellsStage | internal/rollout/rollout.go:224-279 | however a pass is cut, before a node is drained its record says Draining, before it is upgraded Upgrading, and while it is waited for and uncordoned WaitingHealthy |
| RolloutTheorems.ResumeNeverRedrains | internal/rollout/rollout.go:111-146 | over every run of cut passes, a node whose record says Upgrading or WaitingHealthy is never snapshotted or drained |
| RolloutTheorems.UpgradesAreSettled | internal/rollout/rollout.go:224-279 | over every run of cut passes, between two UpgradeOS calls on one node its record has been Done or Failed |
| RolloutTheorems.PassDiscipline | internal/rollout/rollout.go:103-146 | a pass goes through its members in sorted order without returning, and at no moment are two nodes drained and not uncordoned |
| RolloutTheorems.DrainWithinBudget | internal/rollout/rollout.go:103-139 | a node is drained only if fewer other members of the stored pool than its strategy's maximum, or than one, are missing from the listing or last listed as not ready; it is the node last listed at that address, and its record already says Draining at the wanted version |
| RolloutTheorems.BlockedMeansDown | internal/rollout/rollout.go:134-139 | a pass stops short of a member only where at least that many are down, having only read its version |
| RolloutTheorems.SnapshotFirst | internal/rollout/rollout.go:224-240 | in a control-plane pool whose strategy asks for it each UpgradeOS follows a successful snapshot of that node in the same pass with no other node touched since; elsewhere nothing is snapshotted |
| RolloutTheorems.UpgradeBlock | internal/rollout/rollout.go:241-259 | each UpgradeOS comes straight after that node's drain, its Upgrading record and its image read, and carries the derived image |
| RolloutTheorems.UpgradeReadBehind | internal/rollout/rollout.go:124-146 | each UpgradeOS rests on a read of that node in the same pass that showed another version than the target |
| RolloutTheorems.DoneIsVouched | internal/rollout/rollout.go:266-307 | each Done rests on a read of that node in the same pass equal to the non-empty target |
| RolloutTheorems.FailureStops | internal/rollout/rollout.go:346-349 | after a call fails nothing follows but recording that node Failed |
| RolloutTheorems.HaltOnFailure | internal/rollout/rollout.go:72-146 | on a node error every earlier member is Done for the target, that one is Failed and nothing later is touched; nil means paused without effect, blocked after a Done prefix, or all Done |
| RolloutTheorems.DoneCordonedIff | internal/rollout/rollout.go:130-133 | over every run of cut passes, a node is recorded Done while still cordoned if and only if it was cordoned already and was found at the target by reading its version |
| RolloutTheorems.DoneWhileCordoned | internal/rollout/rollout.go:124-133 | an upgrade reports failure after taking effect, and the next pass records the node Done and leaves it cordoned |
| RolloutTheorems.PassUpgradesOnce | internal/rollout/rollout.go:103-146 | one pass, cut anywhere, upgrades no node twice |
| Rollout.CountUnavailable | internal/rollout/rollout.go:351-362 | the loop counts exactly the other members not shown ready |
| Rollout.Reconciler.WaitHealthy | internal/rollout/rollout.go:290-307 | polls until ready at the target or out of answers, and says which |
| Rollout.Reconciler.UpgradeNode | internal/rollout/rollout.go:224-259 | the calls and record writes are the model's upgrade word, cut where one fails |
| Rollout.Reconciler.ReconcilePool | internal/rollout/rollout.go:72-146 | the member loop makes exactly the model's calls, leaves exactly the model's records and returns its verdict |
| KubernetesRollout.ReconcileK8s | internal/rollout/rollout.go:154-203 | the calls and the return value of the code are the model's |
| KubernetesRollout.SameVersionIff | internal/rollout/rollout.go:219-221 | versions count as the same exactly when equal or differing by a "v" in front of one |
| KubernetesRollout.UpgradesIff | internal/rollout/rollout.go:154-192 | an upgrade is triggered exactly when the last control-plane node listed has an address and a kubelet not at the target, up to a leading "v", and its snapshot succeeded; it goes from that version to the target |
| KubernetesRollout.SnapshotBeforeUpgrade | internal/rollout/rollout.go:154-203 | however cut, UpgradeK8s comes straight after a successful snapshot of a listed control-plane node behind the target, at most once; after a failed snapshot nothing but the failure is recorded |
| KubernetesRollout.PhaseTellsOutcome | internal/rollout/rollout.go:154-217 | the record says Upgrading from the first call and ends Idle exactly on nil, Failed otherwise |
| KubernetesRollout.NilConvergedIff | internal/rollout/rollout.go:164-203 | a nil pass last saw every node at the target except exactly when its control-plane node was there and another was not |
| KubernetesRollout.NilWithWorkerBehind | internal/rollout/rollout.go:164-177 | a listing on which nil is returned with a worker behind |
| RolloutExecutor.Executor.RunOnce | internal/rollout/executor.go:81-102 | the loops over clusters and over the jobs stored for each when its turn comes make exactly the model's calls and job writes |
| RolloutExecutor.Executor.ListJobs | internal/store/store.go:744-761 | the listing holds the cluster's stored jobs in pool order |
| RolloutExecutor.Executor.RunJob | internal/rollout/executor.go:104-154 | which job writes and drives one job comes to for each kind, failed client construction included |
| RolloutExecutor.JobEnds | internal/rollout/executor.go:104-165 | what an uncut turn leaves of a job: Running first and Done exactly when the reconciler returned nil, else Failed with its error; Failed at once without an upgrader or a known kind; otherwise as it was |
| RolloutExecutor.PassInOrder | internal/rollout/executor.go:81-102 | a pass goes through the clusters in listing order, each over the jobs the ones before left |
| RolloutExecutor.JobsInOrder | internal/rollout/executor.go:93-100 | and through a cluster's jobs in the order listed |
| JobRollout.Worker.RunJob | internal/rollout/executor.go:104-128 | for a Talos job with its reconciler: Running, the reconciler's own calls and records, then Done or Failed by its verdict |
| JobRollout.LastWriteTellsVerdict | internal/rollout/executor.go:120-128 | an uncut turn first writes the job Running and last of all Done if its pass returned nil and Failed with the error if not, nothing else about it changed |
| JobRollout.DriveIff | internal/rollout/executor.go:104-128 | over every run of turns cut anywhere, a turn drives the job exactly when the cluster is enabled, the clients are built and no earlier turn reached its final job write |
| JobRollout.SecondDriveIff | internal/rollout/executor.go:104-160 | a job is driven twice if and only if a drive was cut before its final job write and a later turn again finds the cluster enabled and the clients built |
| JobRollout.OneUpgradePerJob | internal/rollout/executor.go:120-128 | if no drive is cut before its final job write, a job upgrades each node at most once; if some node is upgraded twice, the job was driven twice |
| JobRollout.BetweenUpgrades | internal/rollout/executor.go:120-128 | over every run of a job's turns cut anywhere, between two upgrades of one node either its Failed record was the last thing its turn did, cut before the job's final write, or it was recorded Done and later read at another version than it is then upgraded to |
| JobRollout.SecondUpgradeAfterCrash | internal/rollout/executor.go:124-126 | the process dies exactly between the node's Failed record and the job's final write, and the next turn upgrades the node again |
| JobRollout.RunIsPasses | internal/rollout/executor.go:120-128 | the node calls of a job's turns are a run of cut passes, so every theorem about those is one about jobs |
| RolloutExecutor.PassLeavesAlone | internal/rollout/executor.go:81-165 | however a pass is cut, a job not stored Pending or Running, or of a cluster its listing does not show enabled, is neither driven nor changed |
| RolloutExecutor.PassSubjects | internal/rollout/executor.go:88-100 | every call of a pass is about a job due when the pass began, of a cluster its listing shows enabled |
| Drain.IsEvictable | internal/kube/client.go:185-201 | evictable exactly when not finished, not terminating, not a mirror and not a DaemonSet pod |
| Drain.EvictableIff | internal/kube/client.go:185-201 | evictable are exactly the pods at work, not leaving, without the mirror annotation and without a DaemonSet owner |
| Drain.Run | internal/kube/client.go:130-181 | the loop's calls and error are the model's |
| Drain.EvictsOnlyEvictable | internal/kube/client.go:130-181 | the cordon comes first and every eviction names an evictable pod of the latest listing |
| Drain.DrainedIff | internal/kube/client.go:130-181 | nil exactly when cordoned and some listing had nothing evictable, all rounds before it having gone on |
| Drain.TimedOutIff | internal/kube/client.go:142-178 | a timeout is reported exactly when the deadline ends a round at its listing or in its wait |
| Drain.DeadlineNamesPodsIff | internal/kube/client.go:162-178 | when the deadline ends a cordoned drain, the error is the timeout naming the pods left if and only if it did not fall at an eviction call; there it is that eviction's error |
| Drain.DeadlineDuringEviction | internal/kube/client.go:170-171 | one pod whose eviction meets the deadline: no timeout is reported |
| Drain.TimeoutNames | internal/kube/client.go:137-178 | the error names exactly the evictable pods of the last successful listing, in order, each as namespace, slash and name |
| Drain.BoundedListings | internal/kube/client.go:138-181 | if each listing shows fewer, n evictable pods take at most n+1 listings |
| ProvisionLifecycle.PassLegal | internal/provision/reconciler.go:103-154 | every effect of a pass is a legal lifecycle transition where it happens; a pool is rewritten only in the membership of one Ready host's address |
| ProvisionEffects.PassNeeds | internal/provision/reconciler.go:65-88 | a pass has an effect only with provisioning on, a stored pool that wants replicas, and a node listing |
| ProvisionEffects.DrainIsVictims | internal/provision/reconciler.go:159-189 | a pass drains nothing but the node first listed at the address of the Ready host with the lowest MAC, which the next effect unstages and the last releases |
| ProvisionEffects.UnstagedIsTakenAway | internal/provision/reconciler.go:159-217 | whatever is unstaged is taken away whole: its listed node, if it has a name, drained just before, then its Machine and membership dropped and the host released |
| ProvisionEffects.StagedIsPicked | internal/provision/reconciler.go:140-152 | whatever is staged is the lowest-MAC Registered host whose labels meet the selector, with the pool's version or else the cluster's, and is recorded in flight next, as of the pass's time |
| ProvisionEffects.HostWrites | internal/provision/reconciler.go:103-329 | every host write of a pass, told by the state it writes: Ready at the unclaimed address of a listed ready node of the pool's role with its Machine next, Failed because overdue, released last, or started after its staging; nothing else about the host changes |
| ProvisionEffects.LateIsNotLeftWaiting | internal/provision/reconciler.go:112-126 | after a completed pass no overdue host is still in flight |
| ProvisionTheorems.OneOperationInFlight | internal/provision/reconciler.go:103-154 | over every run of passes on any pools, with any nodes, clocks and edits, cut anywhere: at most one host of a pool is Provisioning and no two share an address |
| ProvisionMoves.MoveKeepsOneInFlightIff | internal/server/server.go:598-616 | registering a host again keeps one in flight in a pool if and only if a host that arrives there in flight finds none, and one that arrives with an address finds nobody at it |
| ProvisionMoves.MoveKeepsConsistentIff | internal/server/server.go:598-616 | it keeps hosts, Machines and memberships in step if and only if a Ready host is listed by the pool it is given |
| ProvisionMoves.OneInFlightWithMoves | internal/server/server.go:598-616 | one in flight over every run of passes cut anywhere, edits and re-registrations, as long as each arrival meets that condition |
| ProvisionMoves.MoveBreaks | internal/server/server.go:598-616 | two pools with one host in flight each, and the re-registration that puts both in one |
| ProvisionMoves.ReregisteredIsUntimed | internal/server/server.go:602-612 | re-registering leaves a host in flight without a start time exactly when it was in flight |
| ProvisionMoves.NeverTimesOut | internal/server/server.go:602-612 | a host in flight without a start time: over every run of passes, edits and re-registrations it stays in flight, never failed for being late, until it is Ready or deregistered |
| ProvisionTheorems.StagesOnlyWhenQuiet | internal/provision/reconciler.go:128-154 | nothing is staged while a host of the pool is Provisioning or Failed, or the pool has its replicas |
| ProvisionTheorems.PassBounds | internal/provision/reconciler.go:103-189 | however cut, ready plus provisioning never exceeds the larger of replicas and its previous value, and ready never falls below the smaller of replicas and its previous value |
| ProvisionTheorems.PassConverges | internal/provision/reconciler.go:103-154 | when staged hosts join and capacity exists, the measure strictly decreases |
| ProvisionTheorems.DistanceZeroIff | internal/provision/reconciler.go:128-146 | the measure is zero exactly at the wanted replicas with nothing in flight |
| ProvisionTheorems.ConvergedIsStable | internal/provision/reconciler.go:128-146 | a converged pool is left alone whatever nodes and clock say |
| ProvisionTheorems.Converges | internal/provision/reconciler.go:65-154 | as many such passes as the measure suffice |
| ProvisionConsistency.ReadyHostsConsistent | internal/provision/reconciler.go:292-375 | over completed passes on all pools with edits between, Ready hosts have distinct addresses, each with its Machine and membership, and member lists stay sorted and duplicate-free |
| ProvisionConsistency.CutBindIff | internal/provision/reconciler.go:294-329 | a cut bind keeps that if and only if none or all of its writes happened |
| ProvisionConsistency.CutScaleInFinishedIff | internal/provision/reconciler.go:156-217 | a scale-in cut at any step is finished by the next pass on the same victim, ending where the uncut pass would have, if and only if the cut pass began with no lower-MAC host in flight |
| ProvisionRepair.TakenAwayIff | internal/provision/reconciler.go:103-189 | from any inventory, a pass takes a bound Ready host away if and only if there are too many hosts, none failed or still awaited, and no lower-MAC host is Ready; then Machine and membership go too |
| ProvisionRepair.HalfRemovedIff | internal/provision/reconciler.go:156-217 | after a cut scale-in and any edits, the next pass finishes the half-removed host if and only if that condition still holds; otherwise it stays Ready and half removed |
| ProvisionRepair.LowerMacTakesOver | internal/provision/reconciler.go:159-170 | a scale-in cut after it dropped the Machine, on a pool where the next pass goes for another host: the half-removed one stays Ready without its Machine |
| ProvisionRepair.NeverRepaired | internal/provision/reconciler.go:294-329 | over every run of passes on any pools, cut anywhere, and edits, a Ready host its pool does not list stays unlisted for as long as it stays Ready |
| ProvisionRepair.CutBindOrphans | internal/provision/reconciler.go:294-329 | which is what a bind cut between its first write and its last leaves |
| ProvisionRepair.CutBindHappens | internal/provision/reconciler.go:294-329 | a consistent pool on which a bind cut after one write is inconsistent |
| ProvisionConsistency.VictimIff | internal/provision/reconciler.go:159-170 | the victim is the Ready host with the lowest MAC |
| ProvisionModel.NewJoined | internal/provision/reconciler.go:362-375 | returns a ready, unclaimed node of the role, and none only if there is none |
| ProvisionModel.PickAvailable | internal/provision/reconciler.go:377-396 | returns a Registered host matching the selector, and none only if there is none |
| Provision.LowestReady | internal/provision/reconciler.go:159-170 | comparing each Ready host with the best so far finds the victim |
| Provision.RemoveFrom | internal/provision/reconciler.go:191-205 | the filter keeps exactly the other members, in order |
| Provision.Reconciler.Bind | internal/provision/reconciler.go:294-329 | the three writes are the model's, each only if the one before succeeded |
| Provision.Reconciler.ScaleIn | internal/provision/reconciler.go:159-217 | drain, unstage, forget and release are the model's (`ProvisionEffects` says of which node and host), each only if the one before succeeded |
| Provision.Reconciler.ReconcilePool | internal/provision/reconciler.go:65-154 | a pass in which any effect may fail is the model's pass, cut there; it returns nil exactly when every effect succeeded, its records and nodes could be read and what it stages has a version |
| BootstrapTheorems.BringUp | internal/provision/bootstrap.go:69-183 | over every crashed and resumed run of an armed record: from AwaitingInstall on the stored talosconfig and the config staged for the ordered MAC carry the stored bundle and the ordered cluster, endpoint and versions; at most one initialise call is answered Ok; Ready implies talosconfig, kubeconfig, Cluster, control-plane pool and Machine are stored |
| BootstrapTheorems.ReadyAsOrdered | internal/provision/bootstrap.go:218-272 | at Ready of a run begun without the inventory records: the Cluster carries the ordered versions and endpoints with both switches off, the pool "controlplane" has the ordered address as its one member, its Machine is there as a control plane, and the kubeconfig is one the node answered with |
| BootstrapTheorems.BundleIsMinted | internal/provision/bootstrap.go:114-132 | the bundle stored is the one found at the start or one minted by a pass of the run |
| BootstrapTheorems.FailsIffLate | internal/provision/bootstrap.go:86-95 | a completed pass fails the bring-up exactly when it was begun longer ago than the timeout; the first pass starts the clock |
| BootstrapTheorems.PassAdvancesIff | internal/provision/bootstrap.go:69-239 | an uncut pass in time moves one phase exactly when what its phase waits for is stored or answered, and else stays |
| BootstrapModel.AlreadyIff | internal/provision/bootstrap.go:301-304 | a refusal is read as "already" exactly when it says "already" or "not empty" somewhere, in any letter case |
| BootstrapTheorems.OkAtMostOnce | internal/provision/bootstrap.go:198-214 | no initialise call repeated after etcd is initialised is answered Ok, over every run |
| BootstrapTheorems.ResumedInitIff | internal/provision/bootstrap.go:201-214 | resumed after a crash between the call and the phase write, the pass moves on if and only if the refusal says "already" or "not empty" in any letter case |
| BootstrapTheorems.RunGood | internal/provision/bootstrap.go:198-272 | the invariant behind it, kept by every cut pass from any phase |
| BootstrapTheorems.SecretsOnce | internal/provision/bootstrap.go:114-132 | once stored the bundle never changes |
| BootstrapTheorems.AgreementLasts | internal/provision/bootstrap.go:136-183 | once staging is behind, bundle, talosconfig and staged configs stay as they are, also after a later failure |
| BootstrapTheorems.PhasesMoveForward | internal/provision/bootstrap.go:69-111 | phases only move forward or to Failed, Ready and Failed absorb, and what was ordered never changes |
| BootstrapTheorems.PassStep | internal/provision/bootstrap.go:283-299 | one cut pass moves to the successor phase, to Failed, or nowhere |
| BootstrapTheorems.PassAdvances | internal/provision/bootstrap.go:69-111 | a pass that gets the answers its phase waits for, in time, moves exactly one phase |
| BootstrapTheorems.ReachesReady | internal/provision/bootstrap.go:69-111 | six such passes take an armed record to Ready |
| Bootstrap.Reconciler.GenerateSecrets | internal/provision/bootstrap.go:114-132 | the writes are the model's, cut where one fails |
| Bootstrap.Reconciler.Stage | internal/provision/bootstrap.go:136-183 | the credential writes, the staging and the phase write are the model's, cut where one fails |
| Bootstrap.Reconciler.BootstrapEtcd | internal/provision/bootstrap.go:201-214 | the init call and the phase write are the model's, with the "already" errors taken as success |
| Bootstrap.Reconciler.SeedInventory | internal/provision/bootstrap.go:243-272 | creates exactly the missing records (`BootstrapTheorems.ReadyAsOrdered` says what they hold) |
| Bootstrap.Reconciler.FetchKubeconfig | internal/provision/bootstrap.go:218-239 | credentials, inventory, then Ready, cut where one fails |
| Bootstrap.Reconciler.Reconcile | internal/provision/bootstrap.go:69-111 | a pass is the model's, cut anywhere, and keeps the invariant |
| Slices.PassOnStore | internal/provision/reconciler.go:65-154 | a provisioning pass cut anywhere and run against the store leaves the store holding exactly the model's inventory |
| Slices.OthersLeaveInventory | internal/store/store.go:205-247 | whatever runs for other NUL-free clusters, for rollouts or for watchers, and every crash, leaves a cluster's inventory alone |
| Slices.TraceOnStore | internal/rollout/rollout.go:339-343 | a rollout's trace cut anywhere and run against the store leaves exactly the model's node records |

## Left out

- Protobuf and JSON encodings, bbolt internals and file permissions: encode/decode is taken as the identity and a transaction as atomic.
- The revision counter is unbounded: 64-bit wrap-around is not modelled.
- Store read errors: reads of the store succeed; the provisioning and bootstrap passes may fail at any write or outside call.
- Talos, Kubernetes, Image Factory, Matchbox and 1Password clients: only their answers appear, as arbitrary values.
- Config rendering and secrets generation: a rendered config is a value that remembers the bundle and the version fields it was rendered from; install disk, CNI, kube-proxy and patch fields of a bring-up are not carried.
- Message texts of node, host and cluster records beyond those a contract names; RFC 3339 timestamps are integers with "absent" as an option.
- Provision.Reconciler.ReconcilePool: other writers of the same cluster's records run between passes, not inside one, so a compare-and-swap conflict inside a pass appears as a failed write.
- Bootstrap.Reconciler.SeedInventory: likewise, a Cluster, pool or Machine record created by someone else during the pass appears as a failed write.
- ProvisionTheorems.OneOperationInFlight: its runs contain registrations of new hosts, deregistrations and replica edits; re-registrations, under which it can fail, are in `ProvisionMoves.OneInFlightWithMoves`.
- RolloutExecutor.Executor.RunJob: a drive is one call with any answer; it is spelled out for Talos jobs in `JobRollout` and not for Kubernetes jobs.
- WatchModel.StreamComplete: bootstrap records are not replayed and deletes leave no tombstone, so neither is claimed.
- System.EnableGuard: a drive's outside calls are counted, not described (`JobRollout` describes them); an import or any other whole-record write that carries the enabled flag counts as enabling the cluster.
- Digest image references: an image with an `@sha256:` digest has its digest taken for a tag, as the code does; nothing is claimed about what such a reference means.
- The guards and records of CreateCluster, ListRollouts, GetRollout and the credential handlers; CLI, gRPC plumbing, MCP adapter, authentication and TLS: they would add only easy members.
- The outer loops, tickers, logging, the refresh loop and the bootstrap executor: a run is any sequence of single passes.
