# BigFleet providers: a verified model

This project models the lifecycle kit that every BigFleet capacity provider is built on, and the
substrate code of five providers, and proves what their documentation and tests promise.

**The kit** (`providerkit/`). `Servers.Server` is the kit's server with its four maps and two counters
updated in place; each of its methods is one critical section, proved equal to a function in `Kit`.
`KitSystem` runs those same functions as a transition system: a section begins in memory, is saved,
and releases the lock, and a crash may fall between any two of these; backend calls run outside the
lock and may return at any time, after the timeout or after the process died. `KitInvariants` and
`KitHistory` hold what every step keeps, `Records` what each section does to a record and which reply a
request gets, field by field, `Guarantees` the promises over whole runs, `Mirror` the incremental client,
`FileStores` the file-system steps that make one save atomic.

**The composition.** `Conservation` puts the AWS backend (`AwsBackend`) and the in-memory EC2 (`Ec2`)
under the kit. Its runs contain timeouts, calls that act late or after a crash, listings reconciled
long after they were read, and restarts. `Agreement` settles for which fleets records and instances
agree over all of them, with the run that breaks every other fleet.

**The side cores.** `Vault` is the DigitalOcean command mailbox, `AzureInventory` the merge of
configured slots and managed VMs, `AzureEntries` what its entries say, `LibvirtDomain` the transactional
create and delete as functions of which libvirt calls fail, `SubstrateIndices` the Latitude two-map index,
`SlotIdentity` the libvirt slot ids and host refs, and `ShellQuote` the quoting used by the AWS and libvirt
clients, undone by the word parser of IEEE Std 1003.1, Shell Command Language, sections 2.2.1 and 2.2.2.

Verify everything with `dafny verify dfyconfig.toml`.

## Where the code and its documentation differ

The model follows the code.

- `providerkit/doc.go:23-26` speaks of a per-shard high-water mark; `providerkit/server.go:654` keeps one
  per (shard, machine). `Guarantees.InOrderIffAllPass` is stated for the latter.
- `providerkit/server.go:297-301` lists instance_type and zone as not refreshed; capacity_type is not
  refreshed either while interruption_probability is. `Reconciliation.SpotRuleSurvives` gives the one
  case in which that breaks the SPOT rule, `Reconciliation.SpotRuleBroken` an instance of it.
- `providerkit/server.go:327-337` reads an absent key as an empty value, so two maps that differ can be
  taken as equal; `Reconciliation.MapsEqualExact` says for which records this cannot happen.
- `providers/libvirt/libvirtreal.go:176-184` promises not to launch a second domain for a machine, but a
  failed metadata read (lines 648-651) is taken for "no machine id"; `LibvirtDomain.DuplicatesExactlyWhen`
  says which failures break the promise, and `LibvirtDomain.UnreadDomainIsDuplicated` gives one.
- `providerkit/filestore.go:90-97` syncs the directory only best effort, so a Save that returned nil may
  be lost with the power; see `FileStores.DurableExactlyWhen` and `FileStores.FirstSaveMayVanish`.
- `providers/latitude/substratestate.go:15-32` calls the server map derived; after two machines have shared
  a server id it can miss an entry until a reload; see `SubstrateIndices.SharingLosesTheServer` and
  `SubstrateIndices.BothMapsSurviveExactlyWhen`.
- `providerkit/server.go:669-672` mints one op id per operation, but one minted just before a crash that
  beats the save is minted again after the restart: `Guarantees.OpMintedTwice` is such a run,
  `Guarantees.SameOpExactlyWhen` says when it happens. No such id was acknowledged or given to a backend
  (`Guarantees.HandedOnce`, `Guarantees.SeenOnlyOnDisk`).
- `providers/aws/backend.go:183-208` uses the op id as EC2 client token. When the store is lost while EC2
  still has the tokens, op ids start over and a create is handed another machine's instance
  (`Agreement.LiveTokenBreaks`); `Agreement.AgreementExactlyWhen` gives the exact condition.
- `providers/azure/backend.go:133-134` surfaces orphans under their resource id so that they are not lost,
  but one whose resource id is a slot's id is listed under it as well, and the kit then refuses the whole
  seed; see `AzureInventory.DistinctExactlyWhen` and `AzureInventory.SlotListedTwice`.

## Model

| member | source | states |
|---|---|---|
| Conservation.OneInstancePerMachine | providers/aws/ec2fake.go:32-71 | In every run of kit, AWS backend and EC2 over an initially duplicate-free fleet, whatever tokens EC2 remembers, no two live instances ever belong to one machine id |
| Conservation.HostsAreReal | providerkit/server.go:591-638 | For a fleet in which no live instance answers to a token of the kit: throughout every run the host of an Idle, Configuring, Configured or Draining record is a live instance owned by that machine and named by no other record, and, if the fleet was taken over without tags, tagged with the record's cluster when nothing is in flight |
| Agreement.AgreementExactlyWhen | providers/aws/backend.go:118-208 | Over any duplicate-free fleet whose tokens name instances EC2 launched, and over every run that reads EC2 through Describe, with any slots and prices: every record has a live host of its own in every reachable state if and only if no live instance answers to a token the kit will issue, or an orphan without type or zone keeps the kit from ever starting |
| Agreement.LiveTokenBreaks | providers/aws/ec2fake.go:37-43 | For each startable fleet with such a live token there is a run, seeded from an answer of Describe, with creates and one answer, that ends with a record on an instance it does not own, and on the host of its owner as well if that one was listed |
| Agreement.TagsExactlyWhen | providers/aws/backend.go:212-226 | For the other fleets cluster tags agree with the records in every such state if and only if the fleet was taken over without tags, or the kit cannot start |
| Agreement.ListStock | providers/aws/backend.go:69-153 | Every startable fleet has a catalog, with as many free slots as wanted, under which Describe gives a listing the kit accepts as its seed |
| Agreement.NotSeedable | providers/aws/backend.go:118-182 | While an orphan lacks a type, or a required zone, no answer of Describe is accepted as a seed |
| Agreement.CallsKeepIssued | providers/aws/ec2fake.go:32-103 | The premise on tokens is one every EC2 call keeps: the token map only ever names instances that were launched |
| Conservation.EveryInstanceIsAccountedFor | providers/aws/backend.go:183-240 | Nothing leaks, whatever tokens EC2 remembers: while the kit serves, each live instance has a record, and that record's state says how far the one call acting on it has got |
| Conservation.CallsFindTheirInstance | providers/aws/backend.go:183-240 | For a fleet in which no live instance answers to a token of the kit: however late a backend call acts, also after a timeout or a crash, it finds its instance, and a Create launches a new one tagged with its own machine |
| Conservation.MoveKeeps | providerkit/server.go:528-638 | The joint invariant of records, calls, effects and instances is kept by every kit step, backend effect and listing |
| Conservation.ActKeeps | providers/aws/ec2fake.go:32-103 | One backend effect touches the instances of its own machine only and leaves every other record in agreement |
| Conservation.CommitKeepsLinked | providerkit/server.go:568-638 | Whatever section is saved, every stored record still agrees with EC2 and every call that has not acted still fits its record |
| Conservation.SeedLinks | providerkit/server.go:214-232 | Seeding from a listing of the fleet puts records and instances in agreement |
| Conservation.NewcomerIsSlot | providerkit/server.go:279-285 | Reconciling a listing, however stale, adds nothing but host-less Speculative slots once every listed instance is tracked |
| AwsBackend.CreateInstance | providers/aws/backend.go:183-208 | If no live instance answers to the operation id, exactly one instance more runs afterwards, of the machine's own type, zone, capacity and market, under that id as token and in no cluster; otherwise nothing changes. The answer is its host and the type's allocatable |
| AwsBackend.ConfigureInstance | providers/aws/backend.go:212-217 | Sets the cluster tag of the operation's own host and nothing else, or errs, exactly when there is no such instance, without acting |
| AwsBackend.DrainInstance | providers/aws/backend.go:221-226 | Clears the cluster tag of the operation's own host and nothing else, or errs, exactly when there is no such instance, without acting |
| AwsBackend.DeleteInstance | providers/aws/backend.go:229-240 | Terminates the operation's own host or errs without acting, and forgets the machine's observed interruption exactly when it succeeds |
| AwsBackend.LaunchesAsAsked | providers/aws/backend.go:183-193 | A create whose token is not held launches an instance with a new id, the machine's type, zone, capacity tag and market, and changes nothing else; a held token launches nothing |
| Conservation.LaunchedAsAsked | providers/aws/backend.go:183-193 | In every reachable state an instance launched by a create and still alive has that machine's id, type, zone, capacity and market, whatever other calls did since |
| Conservation.MoveAges | providers/aws/ec2fake.go:32-103 | No step changes anything of a live instance but its cluster tag, and none reuses an instance id |
| Ec2.Ec2Fake.RunInstance | providers/aws/ec2fake.go:32-61 | A token already spent on a live instance gives that instance back; any other launch is a new instance |
| Ec2.Ec2Fake.TerminateInstance | providers/aws/ec2fake.go:63-71 | Removes the instance, or errs and changes nothing when there is none |
| Ec2.Ec2Fake.ApplyBootstrap | providers/aws/ec2fake.go:83-92 | Sets one instance's cluster tag, or errs and changes nothing |
| Ec2.Ec2Fake.DrainNode | providers/aws/ec2fake.go:94-103 | Clears one instance's cluster tag, or errs and changes nothing |
| Ec2.Ec2Fake.DescribeManaged | providers/aws/ec2fake.go:73-81 | Lists exactly the instances there are, each once |
| Ec2.FakeIdInjective | providers/aws/ec2fake.go:44-45 | Two launches never get one instance id |
| Ec2.Describe | providers/aws/backend.go:118-153 | Slots in order, upgraded where an instance owns them, then every other owner once, then every orphan; and each visible instance is listed Idle under its owner while the rest are host-less slots |
| Ec2.SlotsKeepTheirPlace | providers/aws/backend.go:133-142 | A slot keeps its place and facts in the answer and is Idle, on an instance tagged with its id, exactly when there is one |
| Ec2.EntriesCarryTheirFacts | providers/aws/backend.go:143-182 | Every other entry is that of a tagged or running instance under its owner's id, with that instance's type, zone, recorded capacity (else its market) and what the tables say of them |
| Ec2.ArrangedIsFaithful | providers/aws/backend.go:105-117 | Any answer so arranged, in whatever map order, lists every live instance under its owner and invents no host |
| Ec2.BySlotIs | providers/aws/backend.go:123-132 | Exactly the tagged machine ids own a slot, each through one of its own instances, and exactly the untagged running instances are orphans |
| CapacityTags.TagRoundTrip | providers/aws/backend.go:336-368 | The capacity tagged at Create is the one recovered, no other tag is mistaken for it, and the four tags are those in use |
| Guarantees.TransitionsMatchGoroutines | providerkit/server.go:548-638 | In every reachable serving state a machine is in the transitional state of a kind exactly when one goroutine is outstanding for it, of that kind and with the recorded op id |
| Guarantees.CompletionsAreNeverStale | providerkit/server.go:617-638 | A completion, timeout or not, always finds the machine its own op put in flight and writes no other record |
| Guarantees.FencingIsMonotone | providerkit/server.go:650-662 | Over any run with restarts the tokens durably accepted for one shard and machine strictly increase, up to the stored mark |
| Guarantees.NewerIsStrictTotalOrder | providerkit/fence.go:49-58 | The comparison of marks is a strict total order |
| Guarantees.FencedIsBlind | providerkit/server.go:531-538 | A fenced request changes nothing and its answer depends on the token and that mark alone, not on whether the machine exists |
| Guarantees.InOrderIffAllPass | providerkit/fence.go:26-36 | A whole stream of calls passes the fence exactly when tokens increase per shard and machine, whatever the interleaving |
| Guarantees.NoneFencedExactlyWhen | providerkit/server.go:531-538 | In a whole run, reconciles, completions, crashes and restarts included, no request is ever answered fenced if and only if each token shown is newer than every one saved before it for the same shard and machine |
| Guarantees.FencedExactlyWhen | providerkit/server.go:650-662 | In every reachable state a request is answered fenced exactly when its token is not newer than one durably accepted for its shard and machine |
| Guarantees.HandedOnce | providerkit/server.go:669-672 | Op ids given to the backend over all restarts are strictly increasing and their texts all differ |
| Guarantees.SameOpExactlyWhen | providerkit/server.go:669-672 | Two mintings in a run give the same op id if and only if no launching section was saved from the first up to the second |
| Guarantees.OpMintedTwice | providerkit/server.go:568-577 | That happens: a concrete run mints one op id before a crash and again after the restart |
| Guarantees.WriteAhead | providerkit/server.go:568-584 | Every op id acknowledged or given to a backend is covered by the counter on disk, and every op in flight is on disk under its key |
| Guarantees.SeenOnlyOnDisk | providerkit/server.go:574-584 | Op ids are acknowledged and handed to a backend in one kind of step only, and there the disk already holds the id under the machine and kind of the request being answered |
| Guarantees.StartsExactlyWhen | providerkit/server.go:528-585 | Work starts exactly when fence, existence and position allow it, with the next op id; otherwise only a fence mark may have moved |
| Guarantees.RetryRepeats | providerkit/server.go:550-557 | A retry at or heading to the target returns the recorded op id and starts nothing, whatever its other arguments |
| Guarantees.NewCycleIsFresh | providerkit/server.go:568-570 | An accepted transition carries an op id above every one ever recorded, acknowledged or handed over |
| Guarantees.RecordsStayInShape | providerkit/machine.go:226-260 | In every reachable state host, cluster, metadata and last_error are set exactly as each lifecycle state calls for |
| Guarantees.LifecycleOverRuns | providerkit/server.go:591-638 | Between any two moments of a run no machine is dropped, its type, zone and capacity stay, and Failed is final |
| Guarantees.StepMoves | providerkit/machine.go:226-260 | Every step moves every stored record along one edge of the lifecycle graph or not at all |
| Guarantees.EveryChangeIsExplained | providerkit/server.go:528-638 | Over any run a stored record changes only because a request for it was accepted, its operation was answered, a restart interrupted it, or a listing reported it, and then field by field as that cause says; all other records and fields stay |
| Records.SettledExactly | providerkit/server.go:356-437 | Completion sets exactly: for Create host and the facts answered, for Drain no binding, for Delete no host, for Configure only the state; an error sets Failed and its text and nothing else |
| Records.AcceptedExactly | providerkit/server.go:568-577 | A request is accepted only in the one starting state of its kind; the machine enters the one transitional state of its kind, is bound for Configure, and all other fields and records stay |
| Records.InterruptedExactly | providerkit/server.go:175-189 | A restart changes only state and last_error of a machine in flight, and last_error names the operation interrupted |
| Records.RepliesExactly | providerkit/server.go:528-585 | Which reply a request gets, each if and only if: missing id, no Delete support, fenced with the mark that beat it, unknown machine, recorded op id on a retry, accepted with the next op id, or out of position with the current state |
| Records.MarksExactly | providerkit/server.go:650-662 | A request that is heard and has a token leaves exactly its epoch and sequence as mark of its shard and machine; no other request and no other mark moves |
| Records.ValidExactlyWhen | providerkit/backend.go:204-243 | A listed machine is accepted if and only if it is complete: id, type, capacity, zone where required, price, probability, a positive one for SPOT, and a host exactly when Idle |
| Records.ImportedExactly | providerkit/backend.go:257-274 | An untracked id is added exactly if a valid entry has it, with every fact as listed, no binding and no error; a tracked one can change in five facts only |
| Guarantees.RebindingNeedsDrain | providerkit/server.go:411-429 | A machine seen bound to two clusters was drained in between |
| Guarantees.BindingIsVerbatim | providerkit/server.go:376-388 | While a binding exists it is, verbatim, the cluster and metadata that a Configure request for this machine carried, saved earlier in the run under the very op id recorded for the machine, through retries, reconciles and restarts |
| Guarantees.ConfiguredIsReady | providerkit/server.go:389-408 | A machine is Configured or Draining only if the backend, and its readiness gate if any, answered success for the recorded configure op |
| Guarantees.CrashIsAtomic | providerkit/server.go:685-717 | A crash leaves the state before or after a whole section, and between sections exactly what was in memory |
| Guarantees.RestartIsExact | providerkit/server.go:147-250 | A restart rebuilds the stored state except that exactly the machines in flight become Failed, with last_error naming the operation, nothing else changed, each under a new revision of its own; a second one changes nothing |
| KitInvariants.NextKeepsStore | providerkit/server.go:680-717 | Every step keeps the store well formed and in agreement with memory |
| KitInvariants.UnsavedIsUnchanged | providerkit/server.go:674-678 | A section that does not save has changed nothing |
| KitInvariants.NextKeepsTasks | providerkit/server.go:581-638 | Every step keeps goroutines and transitional records matched one to one |
| KitInvariants.LiveAfterAccept | providerkit/server.go:568-583 | Accepting a transition adds exactly the goroutine its record now waits for |
| KitInvariants.LiveAfterComplete | providerkit/server.go:617-638 | Completing one removes exactly that goroutine and leaves no record waiting for it |
| KitHistory.SectionOps | providerkit/server.go:568-571 | A section mints at most one op id, and only when it launches work that is then saved |
| KitHistory.SectionFences | providerkit/server.go:650-662 | A section moves at most one mark, and only upwards |
| KitHistory.NextKeepsCalls | providerkit/server.go:578-584 | Every step keeps calls, goroutines and acknowledgements behind the saved counter |
| KitHistory.NextKeepsBindings | providerkit/server.go:376-428 | Every step keeps each binding equal to the cluster and metadata of the request accepted under its recorded Configure op id |
| KitHistory.NextKeepsReady | providerkit/server.go:389-407 | Every step keeps Configured records vouched for by their recorded call |
| KitSystem.RecoverNothing | providerkit/server.go:175-189 | With nothing in flight a restart leaves memory exactly as loaded |
| KitSystem.RecoverKeepsMem | providerkit/server.go:175-189 | Recovery, in any map order, leaves well-formed state with nothing in flight |
| Kit.OpTextInjective | providerkit/server.go:669-672 | Op ids never collide as text, not even under two prefixes |
| Kit.OpTextReads | providerkit/server.go:669-672 | An op id reads back: the prefix, a dash, and the number in decimal |
| Servers.Server.Start | providerkit/server.go:147-161 | A fresh store is seeded from the listing if every entry is valid and distinct; any other is reloaded and recovered |
| Servers.Server.SeedFromBackend | providerkit/server.go:214-232 | Accepts exactly the listings with valid, distinct entries; a refused one leaves the store alone |
| Servers.Server.LoadSnapshot | providerkit/server.go:234-250 | Rebuilds all four maps and both counters from what was saved |
| Servers.Server.RecoverInterrupted | providerkit/server.go:175-189 | Fails exactly the machines in flight, each under a new revision no other has, and saves if there was one |
| Servers.Server.CheckFenceLocked | providerkit/server.go:650-662 | Rejects exactly the tokens not newer than their mark, leaving the marks alone |
| Servers.Server.Dispatch | providerkit/server.go:528-585 | Fence, not-found, retry, position, accept, in that order, and saved before the reply |
| Servers.Server.AdmitLocked | providerkit/server.go:540-585 | What follows the fence, with an advanced mark saved on every path |
| Servers.Server.AcceptLocked | providerkit/server.go:568-577 | One op id minted and recorded, one record moved on and given the next revision, nothing else changed |
| Servers.Server.Complete | providerkit/server.go:617-638 | The answer or timeout settles the one record still waiting for it, field by field as its kind demands, leaves all other records alone, and is saved; a stale one changes nothing |
| Servers.Server.ReconcileWith | providerkit/server.go:266-295 | Adds the untracked and refreshes the tracked, and leaves the store alone when nothing changed |
| Servers.Server.Get | providerkit/server.go:454-465 | Finds exactly the tracked machines, and tells a missing id from an unknown one |
| Servers.Server.List | providerkit/server.go:470-498 | Exactly the tracked machines in a wanted state and modified since the cursor, once each; fewer only when a positive cap is reached; always the newest revision |
| Records.FilterRestricts | providerkit/server.go:500-510 | A list filtered by states is the unfiltered list restricted to machines in those states |
| Servers.Server.PersistLocked | providerkit/server.go:685-689 | Afterwards the store holds exactly the durable part of memory |
| Servers.Server.SnapshotLocked | providerkit/server.go:694-717 | Lists each map's entries once, field for field, in whatever order the maps yield them |
| Servers.FreshSnapshot | providerkit/server.go:210-212 | A snapshot counts as fresh exactly when it decodes to no machines, fences, ops or revision |
| Store.SaveThenLoad | providerkit/server.go:694-717 | Loading what was saved is the identity, whatever order the maps were walked in |
| Store.MemStore.Save | providerkit/store.go:112-117 | The last snapshot saved is the one held |
| Reconciliation.Pointwise | providerkit/server.go:274-290 | With distinct ids the merge acts on each machine by its own entry alone |
| Reconciliation.KeepsOverlay | providerkit/server.go:257-265 | No listing drops a machine or alters state, host, cluster, metadata, last_error, fences or ops; an unchanged revision means an unchanged server |
| Reconciliation.OrderFree | providerkit/server.go:274-290 | The resulting inventory does not depend on the order of the listing |
| Reconciliation.RepeatIsNoOp | providerkit/server.go:263-265 | Reconciling one listing twice is reconciling it once |
| Reconciliation.FactsAgree | providerkit/server.go:302-325 | A tracked machine ends up with the listed facts, maps included where its own held no empty value |
| Reconciliation.MapsEqualExact | providerkit/server.go:327-337 | Map comparison against a record is exact if and only if the record's map holds no empty value |
| Reconciliation.SpotRuleSurvives | providerkit/server.go:302-325 | Refreshing breaks the SPOT rule exactly when a SPOT record meets an entry of another capacity with probability 0 |
| Reconciliation.SpotRuleBroken | providerkit/server.go:302-325 | Two valid listings, SPOT first and ON_DEMAND with probability 0 next, after which the record breaks the rule |
| Mirror.MirrorIsExact | providerkit/server.go:467-498 | After every poll a client that started with a full list holds exactly the inventory, across any interleaving and restarts |
| Mirror.AnswerIsPoll | providerkit/server.go:484-497 | In whatever order an uncut answer arrives, folding it in gives the same mirror |
| Mirror.SectionIsLater | providerkit/server.go:664-667 | Every record a section touches ends above any revision handed out before |
| Mirror.ReloadKeepsSynced | providerkit/server.go:237-243 | Resetting the modification revisions on load loses no client a change |
| Mirror.CappedListing | providerkit/server.go:493-495 | A capped first list gives the whole inventory exactly when the cap does not bite, and polling on never offers what it cut off |
| FileStores.FileStore.Save | providerkit/filestore.go:59-99 | Succeeds exactly when every call up to the rename does; every state the disk goes through, one per call and the torn one inside the write included, is one of the named stages; however it ends, no temporary file and no other entry of the directory has changed |
| FileStores.Disk.Write | providerkit/filestore.go:74-79 | A write passes through a state in which the file is torn, and the log says so |
| FileStores.CrashDuringSave | providerkit/filestore.go:59-99 | A crash at any state in the log of a save leaves a store that loads as the new snapshot or as one that could be found before |
| FileStores.CrashLeavesOldOrNew | providerkit/filestore.go:13-16 | After a crash of process or machine at any stage, Load finds the new snapshot or one it could have found before, never a torn file |
| FileStores.RenameIsTheSwitch | providerkit/filestore.go:87-89 | Readers see the old snapshot until the rename and the new one from then on |
| FileStores.DurableExactlyWhen | providerkit/filestore.go:90-98 | A successful Save survives every power loss exactly when its directory sync went through or nothing else could be found anyway |
| FileStores.FirstSaveMayVanish | providerkit/filestore.go:90-98 | A successful first save without the directory sync can be gone after a power loss: Load then reports a first boot |
| FileStores.WithoutFsyncMayTear | providerkit/filestore.go:80-83 | Without the fsync before the rename a power loss may leave an undecodable file |
| FileStores.NamesRoundTrip | providerkit/machine.go:48-118 | State, capacity and operation kind survive being written as their names, and the names are those in stored files |
| Vault.BootstrapVault.Submit | providers/digitalocean/bootstrap.go:110-125 | The new command takes the machine's slot under the next id, and the one it replaces is told so if it has no answer yet |
| Vault.BootstrapVault.Receive | providers/digitalocean/bootstrap.go:138-140 | A waiter takes the one answer in its channel |
| Vault.BootstrapVault.Cancel | providers/digitalocean/bootstrap.go:136-138 | A cancelled waiter leaves with an error and touches nothing else |
| Vault.BootstrapVault.Withdraw | providers/digitalocean/bootstrap.go:127-133 | Cleanup takes the machine's slot only while it is still the waiter's own |
| Vault.BootstrapVault.HandleCommand | providers/digitalocean/bootstrap.go:168-187 | An authentic agent is shown exactly its machine's pending command |
| Vault.BootstrapVault.LookUpAck | providers/digitalocean/bootstrap.go:189-212 | An ack is matched exactly when it names the pending command, and then to that command's waiter |
| Vault.BootstrapVault.Deliver | providers/digitalocean/bootstrap.go:213-226 | The verdict, nil or the agent's error, reaches that waiter unless an answer is already there; see Vault.EnqueueReturns for what the caller gets |
| Vault.AppliedMeansAcked | providers/digitalocean/bootstrap.go:204-225 | A caller returns nil only after an ok ack naming its own command while that command was pending |
| Vault.EnqueueReturns | providers/digitalocean/bootstrap.go:135-141 | A caller that is back either was cancelled, and got that error, or took the first answer ever sent to it: nil if that was an ok ack, the agent's own error or the default text if it was a failed one, superseded if it was a newer command |
| Vault.FirstAnswerStays | providers/digitalocean/bootstrap.go:117-123 | While a caller waits its channel holds the first answer sent to it; later ones are dropped |
| Vault.SomeoneIsApplied | providers/digitalocean/bootstrap.go:110-226 | The ordinary exchange is possible: a concrete lifetime in which a caller returns nil |
| Vault.NeverStranded | providers/digitalocean/bootstrap.go:117-123 | A waiting caller's command is still on offer or its answer is there |
| Vault.CleanupKeepsNewer | providers/digitalocean/bootstrap.go:127-133 | When one caller leaves, every other machine's newest command stays on offer |
| Vault.IdsAreUnique | providers/digitalocean/bootstrap.go:113-116 | Two commands of one process share an id exactly when 2^64 wraps around |
| Vault.StaleAckAcrossRestart | providers/digitalocean/bootstrap.go:86-97 | After a restart an old ack releases a new waiter exactly when the numbers coincide |
| Vault.StepKeeps | providers/digitalocean/bootstrap.go:110-226 | Every step keeps the pending command of each machine its newest, and every nil vouched for by a matching ack |
| AzureInventory.Describe | providers/azure/backend.go:135-209 | The answer is the slot entries, the zoned slotless owners and the zoned orphans, for some order of Go's maps |
| AzureInventory.HostedOnce | providers/azure/backend.go:129-134 | With distinct resource ids a VM hosts exactly one entry if it is tagged and not being deleted, or untagged and running, and has a zone or owns a configured slot; otherwise none |
| AzureInventory.SlotsKeepTheirPlace | providers/azure/backend.go:179-188 | Each slot has an entry in its place with its facts, Speculative exactly when no VM that is not being deleted carries its id, else backed by the owner |
| AzureInventory.SlotListedTwiceExactlyWhen | providers/azure/backend.go:179-207 | A second entry of the answer carries a slot's id if and only if a zoned VM that strayed or lost its machine to another has that id for its resource id |
| AzureInventory.DistinctExactlyWhen | providers/azure/backend.go:129-209 | All ids of an answer are distinct, as seeding demands, if and only if no such VM has for its resource id that of a slot or a machine id a zoned owner carries |
| AzureInventory.SlotListedTwice | providers/azure/backend.go:200-207 | A concrete listing for which the answer carries a slot id twice and the kit refuses to seed from it |
| AzureInventory.OrderDoesNotMatter | providers/azure/backend.go:160-177 | Neither listing order nor map order changes the set of entries |
| AzureInventory.OwnerIsLeast | providers/azure/backend.go:161-171 | The owner of a machine id is the one claimant whose resource id precedes all others |
| AzureInventory.OrphansAre | providers/azure/backend.go:156-177 | A listed VM becomes an orphan once if it strayed or lost its slot to another, and otherwise never |
| AzureInventory.SpeculativeSlots | providers/azure/backend.go:90-111 | Exactly the configured slots, none for a count of zero or less |
| AzureEntries.SlotsOfExactly | providers/azure/backend.go:94-98 | An offering of count n has n slots, with the indices 0 to n - 1 in order, each with the offering's own size, zone, capacity, resources, labels and prices |
| AzureEntries.SlotsExactly | providers/azure/backend.go:90-111 | There are as many slots as counted, and each is of some offering with an index below its count |
| AzureEntries.SlotIsThere | providers/azure/backend.go:90-111 | Every index below the count of an offering has its slot |
| AzureEntries.SlotsDistinctExactlyWhen | providers/azure/backend.go:79-85 | Slot ids are distinct if and only if no two offerings with slots share capacity, size and zone, for names without a slash |
| AzureEntries.EntriesCarryTheirFacts | providers/azure/backend.go:189-239 | Behind the slots every entry is that of a zoned VM, an owner under its machine id or another under its resource id, with its own size, zone, recorded capacity (else its priority), resources and prices |
| AzureEntries.FirstDecides | providers/azure/backend.go:244-258 | The first offering of size and zone decides the resources; without one, the first of the size that has any |
| AzureEntries.BeforeIsLexicographic | providers/azure/backend.go:165-171 | The order that picks the owner is the lexicographic one |
| AzureInventory.ResourcesForSize | providers/azure/backend.go:244-258 | The loop finds the first exact offering, else the first of the size with resources |
| AzureInventory.RecoveredResources | providers/azure/backend.go:241-243 | What comes back belongs to an offering of that size; an exact size and zone decides, resources or none; without one, nil means that no offering of that size has any |
| AzureInventory.Group | providers/azure/backend.go:140-159 | Every listed VM is filed once: with its machine's claimants, as a stray, or dropped while deleting |
| AzureInventory.Choose | providers/azure/backend.go:165-176 | The smallest resource id wins and all others are kept as losers |
| LibvirtDomain.Connection.CreateDomain | providers/libvirt/libvirtreal.go:157-293 | The domain is named after the token, or the machine id without one. Whatever calls fail and in whatever order libvirt lists the domains, host, calls made and answer are those of the create as a function of the host, the failing calls and that order |
| LibvirtDomain.Connection.Provision | providers/libvirt/libvirtreal.go:238-291 | Records exactly the volumes it created, not those it adopted, and the domain it defined, and stops at the first failing call |
| LibvirtDomain.Connection.RollBack | providers/libvirt/libvirtreal.go:228-236 | Undefines the domain if it was defined and deletes the recorded volumes, as far as its calls succeed |
| LibvirtDomain.Connection.CreateOrAdopt | providers/libvirt/libvirtreal.go:375-393 | Reports created exactly when the volume is new |
| LibvirtDomain.Connection.WriteSeed | providers/libvirt/libvirtreal.go:350-373 | Reports its volume as created also when a later call fails |
| LibvirtDomain.Connection.FindByMachineID | providers/libvirt/libvirtreal.go:453-464 | Finds the first listed domain whose read succeeds and names the machine |
| LibvirtDomain.Connection.RecoverDomain | providers/libvirt/libvirtreal.go:301-331 | Wakes the domain it found according to its power state and answers with it, or errs |
| LibvirtDomain.RecoverExactly | providers/libvirt/libvirtreal.go:295-331 | Under every plan a domain that is off, crashed, paused or suspended is set running unless a call up to that fails, any other is left alone; when it answers, and when it shows that domain as it then is |
| LibvirtDomain.CreateAnswers | providers/libvirt/libvirtreal.go:157-293 | A successful create answers with the domain of its own name, there before or launched just now for this machine and running, or with one that already carried the machine id |
| LibvirtDomain.ViewShows | providers/libvirt/libvirtreal.go:607-645 | A view shows name and liveness, and the metadata exactly if its read succeeded |
| LibvirtDomain.Connection.UndefineDomain | providers/libvirt/libvirtreal.go:438-448 | The domain is gone unless both calls failed, and failure means that both did |
| LibvirtDomain.Connection.DeleteNamedVolumes | providers/libvirt/libvirtreal.go:473-503 | Removes of the named volumes exactly those whose calls succeed |
| LibvirtDomain.Connection.DeleteDomain | providers/libvirt/libvirtreal.go:403-436 | Host, calls made and answer are those of the delete as a function of the host and the failing calls |
| LibvirtDomain.OneFaultIsHarmless | providers/libvirt/libvirtreal.go:215-236 | For every host, plan of failures and new machine with exactly one failing call: before the start domains and volumes end as they were, volumes adopted included; a failing best-effort call, or one after the start, leaves the domain running |
| LibvirtDomain.RollBackRestores | providers/libvirt/libvirtreal.go:228-236 | Under every plan of failures a rolled-back create keeps all other domains and all volumes that were there, and restores the host completely if no call fails from the rollback on |
| LibvirtDomain.LaunchesExactlyWhen | providers/libvirt/libvirtreal.go:172-293 | Under every plan a create of a new machine launches it exactly when no critical call fails, and then with both its volumes |
| LibvirtDomain.FindExactly | providers/libvirt/libvirtreal.go:453-464 | The lookup by machine id comes up empty exactly when the read of every domain of that machine fails |
| LibvirtDomain.AtMostOneDomain | providers/libvirt/libvirtreal.go:163-184 | Any sequence of one-at-a-time creates and deletes, with any tokens and other failures, keeps one domain per machine id if the lookups' metadata reads succeed |
| LibvirtDomain.DuplicatesExactlyWhen | providers/libvirt/libvirtreal.go:453-464 | A create breaks uniqueness if and only if the machine has a domain under another name beforehand, every read of it in the lookup fails, and no later call up to the define, nor the start unless both undefines fail too |
| LibvirtDomain.OneDomainExactlyWhen | providers/libvirt/libvirtreal.go:163-184 | Over any sequence of creates and deletes one domain per machine id holds throughout if and only if no create in it misses one in that way |
| LibvirtDomain.UnreadDomainIsDuplicated | providers/libvirt/libvirtreal.go:646-661 | One failing metadata read is enough: with it alone, the create of a machine that already runs launches it again |
| LibvirtDomain.DeleteUndoesCreate | providers/libvirt/libvirtreal.go:429-435 | Deleting what was created restores the host, except that volumes adopted before are gone too |
| LibvirtDomain.DeleteExact | providers/libvirt/libvirtreal.go:403-436 | A delete reports success only when the domain is gone, a failure keeps all domains and volumes, and without failures domain and both volumes always go |
| LibvirtDomain.DeleteSucceedsExactlyWhen | providers/libvirt/libvirtreal.go:403-448 | A delete reports success if and only if lookup and state read succeed, a live domain could be destroyed, and one of the two undefines goes through |
| LibvirtDomain.WipeOneFault | providers/libvirt/libvirtreal.go:473-503 | One failing call while two volumes are deleted keeps both if it is the pool lookup, else only the volume it was for |
| LibvirtDomain.RetryProvisionsNothing | providers/libvirt/libvirtreal.go:163-171 | A repeated create under the same name provisions nothing |
| SubstrateIndices.SubstrateIndex.constructor | providers/latitude/substratestate.go:45-75 | Loads the file's entries, later ones winning, and is consistent exactly for settled files |
| SubstrateIndices.SubstrateIndex.Upsert | providers/latitude/substratestate.go:100-116 | Stores the state, frees the server it left, changes no other record or server, and saves every machine once; an empty id changes nothing |
| SubstrateIndices.SubstrateIndex.SetCluster | providers/latitude/substratestate.go:119-130 | Sets the cluster of the machine on that server, no other field and no other record, and saves; does nothing for an unknown server |
| SubstrateIndices.SubstrateIndex.RemoveByServer | providers/latitude/substratestate.go:133-145 | Takes the server and its machine out, no other entry, and saves; does nothing for an unknown server |
| SubstrateIndices.SubstrateIndex.MachineByServer | providers/latitude/substratestate.go:89-97 | A lookup by server never hits a missing record and returns one that names the server back |
| SubstrateIndices.SubstrateIndex.Save | providers/latitude/substratestate.go:148-180 | The file holds every machine's state once |
| SubstrateIndices.AlwaysConsistent | providers/latitude/substratestate.go:27-32 | In every state reached by upserts, rebindings, removals and restarts servers name machines that name them back; exact inverses if no server was ever taken over |
| SubstrateIndices.AlwaysInverseExactlyWhen | providers/latitude/substratestate.go:27-32 | Over a whole history, restarts included, the two maps are exact inverses throughout if and only if no upsert ever takes over another machine's server |
| SubstrateIndices.InverseExactlyWhen | providers/latitude/substratestate.go:105-113 | An upsert keeps the maps exact inverses exactly when the server is not another machine's |
| SubstrateIndices.UpsertIsFound | providers/latitude/substratestate.go:99-116 | The upserted state is found by machine and by server, and no other server leads to it |
| SubstrateIndices.SharingLosesTheServer | providers/latitude/substratestate.go:105-108 | Once shared, a server can stay unindexed although one machine alone is on it, until a reload |
| SubstrateIndices.RemovedStaysAway | providers/latitude/substratestate.go:133-145 | Over any history a removed server is found by no lookup until a later upsert or reload names it |
| SubstrateIndices.RemovedForGood | providers/latitude/substratestate.go:133-145 | If its machine was the only one on it, reloads do not bring it back either: no lookup finds it and no record is on it until an upsert names it |
| SubstrateIndices.ReboundExactly | providers/latitude/substratestate.go:119-130 | Rebinding changes one field of one record |
| SubstrateIndices.ConsistentIfSettled | providers/latitude/substratestate.go:65-73 | A file loads consistently exactly when the last entry naming a server is the last of its machine |
| SubstrateIndices.SaveThenLoad | providers/latitude/substratestate.go:152-180 | Save then load gives every machine back, and the loaded maps are exact inverses exactly when no two machines share a server |
| SubstrateIndices.BothMapsSurviveExactlyWhen | providers/latitude/substratestate.go:152-180 | Both maps come back whatever order the save walked them in if and only if they were exact inverses |
| SlotIdentity.SlotRoundTrip | providers/libvirt/backend.go:220-245 | Parsing a minted slot id gives its type and capacity exactly when neither type nor zone has a slash, the type is catalogued, the capacity real and the index fits; provider labels may hold slashes |
| SlotIdentity.ParsesExactly | providers/libvirt/backend.go:226-245 | The parser accepts exactly the ids of this provider and zone with a known type, a real capacity and a numeric index |
| SlotIdentity.SlotIdInjective | providers/libvirt/backend.go:94-96 | Distinct slots have distinct ids |
| SlotIdentity.IndexIsWritten | providers/libvirt/backend.go:94-96 | The index is written in decimal with at least three digits and reads back |
| SlotIdentity.CapacityRoundTrip | providers/libvirt/backend.go:260-272 | A capacity is read back exactly from its own name |
| SlotIdentity.HostRefRoundTrip | providers/libvirt/backend.go:388-398 | A host ref splits into zone and domain exactly when it was put together from them, zones with slashes included |
| ShellQuote.QuoteByBytes | providers/aws/ec2real.go:504-516 | The byte loop yields the quoted form |
| ShellQuote.QuoteByReplacing | providers/libvirt/libvirtreal.go:937-939 | Replacing every quote yields the same quoted form |
| ShellQuote.QuotingIsUndone | providers/aws/ec2real.go:502-503 | The shell reads a quoted string, at the end or before a blank, as one word with exactly its bytes and leaves the rest, if and only if the string holds no NUL |
| ShellQuote.QuotingIsInjective | providers/libvirt/libvirtreal.go:935-936 | Two strings never share a quoted form |

## Left out

- Save failures: a save is taken to succeed; the code only logs a failure and then promises nothing durable (`providerkit/server.go:680-689`).
- The options of a server (op prefix, readiness gate, Delete support, zone rule) are constant over a run.
- gRPC, protobuf conversion, TLS, flags, metrics, health endpoints and logging: no state worth proving.
- Real time: a timeout is an error that may arrive at any moment.
- Counters and revisions are unbounded; wrap-around at 2^63 is not modelled. The vault's 64-bit counter is.
- The text of the List cursor: a cursor that does not parse as an integer is the same as none.
- Records are values. That the code shares machine records by reference between maps and snapshots, and clones them, is not captured.
- Bootstrap blob and grace period: passed through and never stored.
- Conservation.HostsAreReal: for fleets with a live token of the kit it fails, see Agreement.AgreementExactlyWhen; for tags see Agreement.TagsExactlyWhen.
- Agreement.AgreementExactlyWhen: assumes that the token map names launched instances only, as it does in EC2 (Agreement.CallsKeepIssued). Slots and prices stay the same over a run; Conservation.HostsAreReal has no such limit.
- Conservation.CallsFindTheirInstance: each call acts on EC2 at most once; a client that resends a launch after its instance was deleted is not modelled.
- Price, interruption and instance-type tables are functions of their keys; how they are filled is not modelled.
- Ec2.Describe: takes the configured slots as given, because rendering them repeats what AzureInventory.SpeculativeSlots shows.
- AzureInventory.HostedOnce: assumes distinct resource ids, which Azure guarantees; the slot claims also assume distinct slot ids.
- AzureInventory.Describe: resource ids are compared by character codes, which for them is the byte order Go uses.
- LibvirtDomain.Connection.CreateDomain: a libvirt call that errs has had no effect, and the SHA-256 or base32 domain name is an arbitrary function of the token.
- LibvirtDomain.AtMostOneDomain: creates running at the same time are not covered; there, a volume one attempt adopted can be rolled back by the attempt that made it.
- Vault.AppliedMeansAcked: holds within one process lifetime; across a restart see Vault.StaleAckAcrossRestart. Token checks are a given boolean.
- SubstrateIndices.SubstrateIndex.Save: the write is atomic and succeeds; JSON text and concurrent saves are not modelled.
- FileStores.FileStore.Save: the JSON text is abstract; values it cannot carry, NaN or strings that are not UTF-8, are not modelled.
- The remaining providers, their Describe and fakes: near-copies of the AWS and Azure ones.
- Cloud SDK calls, SSH sessions, guest-agent polling, ISO and MIME building, price-list fetching: foreign calls.
