# A model of the PVN control plane's durable transactions

PVN is a software-defined network for Proxmox VE. Its managers keep all desired state as rows in a control
store and move the ports of virtual machines with compare-and-swap writes: migration, HA relocation, template,
destroy, attach and detach. Managers crash, retry, overtake each other and come back late; agents report at any
moment. This project models that core in Dafny and proves what holds in every interleaving.

The model has four layers.

* **Store.** `Model`, `Graph`, `DeleteGuard`, `GuardExactness` and `CreateGuard` describe rows, references, uniqueness
  and the guards; `Topology` says what a valid graph and a unique table mean for the network. `Store` gives every call
  as a function on the state, `StoreEffects` says exactly when each call takes effect and what it leaves, `MemoryStore`
  is the class that updates its fields in place. `StoreInvariants`, `Runs`, `Leases` and `StoredPorts` prove what every
  sequence of calls keeps, `Replays` why a write at the revision just read is a true compare-and-swap.
* **Compute lifecycle.** `Migration`, `MigrationPorts` and `MigrationAtomicity` move the ports of a migration, and
  `DurableMigration` ties them to the stored operation. `HaRebind`, `HaRecords`, `HaChain`, `HaApply` and `HaProgress`
  rebind the ports of a relocation; `Takeover`, `TakeoverListing` and `TakeoverTarget` join the two. `Lifecycle` holds
  every edit of the durable operation, and `MigrationPhases`, `PayloadClosure`, `HaAuthority`, `Slots`, `VmSlot` and
  `Text` prove what all managers together keep of it. `SourcePorts` and `SourceDeletion` are template and destroy.
* **Ports and addresses.** `PortLifecycle` is attach, detach and report; `PortGenerations` puts every writer of a
  port into one machine; `AddressPool` and `Candidates` are the address iterator and the reservation.
* **Voter plan and hook injector.** `VoterPlan`, `HookText`, `HookBlocks`, `HookJournal`.

State that the program updates in place is a class or an object parameter with methods (`MemoryStore.Memory`,
`MigrationPorts.Server`, `Candidates.Iterator`, the handlers of `SourcePorts`, `SourceDeletion` and `PortLifecycle`);
interleavings are state machines with a step function and a theorem about all runs. A stale worker is a write that
stays armed for ever, a crash is a write that is never fired. Safety comes with progress: where nothing objects, a
handler finishes, also from every state that crashes can leave.

Five laws that one might expect turn out to fail, and the project states exactly when they hold.

* Takeover of a source-directed migration. The promoted payload records the prepared position, so a stale prepare
  is harmless. But compensateMigrationPorts checks ownership before it loads a port, so a stale compensator can
  return a port that HA recovered untouched, to a position nobody recorded. `Takeover.TakeoverIsSafeIff` says in
  which states the takeover is safe. `TakeoverListing.ListingDecides` says what the manager can tell from the ports it
  listed: it is safe whatever is in flight if and only if every port was listed at the migration's generation, and
  every port listed untouched is stranded by some run that shows the manager the very same listing.
* Journal removal by the injector deletes entries one at a time. A recovery that completes still restores all
  originals, and no journal still means one version (`HookJournal.CommitIsAtomic`). But a crash during removal can make
  the next recovery stop half way: `HookJournal.HalfRemovedJournalMixesIff` says which leftovers mix file versions,
  `HookJournal.MixIsReached` gives a run that gets there. With removal as one step every crash recovers.
* A create validates only its own row. `CreateGuard.CreateKeepsGraphIff`: that keeps the whole graph valid unless the
  row is a router interface that puts a next hop of its router on a second link.
* The delete guard refuses more than the graph needs. `GuardExactness.GuardIsExact`: it refuses exactly the rows whose
  removal would invalidate another row, and besides them the last segment of a provider network with networks, an
  interface that is already being deleted, and an interface beside another one on the same paths.
* A reference from a port to a node is weak. `DeleteGuard.NodePurgeKeepsGraphIff`: removing a node keeps the graph valid
  if and only if no port uses it, which the guard never asks.

Facts of the code that the model follows: defaults (among them the LSP name) are filled before the uniqueness check,
so the later fill in Create has no effect; Update validates the prospective graph with the metadata the caller
submitted; Update and MarkReconciled can take a row out of `deleting`; Purge also accepts `error`.

## Model

| member | source | states |
|---|---|---|
| `DeleteGuard.GuardedDeleteKeepsGraph` | internal/controlstore/memory.go:731-801 | a row of any kind but Node that firstReferenceLocked lets go can be marked and purged with every remaining row still passing validateReferencesLocked, routes and floating IPs included |
| `DeleteGuard.RoutesAfter` | internal/controlstore/memory.go:1319-1356 | static routes keep exactly one carrier when an unused row goes |
| `DeleteGuard.FloatingAfter` | internal/controlstore/memory.go:1158-1212 | a floating IP keeps its address, uplink and path when an unused row goes |
| `DeleteGuard.NodesAreUnreferenced` | internal/controlstore/memory.go:1529-1608 | the guard never finds a referrer of a node |
| `DeleteGuard.NodePurgeKeepsGraphIff` | internal/controlstore/memory.go:1610-1650 | removing a node keeps the graph valid if and only if no port names it or its chassis |
| `DeleteGuard.UnusedIsUnneeded` | internal/controlstore/memory.go:1529-1608 | what the guard lets go is not referenced, carries no route, is no only path of a floating IP and no only server of its address |
| `GuardExactness.RemovalKeepsGraphIff` | internal/controlstore/memory.go:1358-1372 | removing a row of any kind but Node keeps every other row valid if and only if none needs it: no reference, no route through it, no floating IP whose only path or only serving subnet it is |
| `GuardExactness.GuardIsExact` | internal/controlstore/memory.go:1529-1608 | firstReferenceLocked refuses exactly the rows whose removal would invalidate another row, and three kinds of row out of caution, which are named |
| `GuardExactness.ReferencesAreLive` | internal/controlstore/memory.go:1236-1249 | in a store that keeps its invariant interfaces lead to live subnets, as the equivalence needs it |
| `GuardExactness.CarrierIsNeeded` | internal/controlstore/memory.go:1319-1356 | a live interface with a next hop on its link is the one carrier of that route |
| `GuardExactness.OnlyPathIsNeeded` | internal/controlstore/memory.go:1306-1317 | without the only interface that leads to its port a floating IP is invalid |
| `GuardExactness.ServingSubnetIsNeeded` | internal/controlstore/memory.go:1260-1277 | without the only subnet that serves its address a floating IP is invalid |
| `CreateGuard.CreateKeepsGraphIff` | internal/controlstore/memory.go:117-128 | a create keeps every row of a valid graph valid if and only if it adds no router interface on whose link a next hop of its router lies |
| `CreateGuard.CarriersAfterCreate` | internal/controlstore/memory.go:1319-1356 | the carriers of a static route after a create are those before and the new interface if it adds a link |
| `CreateGuard.RowStays` | internal/controlstore/memory.go:1002-1230 | one more row invalidates no row but routers |
| `Runs.CreatedGraphIsValidIff` | internal/controlstore/memory.go:77-146 | the same equivalence for a Create call that takes effect |
| `StoreInvariants.EveryRunKeepsInvariant` | internal/controlstore/memory.go:77-146 | typed rows, no dangling reference, unreferenced deleting rows, uniqueness and leased targets hold after every sequence of store calls |
| `StoreInvariants.CallKeepsInvariant` | internal/controlstore/memory.go:461-545 | every single call keeps that invariant |
| `StoreInvariants.PurgeKeepsInvariant` | internal/controlstore/memory.go:773-801 | a purge leaves no dangling reference and no lease without its target |
| `StoreInvariants.PruneKeepsInvariant` | internal/controlstore/memory.go:306-343 | pruning audit rows keeps the invariant |
| `StoreInvariants.CreateKeepsUnique` | internal/controlstore/memory.go:117-128 | validating only the new row is enough for uniqueness of the whole table, address claims included |
| `Runs.ReferencesAreSafe` | internal/controlstore/memory.go:1236-1249 | in every reachable store a strong reference leads to an existing row that is not deleting |
| `Runs.ClaimsAreDisjoint` | internal/controlstore/memory.go:1374-1433 | in every reachable store no two rows claim the same provider address, also after a network update changed its children's claims |
| `Topology.ProviderAddressesAreDisjoint` | internal/controlstore/memory.go:1411-1433 | gateways of subnets, uplinks of routers and floating IPs never share an address of one provider network |
| `Topology.PortsAreDistinct` | internal/controlstore/memory.go:1451-1471 | no two ports share a MAC, an LSP name, a NIC of a VM on a node, or a fixed address |
| `Topology.NamesAreUnique` | internal/controlstore/memory.go:1435-1527 | names are unique per kind, per network for subnets and per provider for segments, and so are chassis; subnets of one network do not contain each other |
| `Topology.AssignmentsAreUnique` | internal/controlstore/memory.go:1472-1516 | allocations, interfaces, floating addresses, physical segments, idempotency keys and operation targets are unique |
| `Topology.RouteLeavesOnce` | internal/controlstore/memory.go:1319-1356 | every static route of a valid graph has exactly one way out of its router, and no default route competes with an uplink |
| `Topology.FloatingIpIsConnected` | internal/controlstore/memory.go:1158-1212 | in a valid graph a floating IP has its address from a live external subnet of its provider, and one that names a port has a whole path: uplink, router, interface, subnet, port |
| `Topology.PortIsPlaced` | internal/controlstore/memory.go:1025-1077 | the network of a port is a tenant network, its addresses belong to subnets of it, its groups exist, and its node carries one of its chassis |
| `Topology.AllocationIsUsed` | internal/controlstore/memory.go:1078-1099 | the port an allocation names has its address on its subnet, in the network of the subnet |
| `Topology.InterfaceJoins` | internal/controlstore/memory.go:1128-1157 | an interface joins a router and a subnet of a network that is not external |
| `Topology.UplinkIsExternal` | internal/controlstore/memory.go:1100-1127 | an uplink is an address of a subnet of an external network with a provider |
| `Runs.LeasedTargetsExist` | internal/controlstore/memory.go:556-610 | a running reconcile or delete has an existing target in every reachable store |
| `Runs.LeasesComeFromClaims` | internal/controlstore/memory.go:495-503 | a lease appears only through a successful claim, with the claimer as owner |
| `Runs.TakeoverRaisesRevision` | internal/controlstore/memory.go:681-714 | claiming, fencing and recovering an operation raise its revision by one |
| `Runs.RevisionsAdvance` | internal/controlstore/memory.go:528-537 | no call lowers a revision, and a call that keeps it keeps the desired state |
| `Runs.RevisionsAdvanceOverRuns` | internal/controlstore/memory.go:461-545 | both over every run in which the row exists |
| `Runs.OvertakenHolderIsFenced` | internal/controlstore/memory.go:612-647 | a holder whose revision was overtaken can never renew, re-claim or complete while the row exists |
| `Runs.KeyedRequestsChangeOnce` | internal/controlstore/memory.go:851-901 | any number of submissions on one idempotency key change the store at most once, as long as no prune removes the recorded row itself |
| `Runs.LaterSubmissionsReplay` | internal/controlstore/memory.go:874-890 | after a keyed request took effect the same request gets its recorded row back and a different one is refused, and neither changes anything |
| `StoreEffects.CreateIff` | internal/controlstore/memory.go:77-146 | a create takes effect exactly when its token is unused, its key free and its row valid, well-referenced and unique; then a pending row at revision one and its record are stored, otherwise nothing changes |
| `StoreEffects.CreatedBodyIs` | internal/controlstore/memory.go:96-102 | the stored body is the submitted one with its defaults; an operation without a key has that of its request |
| `StoreEffects.DefaultsAre` | internal/model/validation.go:439-503 | which defaults a create or update fills in: status, generation and LSP name of a port, state of an allocation, status of a floating IP and of an operation, and nothing else |
| `StoreEffects.CreatedReferencesAreLive` | internal/controlstore/memory.go:1236-1249 | references of a created row lead to rows that are neither deleting nor failed |
| `StoreEffects.AddedReferencesAreLive` | internal/controlstore/memory.go:1236-1249 | so do the references an update adds |
| `StoreEffects.UpdateIff` | internal/controlstore/memory.go:461-545 | an update takes effect exactly at the stored revision, with the permission of the lease, on a valid and unique row and prospective graph; the row is then pending at the next revision |
| `StoreEffects.BeginDeleteIff` | internal/controlstore/memory.go:731-771 | a delete begins exactly at the stored revision of a row not in use, which then is deleting at the next revision |
| `StoreEffects.PurgeIff` | internal/controlstore/memory.go:773-801 | a purge removes a row exactly when it is deleting or failed, at the given revision, not in use and no target of a running operation |
| `StoreEffects.MarkedAfterSuccess` | internal/controlstore/memory.go:803-840 | success makes the current revision ready and applied, and a floating IP active exactly when it is connected; an older success only records what was applied |
| `StoreEffects.MarkedAfterFailure` | internal/controlstore/memory.go:803-840 | a failure counts only at the current revision and keeps what was applied |
| `StoreEffects.HeartbeatIff` | internal/controlstore/memory.go:265-304 | a heartbeat moves the last-seen time of a node forward and changes nothing else |
| `StoreEffects.ClaimIff` | internal/controlstore/memory.go:556-610 | a claim takes effect exactly on an operation of its action and revision that no live lease protects and whose target fits |
| `StoreEffects.RenewIff` | internal/controlstore/memory.go:612-647 | a renewal takes effect exactly for the owner of a running lease whose target is still there |
| `StoreEffects.FenceIff` | internal/controlstore/memory.go:681-714 | a fence gives up exactly the running reconciles on its target whose lease has run out |
| `StoreEffects.RecoverIff` | internal/controlstore/memory.go:345-435 | a recovery gives up exactly those of its batch whose lease has run out or that are queued in vain |
| `StoreEffects.PruneIff` | internal/controlstore/memory.go:306-343 | a prune removes exactly the finished, old, superseded reconciles of its batch that the replay table still knows, with their records |
| `StoreEffects.OtherRevisionIsPrecondition` | internal/controlstore/memory.go:478-486 | another revision than expected is a failed precondition, for update, delete, purge, claim and renewal alike |
| `StoreEffects.ProtectedIsConflict` | internal/controlstore/memory.go:573-580 | rows in use, live leases and leases of another owner are conflicts |
| `StoreEffects.MissingIsNotFound` | internal/controlstore/memory.go:478-482 | a row that is not there is not found |
| `StoreEffects.DuplicateAlreadyExists` | internal/controlstore/memory.go:103-128 | an existing key and a colliding row exist already, an invalid row is invalid |
| `StoreEffects.UsedTokenAnswers` | internal/controlstore/memory.go:874-890 | a used token returns its recorded row for the same request and an idempotency conflict for another |
| `Leases.LiveLeaseIsSafe` | internal/controlstore/memory.go:573-580 | no claim, fence or recovery touches a lease that is live at its cutoff |
| `Leases.FreeOperationIsClaimed` | internal/controlstore/memory.go:556-610 | a queued or expired operation with a fitting target is claimed by any well-formed owner |
| `Leases.LeaseEndsOnlyByHolderOrTime` | internal/controlstore/memory.go:612-718 | a lease changes hands or ends only by its holder, or after its last renewal fell to or below the cutoff |
| `Leases.LeaseStaysWithHolder` | internal/controlstore/memory.go:556-718 | over every run in which no call has a cutoff at or above its renewals the lease stays with its holder until the holder ends it |
| `StoredPorts.EveryStoredPort` | internal/model/validation.go:127-168 | every port of every reachable store has a positive generation, a status, an LSP name, a network, a name and a MAC address, as the lifecycle handlers take for granted |
| `MemoryStore.Memory.Create` | internal/controlstore/memory.go:77-146 | the class method computes Store.Create |
| `MemoryStore.Memory.Update` | internal/controlstore/memory.go:461-545 | the class method computes Store.Update |
| `MemoryStore.Memory.BeginDelete` | internal/controlstore/memory.go:731-771 | the class method computes Store.BeginDelete |
| `MemoryStore.Memory.Purge` | internal/controlstore/memory.go:773-801 | the class method removes the row exactly when Store.PurgeError finds no objection |
| `MemoryStore.Memory.MarkReconciled` | internal/controlstore/memory.go:803-840 | the class method computes Store.MarkReconciled and refuses newer revisions |
| `MemoryStore.Memory.ClaimOperation` | internal/controlstore/memory.go:556-610 | the checks in their order compute Store.Claim and its error; a claim leaves a running operation of the claimer at the next revision |
| `MemoryStore.Memory.RenewOperationLease` | internal/controlstore/memory.go:612-647 | the checks in their order compute Store.Renew and its error; a renewal changes nothing but revision and time |
| `MemoryStore.Memory.FenceReconciles` | internal/controlstore/memory.go:681-714 | expired reconciles on the target are failed; the answers say whether any were expired or live |
| `MemoryStore.Memory.RecoverExpiredOperations` | internal/controlstore/memory.go:345-390 | exactly the batch of RecoveryBatch is failed |
| `MemoryStore.Memory.RecoveryBatch` | internal/controlstore/memory.go:345-435 | the first expired leases by update time and ID, and if all of them fit, the first superseded queue entries in the same order, as many as there is room for |
| `MemoryStore.Memory.PruneOperations` | internal/controlstore/memory.go:306-343 | exactly the batch of PruneBatch goes, together with its replay records |
| `MemoryStore.Memory.PruneBatch` | internal/controlstore/memory.go:306-343 | the most recent terminal reconciles are spared, and of the other prunable rows the most recent 256 are taken, all of them if there are fewer |
| `MemoryStore.Memory.GraphIsSound` | internal/controlstore/memory.go:1358-1410 | the loop over all rows decides whether the prospective graph is valid and unique |
| `MemoryStore.Memory.FirstReference` | internal/controlstore/memory.go:1529-1608 | the loop finds a referrer exactly when the row is in use |
| `MemoryStore.Memory.Get` | internal/controlstore/memory.go:148-159 | the stored row, or nothing exactly when there is none |
| `MemoryStore.Memory.Replayed` | internal/controlstore/memory.go:874-890 | recorded row, conflict or nothing |
| `MemoryStore.Memory.ReconcilesOn` | internal/controlstore/memory.go:681-718 | splits the reconciles on a target into expired and live ones |
| `MemoryStore.TakeFirst` | internal/controlstore/memory.go:446-453 | the first ones of a set in the order of time and ID, all of them if there is room |
| `Replays.CallKeepsReplaysBehind` | internal/controlstore/memory.go:851-901 | recorded updates stay behind the row they updated as long as IDs are not reused |
| `Replays.UpdateIsCompareAndSwap` | internal/controlstore/memory.go:461-545 | an update at the revision just read stores exactly the submitted row or nothing, and is never answered from the replay table |
| `HaRebind.Normalize` | internal/api/compute_lifecycle.go:1995-2023 | the nested loop and the final sort compute Normalized, and the result is in order |
| `HaRebind.NormalizedCovers` | internal/api/compute_lifecycle.go:1995-2023 | normalizing leaves every recorded position covered |
| `HaRebind.NormalizedDraws` | internal/api/compute_lifecycle.go:1995-2023 | normalizing invents no position |
| `HaRebind.OrderedIsInOrder` | internal/api/compute_lifecycle.go:2013-2022 | the recorded positions are ordered by node ID, generation and floor |
| `HaRebind.RepeatsAreRedundant` | internal/api/compute_lifecycle.go:1879-1898 | dropping repeated predecessors loses and invents nothing |
| `HaRebind.SupersedingPortIsFenced` | internal/api/compute_lifecycle.go:1962-1991 | the superseding target generation is above every recorded position unless all of them are at the target |
| `HaRebind.RecordedSurvivesSupersession` | internal/api/compute_lifecycle.go:1934-1993 | a port that one assignment has on record is a recorded predecessor of the one that supersedes it |
| `HaRebind.NewPortIsFenced` | internal/api/compute_lifecycle.go:1904-1932 | a new relocation fences the position it found |
| `HaRecords.NormalizedIsMinimal` | internal/api/compute_lifecycle.go:1995-2023 | each site is recorded once, at the lowest of its floors |
| `HaRecords.RepeatsAreLeftOut` | internal/api/compute_lifecycle.go:1879-1898 | no predecessor is listed twice |
| `HaRecords.NewPortAims` | internal/api/compute_lifecycle.go:1904-1932 | a port already on the target has nothing to do, any other one moves by one revision and one generation |
| `HaRecords.AttachableIff` | internal/api/compute_lifecycle.go:1904-1932 | a relocation takes up exactly the ports that are up and bound to the one chassis of a registered node, with room to move |
| `HaRecords.SupersedingPortIsTight` | internal/api/compute_lifecycle.go:1934-1993 | the new record holds nothing but the earlier record, the earlier target and the position just read, and the fence is the highest recorded generation where all are on the new target, else the next one |
| `HaChain.NoPortIsStranded` | internal/api/compute_lifecycle.go:2030-2097 | in every interleaving of workers, superseding assignments, stale workers and reports each manifest port is at the target of the durable payload or at a recorded predecessor, and the payload is fenced |
| `HaChain.StepKeepsInv` | internal/api/compute_lifecycle.go:2253-2328 | every read, check, write, report, supersession and re-claim keeps all armed writes expected or dead |
| `HaChain.RunKeepsPorts` | internal/api/compute_lifecycle.go:2030-2097 | over every run ports keep their configuration and never lose generation |
| `HaChain.RebindRaisesGeneration` | internal/api/compute_lifecycle.go:2075-2079 | rebinding from elsewhere raises the generation above every recorded predecessor |
| `HaChain.CrashedRelocationResumes` | internal/api/compute_lifecycle.go:2030-2097 | in every reachable world every manifest port is where a worker of the durable payload can take it up |
| `HaChain.SettledPortIsLeftAlone` | internal/api/compute_lifecycle.go:2054-2063 | a worker leaves a port alone that it listed at the target |
| `HaChain.RunKeepsConfigured` | internal/api/compute_lifecycle.go:2253-2328 | over every run the manifest of the durable payload describes the configuration of its ports |
| `HaProgress.RelocationCanFinish` | internal/api/compute_lifecycle.go:2030-2097 | from every reachable world a worker of the durable payload can bring every port to the target |
| `HaProgress.SupersessionIsPossible` | internal/api/compute_lifecycle.go:2253-2328 | from every reachable world a newer assignment can take over, if it knows the nodes and there is room in the history and above the generations |
| `HaProgress.CanAlwaysSupersede` | internal/api/compute_lifecycle.go:1934-1993 | the builder of a superseding payload accepts the ports of every reachable world unless generations or history are exhausted |
| `HaApply.ApplyPorts` | internal/api/compute_lifecycle.go:2030-2097 | a success leaves every port at the target; a failure anywhere leaves each port alone or rebound from a recorded position; undisturbed it succeeds wherever every port can be taken up |
| `HaApply.RebindOne` | internal/api/compute_lifecycle.go:2049-2096 | one port is rebound from the listed value by compare-and-swap or not at all; undisturbed it is rebound from every recorded position |
| `Takeover.RunKeepsInv` | internal/api/compute_lifecycle.go:942-1105 | prepare, abort and compensate workers with any staleness keep every port on the migration's path |
| `Takeover.PromotedPortRecord` | internal/api/compute_lifecycle.go:1513-1550 | the promoted record is the recovered position and the prepared one, with the fence right above both |
| `Takeover.PromotedPortIsFenced` | internal/api/compute_lifecycle.go:1513-1550 | the promoted target generation is above every predecessor's |
| `Takeover.PreparedIsRecorded` | internal/api/compute_lifecycle.go:1523-1531 | a port left at the prepared position is at a recorded predecessor |
| `Takeover.PreparedPositionFits` | internal/api/compute_lifecycle.go:1523-1531 | the recorded prepared position accepts exactly the prepared ports and names their node |
| `Takeover.ReturnedIsRecordedIff` | internal/api/compute_lifecycle.go:1412-1437 | a returned port is on record if and only if it was recovered at the migration's generation |
| `Takeover.LateStepKeepsInv` | internal/api/compute_lifecycle.go:993-1040 | after a safe promotion no step, late loads of compensators included, takes a port off the record |
| `Takeover.TakeoverIsSafeIff` | internal/api/compute_lifecycle.go:1439-1550 | all later interleavings keep every port on record if and only if no port was recovered untouched while a compensator returned it or still can |
| `Takeover.StalePrepareIsHarmless` | internal/api/compute_lifecycle.go:942-991 | stale prepare workers alone never strand a port, also when their writes or reports land between the listing and the promotion |
| `Takeover.HazardStrands` | internal/api/compute_lifecycle.go:993-1040 | every hazard has a run after which the port is off the record |
| `Takeover.HazardIsReached` | internal/api/compute_lifecycle.go:1380-1403 | every migration with a port can reach a hazard |
| `Takeover.StaleCompensatorStrandsAPort` | internal/api/compute_lifecycle.go:993-1040 | for every migration with a port, a promotable run and a continuation that strands it |
| `Takeover.MigrationThenTakeover` | internal/api/compute_lifecycle.go:1329-1410 | every promotion of every run of a begun migration is one the equivalence speaks about |
| `TakeoverListing.RecoveredListingIsSafe` | internal/api/compute_lifecycle.go:1412-1437 | if every port is listed at the migration's generation the takeover is safe in every later interleaving, whatever is in flight |
| `TakeoverListing.UntouchedListingIsHazardous` | internal/api/compute_lifecycle.go:993-1040 | for every run and every port its listing shows untouched, another run shows the same listing and a hazard on that port |
| `TakeoverListing.UntouchedListingStrands` | internal/api/compute_lifecycle.go:993-1040 | that run has a continuation after the promotion that takes this very port off the record |
| `TakeoverListing.ListingDecides` | internal/api/compute_lifecycle.go:1380-1410 | all interleavings before and after a takeover with the given listing keep the ports on record if and only if every port is listed at the migration's generation |
| `TakeoverListing.RunBeside` | internal/api/compute_lifecycle.go:942-1105 | every run of a migration has one beside it in which one port stays as it was listed and everything else is the same |
| `TakeoverTarget.TargetTakeoverIsSafe` | internal/api/compute_lifecycle.go:1393-1410 | a target-directed takeover keeps every port on record in every later interleaving |
| `TakeoverTarget.FinalIsOutOfReach` | internal/api/compute_lifecycle.go:1042-1105 | no write of the migration can land on a port that is at the target alone |
| `MigrationPorts.Server.Update` | internal/controlstore/memory.go:461-545 | compare-and-swap on the ports, as Replays.UpdateIsCompareAndSwap justifies it |
| `MigrationPorts.Server.PreparePorts` | internal/api/compute_lifecycle.go:942-991 | ports move only from the exact source to the exact prepared position; success means all prepared; undisturbed it succeeds on every resumable state |
| `MigrationPorts.Server.CompensatePorts` | internal/api/compute_lifecycle.go:993-1040 | ports move only from prepared back to the source; no failures means all source-only; undisturbed it has none on every resumable state |
| `MigrationPorts.Server.FinishPorts` | internal/api/compute_lifecycle.go:1042-1105 | ports move only from prepared to the chosen side; success means all there; undisturbed it succeeds on every resumable state |
| `MigrationPorts.MoveIsDone` | internal/api/compute_lifecycle.go:971-988 | every move lands at the position its handler is done with, so the revision and configuration checks after a write cannot fail |
| `MigrationAtomicity.MigrationIsAllOrNothing` | internal/api/compute_lifecycle.go:942-1105 | from any crash point every port is at a manifest position with its configuration, and a terminal phase means all ports on one side, each on one chassis |
| `MigrationAtomicity.CrashedHandlerResumes` | internal/api/compute_lifecycle.go:364-469 | whatever a crash left, the handler of the recorded phase can resume on every port |
| `MigrationAtomicity.RunSparesOthers` | internal/api/compute_lifecycle.go:942-1105 | ports outside the manifest are never moved |
| `MigrationAtomicity.MigrationKeepsConnectivity` | internal/api/compute_lifecycle.go:942-1105 | at every moment a port is bound or binding to the source, the target or both; online the source stays until the commit; a prepared port has both chassis, offline the target alone; the old generation is only on the untouched source |
| `DurableMigration.ClaimsAreExact` | internal/api/compute_resources.go:1381-1427 | which phase each claim accepts and writes: prepared from preparing, compensating from preparing or prepared, committing and aborting from prepared alone |
| `DurableMigration.EndingsAreExact` | internal/api/compute_resources.go:1429-1480 | each final write follows its own claim: finalized and aborted succeed, compensated fails |
| `DurableMigration.FirstTakeoverIff` | internal/api/compute_lifecycle.go:1594-1673 | HA sends a preparing, compensating or aborting migration back to the source and a prepared or committing one on to the target, and accepts no other direction |
| `DurableMigration.FurtherTakeoverIff` | internal/api/compute_lifecycle.go:1605-1673 | a further claim keeps the direction; the same service renews, another one needs a higher manager epoch and room in the history |
| `DurableMigration.EditFitsPorts` | internal/api/compute_lifecycle.go:471-544 | every phase a manager may write fits the ports: where the read phase allows them and the recorded handler is done, the written phase allows them |
| `DurableMigration.OperationTellsThePorts` | internal/api/compute_lifecycle.go:364-544 | over every run of managers and agents the stored operation and the ports agree: a final phase means all ports on its side, and whatever phase is stored its handler can resume |
| `DurableMigration.StatusesFit` | internal/api/compute_resources.go:1429-1480 | over every value an operation ever has finalized and aborted are succeeded, compensated is failed, every other phase is running |
| `DurableMigration.EditIsSourceClaim` | internal/api/compute_lifecycle.go:553-594 | every durable edit towards the source is a phase claim of the takeover machine |
| `DurableMigration.SourceClaimIsEdit` | internal/api/compute_lifecycle.go:553-594 | every phase claim of the takeover machine is a durable edit |
| `DurableMigration.EditIsTargetClaim` | internal/api/compute_lifecycle.go:471-544 | the same towards the target |
| `DurableMigration.TargetClaimIsEdit` | internal/api/compute_lifecycle.go:471-544 | the same towards the target, the other way round |
| `DurableMigration.PromotionNeeds` | internal/api/compute_lifecycle.go:1439-1511 | only a running, claimed migration in its slot is promoted, by the proof of its claim, with the original archived and every port recovered in the direction of the claim; the relocation keeps the history of proofs and remembers where it came from |
| `DurableMigration.RecoveredIff` | internal/api/compute_lifecycle.go:1412-1437 | recovered means: back on the source untouched or returned, or on the target alone, each at its generation and revision |
| `DurableMigration.NotesAre` | internal/api/compute_lifecycle.go:2463-2479 | noting an error of a running operation changes the error and nothing else |
| `DurableMigration.ReclaimIff` | internal/api/compute_lifecycle.go:2198-2251 | a relocation is re-claimed exactly by the same assignment with a proof that is not older, while rebinding or ready; nothing but the proof changes |
| `DurableMigration.SupersedeIff` | internal/api/compute_lifecycle.go:2253-2328 | a running relocation is superseded exactly by another service of the VM with a higher manager epoch; the overtaken proof goes into the history and the manifest names the same ports |
| `DurableMigration.RelocationEndIff` | internal/api/compute_lifecycle.go:2481-2512 | a relocation ends exactly when it runs in its slot, as ready at its history target |
| `MigrationPhases.StepIsOneEdit` | internal/api/compute_resources.go:1381-1427 | a write that lands is one edit away from the current value; DurableMigration says what each edit accepts |
| `MigrationPhases.EditKeepsSide` | internal/api/compute_lifecycle.go:1594-1673 | no edit leaves the side a phase has chosen; DurableMigration says which side HA chooses |
| `MigrationPhases.MigrationNeverReverses` | internal/api/compute_lifecycle.go:553-594 | the durable history of one operation never holds a target-side and a source-side phase, and a promoted relocation remembers the side |
| `PayloadClosure.BeginIsAccepted` | internal/api/compute_lifecycle.go:873-900 | a new migration payload is accepted by its decoder, goes from the requested source to the requested target and finds every port at its source position |
| `PayloadClosure.BeginIff` | internal/api/compute_lifecycle.go:873-900 | a migration begins exactly when every port is bound to the source alone, up, and has room for the moves |
| `PayloadClosure.DriftIsSeen` | internal/api/compute_lifecycle.go:1174-1186 | the manifests of migration and relocation see every drift of VM, NIC and configuration and nothing else |
| `PayloadClosure.AcceptedIsWorkable` | internal/api/compute_lifecycle.go:2560-2598 | what the decoders accept has distinct ports with consecutive revisions and generations |
| `PayloadClosure.TakeoverKeepsClosed` | internal/api/compute_lifecycle.go:1605-1673 | an HA claim writes an accepted payload with the original hash |
| `PayloadClosure.ClaimKeepsClosed` | internal/api/compute_resources.go:1381-1480 | phase claims and terminal writes keep the payload accepted and its phase-erased hash |
| `PayloadClosure.PromotionIsAccepted` | internal/api/compute_lifecycle.go:1439-1511 | the promoted payload passes its decoder and its audit |
| `PayloadClosure.SupersessionIsAccepted` | internal/api/compute_lifecycle.go:1934-1993 | a superseding payload passes its decoder and the inherited audit |
| `PayloadClosure.EditKeepsClosed` | internal/api/compute_lifecycle.go:2409-2450 | every edit of an accepted operation writes an accepted one |
| `PayloadClosure.EveryPayloadLoads` | internal/api/compute_lifecycle.go:2560-2598 | every value a migration operation ever has is accepted on load, and no authority history exceeds 32 |
| `PayloadClosure.EveryRelocationLoads` | internal/api/compute_lifecycle.go:2379-2450 | the same for an operation that begins as a relocation |
| `PayloadClosure.HashNeverChanges` | internal/api/compute_lifecycle.go:2526-2534 | plan and phase-erased hash stay those of the begin, and a recovery record carries that hash |
| `HaAuthority.NeutralEditKeepsProofs` | internal/api/compute_lifecycle.go:1439-1511 | promotion and every other edit that accepts nothing keeps exactly the proofs of every VM |
| `HaAuthority.AcceptRecords` | internal/api/compute_lifecycle.go:1605-1673 | every acceptance keeps the newest proof of each UID and adds only the accepted one |
| `HaAuthority.OvertakenUidIsRefused` | internal/api/compute_lifecycle.go:1717-1729 | a UID that was overtaken does not pass the history check |
| `HaAuthority.AuthorityIsOrdered` | internal/api/compute_lifecycle.go:1675-1758 | granted manager epochs never fall and rise strictly with a new UID; within a UID service and nodes stay the same, LRM and lock epochs never fall and equal epochs mean the same proof; an overtaken UID is never granted again |
| `HaAuthority.EnforceHistory` | internal/api/compute_lifecycle.go:1675-1736 | the loops over all durable proofs decide Enforced |
| `HaAuthority.EnforcedIff` | internal/api/compute_lifecycle.go:1675-1758 | after any run the check over all durable records passes exactly the starts that bring a UID the VM was never granted above every epoch it was, or renew the last grant of the VM |
| `Text.SlotInjective` | internal/api/compute_resources.go:1310-1312 | different VMs have different slots |
| `Text.HistoryOfSlot` | internal/api/compute_resources.go:1314-1320 | finishing from a slot or from a history target gives the operation its own history target |
| `Text.HistoryIsNoSlot` | internal/api/compute_resources.go:1314-1320 | a history target is nobody's slot |
| `Text.HistoryInjective` | internal/api/compute_resources.go:1314-1320 | history targets of different operations differ |
| `Text.FirstMarker` | internal/api/compute_resources.go:1314-1320 | the first history marker, or the end |
| `Text.NamesAreLexicographic` | internal/central/placement.go:49-54 | names are compared lexicographically |
| `Slots.SlotIsExclusive` | internal/controlstore/memory.go:1509-1516 | with unique targets two running lifecycle operations of one VM are the same |
| `Slots.ComputeActionIff` | internal/api/compute_resources.go:38-42 | seven kinds of operation take the slot of a VM |
| `Slots.OccupiedSlotIsRefused` | internal/api/compute_resources.go:1285-1308 | while an operation holds the slot no other can be created in it or take it back |
| `Slots.OtherCallEffect` | internal/controlstore/memory.go:345-390 | leases, recoveries and reconciliations change no lifecycle operation |
| `Slots.FinishedSlotIsFree` | internal/api/compute_resources.go:1429-1480 | once an operation left its slot no row holds it |
| `VmSlot.ChangeKeepsSlot` | internal/api/compute_resources.go:2676-2811 | every lifecycle write, snapshot and template manifests included, leaves a running operation in the slot of its VM |
| `VmSlot.FinishingLeavesTheSlotIff` | internal/api/compute_lifecycle.go:2481-2512 | a terminal write moves the operation to its history target, unless it parks it for recovery or retires a snapshot manifest in place; then and only then it still holds its slot |
| `VmSlot.OneOperationPerVm` | internal/api/compute_resources.go:1285-1320 | in every state that any interleaving can reach each VM has at most one running lifecycle operation |
| `VmSlot.OpenTakesFreeSlot` | internal/api/compute_resources.go:1285-1308 | under a new ID and key an operation begins exactly when no stored operation holds the slot of the VM; otherwise nothing changes |
| `SourcePorts.ManifestDescribes` | internal/api/compute_resources.go:1568-1626 | a fresh manifest describes the attachment and exactly the allocations naming the port |
| `SourcePorts.ManifestIff` | internal/api/compute_resources.go:1586-1626 | a manifest is taken exactly of a port whose allocations are all in use for its fixed IPs, one for each |
| `SourcePorts.AllocationsOkIff` | internal/api/compute_resources.go:1819-1888 | in use, the allocations naming a port are exactly the recorded ones, live, at the recorded revisions |
| `SourcePorts.LeavingAllocations` | internal/api/compute_resources.go:1819-1888 | on the way out a recorded allocation may be gone, or deleting one revision later, and no other names the port |
| `SourcePorts.FormsAreExact` | internal/api/compute_resources.go:1635-1663 | the detached and the restored form are recognized exactly as what the moves make of a port with the manifest configuration |
| `SourcePorts.RestoreUndoesDetach` | internal/api/compute_resources.go:1686-1730 | restoring a detached port gives back the port, two generations later |
| `SourcePorts.DetachSourcePorts` | internal/api/compute_resources.go:1665-1702 | wherever it crashes only manifest ports change, each by its exact step; success means all detached with their allocations; where nothing objects it succeeds |
| `SourcePorts.RestoreSourcePorts` | internal/api/compute_resources.go:1704-1745 | from any mix of source, detached and restored ports and wherever it crashes only manifest ports change, each by its exact step; no failures means every manifest attachment is back; on ports given back it changes nothing; where nothing objects it has no failures |
| `SourcePorts.RestoredPortIsTheSame` | internal/api/compute_resources.go:1635-1663 | after any detaches and restores a restored port is the original one, at its own or the second next generation |
| `SourcePorts.AbortTransaction` | internal/api/compute_resources.go:1665-1745 | after any schedule of failing or crashing detaches and restores, a restore without failures leaves every manifest port the port it was, at its own or the second next generation, and every other row untouched; where nothing objects to its writes the restore has no failures |
| `SourceDeletion.ReleaseAllocations` | internal/api/port_provision.go:844-874 | exactly the allocations naming the port go, also those whose deletion a crash interrupted; where nothing hinders them all do |
| `SourceDeletion.GonePortIsUnnamed` | internal/controlstore/memory.go:773-801 | no allocation names a port that is gone |
| `SourceDeletion.DeleteOne` | internal/api/compute_resources.go:1768-1817 | success means one manifest port and all allocations naming it are gone; nothing else changes in any case; a detached port or a tombstone left by a crash goes unless something hinders it |
| `SourceDeletion.DeleteDetachedSourcePorts` | internal/api/compute_resources.go:1766-1820 | nothing but the ports of the manifest and the allocations naming them changes; without failures all of these are gone; where nothing hinders them there are no failures |
| `PortLifecycle.RetryIsReplay` | internal/api/port_lifecycle.go:153-155 | after an attach a retry is a replay, also once the port is bound, and submits the identical request |
| `PortLifecycle.AttachPort` | internal/api/port_lifecycle.go:99-197 | wherever the manager crashes the port is unchanged or attached exactly as requested, from unbound, one generation later; an attempt the store is ready for ends with the port attached unless it crashes |
| `PortLifecycle.RetryAttach` | internal/api/port_lifecycle.go:99-197 | any number of crashing attempts attach the port at most once, and an attempt that does not crash leaves it attached where the store was ready for the first one |
| `PortLifecycle.DetachPort` | internal/api/port_lifecycle.go:199-284 | the port is unchanged or starts detaching where it is; an attempt the store is ready for is carried out unless it crashes; on an unbound port only a completed detach is answered |
| `PortLifecycle.ReportPort` | internal/api/port_lifecycle.go:286-354 | a report of another generation changes nothing; binding becomes bound, or detaching becomes unbound without node, VM, NIC and chassis; with a matching generation it succeeds exactly when the reported status is the stored one afterwards |
| `PortLifecycle.CycleGivesBackThePort` | internal/api/port_lifecycle.go:99-354 | attach, bound, detach and unbound give back the port one generation later, free, attachable again, with the requests of the cycle spent |
| `PortLifecycle.VacatedIsFree` | internal/api/port_lifecycle.go:336-340 | a port reported unbound is attached to nothing and keeps its configuration and generation |
| `PortLifecycle.CarryOut` | internal/api/port_lifecycle.go:168-197 | recording, writing and completing an action: the port is written at most once, at the expected revision, and an action that is underway is carried out by every attempt that does not crash |
| `PortLifecycle.BeginAction` | internal/api/port_lifecycle.go:392-426 | recording the operation touches no port; recorded again it is found, with its success |
| `PortLifecycle.CompleteAction` | internal/api/port_lifecycle.go:428-443 | nothing but the operation changes, which has succeeded unless the store refuses that |
| `PortGenerations.WriteKeepsGeneration` | internal/api/compute_lifecycle.go:2075-2079 | no kind of port write lowers the generation; a rebind acts for an entry of an issued payload |
| `PortGenerations.PortActionsAreWrites` | internal/api/port_lifecycle.go:99-354 | the machine has every attach, detach and report that lands |
| `PortGenerations.LifecycleMovesAreWrites` | internal/api/compute_lifecycle.go:942-1105 | the machine has every move of migration and relocation |
| `PortGenerations.SourceMovesAreWrites` | internal/api/compute_resources.go:1665-1745 | the machine has every move of template and destroy |
| `PortGenerations.IssuedIsFenced` | internal/api/compute_lifecycle.go:1904-1993 | every payload that begin, promotion, supersession or re-claim issues is fenced, from whatever ports were listed |
| `PortGenerations.GenerationNeverFalls` | internal/api/port_lifecycle.go:136-143 | between any two moments of any interleaving of attach, detach, report, migration, HA, supersession, template and destroy writes no generation falls |
| `PortGenerations.AttachLandsOnce` | internal/api/port_lifecycle.go:153-184 | over any interleaving one attach request lands at most once and raises the generation by exactly one |
| `PortGenerations.StaleReportsAreVoid` | internal/api/port_lifecycle.go:306-346 | a report that took effect found the generation it names in the stored port |
| `PortGenerations.LandedRebindIsFenced` | internal/api/compute_lifecycle.go:2075-2079 | a rebind that landed from elsewhere, for any chain of issued payloads, raised the stored generation above every recorded predecessor |
| `AddressPool.OrFillsHostBits` | internal/api/port_provision.go:501-508 | or-ing the host mask onto a network address adds it |
| `AddressPool.OrIsBitwise` | internal/api/port_provision.go:507-507 | the recursive or is the bitwise one |
| `AddressPool.BoundsAreTheBlock` | internal/api/port_provision.go:501-508 | for every prefix length the bounds are network and network + 2^hostbits - 1, inside 32 bits, and exactly the addresses between them are in the prefix |
| `Candidates.Iterator.Next` | internal/api/port_provision.go:452-469 | the iterator yields in order exactly the usable addresses of its ranges and then answers false |
| `Candidates.Iterator.StepInRange` | internal/api/port_provision.go:461-463 | the 32-bit increment never wraps |
| `Candidates.KeptExactly` | internal/api/port_provision.go:475-487 | the filter keeps exactly the usable addresses |
| `Candidates.AddressMembers` | internal/api/port_provision.go:437-448 | the addresses of the ranges are exactly those that lie in one |
| `Candidates.YieldedExactly` | internal/api/port_provision.go:452-469 | an address is yielded if and only if it lies in a range and is usable |
| `Candidates.CandidatesAreExactly` | internal/api/port_provision.go:418-450 | the candidates are the manual address if it is a host in the pools, else all hosts in the pools, else all hosts of the block, that is all addresses strictly between its first and its last but the gateway; only an unusable manual address is refused |
| `Candidates.ReserveAddress` | internal/api/port_provision.go:315-362 | a stored allocation is the answer if it matches; otherwise the first candidate that is not taken is reserved, the subnet is full only when there is none, and it is refused only for an unusable or taken manual address or for what the store has against the first free candidate |
| `Candidates.TryCandidates` | internal/api/port_provision.go:331-361 | the same for any listing of used addresses, however stale, the re-read of an allocation that came into being included |
| `Candidates.UsedIff` | internal/api/port_provision.go:380-408 | an address is used exactly when an allocation of the subnet or a fixed IP of another port has it |
| `Candidates.ReusableIff` | internal/api/port_provision.go:364-378 | a stored allocation answers exactly if it is of the subnet, has the manual address and is not in use for another port |
| `HookText.StripBlocks` | pve-api/compute-inject.py:50-73 | the loop over the lines computes Stripped |
| `HookText.LinesAppend` | pve-api/compute-inject.py:54-54 | text that ends with a newline ends at a line boundary |
| `HookText.StripBlock` | pve-api/compute-inject.py:40-47 | one block with a fresh label leaves no trace |
| `HookText.StripUndoesInsertion` | pve-api/compute-inject.py:40-73 | stripping well-formed, distinctly labelled blocks at line boundaries of marker-free text returns the text |
| `HookText.StripUndoesInjection` | pve-api/compute-inject.py:76-80 | injecting a block after an anchor and stripping is the identity on marker-free text |
| `HookBlocks.MarkerIff` | pve-api/compute-inject.py:32-33 | a marker line is exactly blanks, the marker word, a label and a line end |
| `HookBlocks.StripIff` | pve-api/compute-inject.py:50-73 | a text can be stripped exactly when it consists of plain lines and whole blocks, each ended by its own marker, not nested, with distinct labels; what is left are exactly the lines outside |
| `HookBlocks.ReplaceOnceIff` | pve-api/compute-inject.py:76-80 | the replacement takes the place of an anchor that occurs once and nothing else changes; any other text is refused |
| `HookJournal.StepKeepsInv` | pve-api/compute-inject.py:878-900 | every replace, restore, crash, commit, recovery and removal of an entry keeps each file one of its two versions, in journal order |
| `HookJournal.CommitIsAtomic` | pve-api/compute-inject.py:878-900 | after any crashes, also while entries of the journal are being removed, no journal means all original or all staged, and a recovery that gets through has restored all originals |
| `HookJournal.OnlyWholeVersions` | pve-api/compute-inject.py:696-900 | over any number of transactions what a recovery restores, and what is there without a journal, is one whole version, the first one or one that a transaction brought |
| `HookJournal.EveryCrashRecovers` | pve-api/compute-inject.py:696-734 | with the removal of the journal as one step, whatever journal a run leaves, the recovery gets through and restores all originals |
| `HookJournal.RestoreLoop` | pve-api/compute-inject.py:715-733 | the steps of a recovery do what its loop computes and end where it ends |
| `HookJournal.RecoverJournal` | pve-api/compute-inject.py:696-734 | the loop restores record by record and stops at the first missing backup |
| `HookJournal.RecoveryRestoresPrefix` | pve-api/compute-inject.py:715-731 | a file is restored exactly when no backup up to its own is missing |
| `HookJournal.HalfRemovedJournalMixesIff` | pve-api/compute-inject.py:687-693 | after a crash during removal the next recovery mixes versions if and only if the manifest is left, the recovery gets past a file that the transaction changed and stops before another one |
| `HookJournal.MixIsReached` | pve-api/compute-inject.py:878-900 | whenever a transaction changes two files, a run that commits, crashes during removal and recovers ends with one of them original, the other staged, and a journal that no recovery gets through |
| `HookJournal.RemovalAfterRecoveryIsHarmless` | pve-api/compute-inject.py:732-734 | a removal that follows a recovery leaves nothing but originals to restore |
| `VoterPlan.Select` | internal/central/placement.go:33-94 | the loops compute PlanFor, error cases included |
| `VoterPlan.SameSet` | internal/central/placement.go:106-121 | counting up and down decides equality as multisets |
| `VoterPlan.PlanIsAPermutation` | internal/central/placement.go:30-94 | the voters are all usable nodes, an odd number, each once; one stands alone, more form a cluster of that size; promotion is needed exactly when the present voters differ |
| `VoterPlan.PlanKeepsOrder` | internal/central/placement.go:49-85 | the present voters that are usable come first and keep their order, the added ones follow in enrollment order, by name where it is equal |
| `VoterPlan.PlanExistsIff` | internal/central/placement.go:36-59 | a plan exists exactly when every node is named, no two usable nodes share a name and an odd number is usable |
| `VoterPlan.PlanIgnoresListing` | internal/central/placement.go:49-54 | the plan does not depend on the order in which nodes are listed |
| `VoterPlan.SortedIsUnique` | internal/central/placement.go:49-54 | distinct nodes have only one enrollment order |

## Left out

- HTTP routing, sessions, privilege checks, JSON and error rendering: the model has the store calls the handlers make and the conditions that guard them.
- SHA-256, JSON encoding and deterministic IDs are injective: a hash is the hashed value, a payload is its decoded value, an idempotency scope is the tuple of its parts.
- Text-level validation of resources and IPv4 text are uninterpreted rules for which every theorem holds; MAC addresses and names are compared as canonical text.
- Clocks: expiry of migration intents, freshness of HA proofs and heartbeats, cluster membership and fencing of prior nodes are not modelled; guards that depend on them only make fewer steps possible.
- OVN reconciliation is an outcome from outside; it changes no desired state.
- Descriptive fields (descriptions, MTUs, timestamps of payloads, proof origin and LRM state) are not part of the rows and payloads.
- Clone and snapshot contents: only their operations and the VM slot are modelled, not the ports and blueprints they create.
- Resolution of a node by name or chassis: requests carry the resolved node.
- HaRebind.Normalize: fixes one order among positions that tie on node ID, generation and floor, where the library sort leaves it open.
- SourcePorts.DetachSourcePorts, SourcePorts.RestoreSourcePorts: that they succeed is stated for a store that has nothing against the writes, since validation is uninterpreted.
- MigrationPorts.Server.Update: works on the ports alone; a refusal by validation or uniqueness is an outcome from outside.
- MigrationAtomicity.MigrationIsAllOrNothing: speaks of serialized handlers, as the per-VM lock of one manager gives them; stale workers across managers are the subject of Takeover and HaChain.
- HaAuthority.AuthorityIsOrdered: takes the history check and the write it guards as one step, as the per-VM lock gives it.
- HookJournal.EveryCrashRecovers: takes the removal of the journal as one step; HookJournal.HalfRemovedJournalMixesIff covers the rest.
- Candidates.TryCandidates: other managers may write between the listing and the loop, not between two attempts of the loop.
- Replays.UpdateIsCompareAndSwap: assumes that the ID of a removed row is not given to a new one whose updates carry the same idempotency keys.
- The checks after a port write in prepareMigrationPorts, compensateMigrationPorts and finishMigrationPorts are left out of the methods because MigrationPorts.MoveIsDone shows that they cannot fail.
- Retries of the claim loops (eight attempts) are further steps of the state machines, not loops.
- File permissions, locks, fsync, Perl compilation and version probing of the injector.
- The OVSDB store, the reconciler, the schema package and the user interface.
