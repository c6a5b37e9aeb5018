# Talos operator: the operation protocol

The operator manages Talos machines through two kinds of objects. A *Cluster* carries at most one
cluster operation (rolling reboot, rolling apply, Kubernetes upgrade, bootstrap), which is turned into
a plan of node operations that are started one after the other. A *Node* carries at most one node
operation (provision, bootstrap, apply, OS upgrade, Kubernetes component upgrade, reboot, shutdown,
reset), which is run as a phase machine. Both controllers remember everything in the status of these
objects, so an operator that is stopped and started again goes on from what is stored.

This project models that protocol and proves what it guarantees over whole runs, together with the
parts beside it that have laws of their own: the update loop of the object store, the list of eligible
nodes, the plans, the maintenance window, and the generation of machine configurations.

Check it with `dafny verify dfyconfig.toml`.

## How it is built

- `Types`, `NodeSteps`: a stored node with its machine (boot counter, cordon bit), and for every
  handler the moves one pass may make. Each prefix of the writes of a pass is a move of its own, since
  the operator may stop between any two writes. Answers of Talos, Kubernetes and the registry, and
  timeouts, are choices.
- `Protocol`: the whole state and one step per write: users, cluster controller, node controller,
  machines that reboot or get cordoned, nodes that come and go, crashes. A cluster reconcile that writes
  twice is two steps with anything in between. The proofs refer to history (which operation had a full
  drain pass, which one an entry started, when it was finished); no step reads it.
- `MutualExclusion`, `PlanShape`, `OneAtATime`, `OwnInstance`, `RoleOrder`, `VersionSkew`,
  `Convergence`, `BootstrapOnce`, `Automation`, `NodeHistory`, `NodeCycles`, `PlannedSafety`, `WindowApplies`,
  `UpgradeDrains`, `CleanUp`: theorems over every run.
- `Restarts`, `ClusterRestarts`: which stops of the operator are harmless, exactly, within a pass over a
  node and within a cluster reconcile, and what becomes of the others.
- `LateWrites`: what the main accounts survive when passes are not atomic.
- `NodeController`, `NodePhases`, `ResetRequest`, `ClusterController`, `Planner`, `EligibleNodes`: the
  controllers as they are written, with loops, early returns and failing writes. Node handlers are shown to make moves
  of `NodeSteps`, and which; a cluster reconcile is shown to be a run of `Protocol`, and which run
  (`Chains` does the same for a node reconcile).
- `ObjectStore`, `MaintenanceWindow`, `MachineConfig`: the parts beside the protocol.

Assumptions:

- Node reconciles are serial (`internal/controller/node_controller.go:454-513` sets no concurrency), and
  what a decision reads is fresh. Stale reads are modelled in `ObjectStore`, where they matter.
- Node names are unique; role, cluster and target version of a node stay fixed; boot IDs never repeat.
- A machine asks for a reboot only for a configuration it does not hold yet, and whoever edits patches
  or the machine may change at any time what it holds. Recorded versions are part of the configuration.
- A pass over a node is not interleaved with another controller's write to that same node. The code does
  not ensure this: `updateOpStatus` re-reads the node, so a pass that is under way when another operation
  is put in place writes its phase onto that one. `LateWrites` makes such writes events of a run, and
  says exactly which of them the account of drains and that of plan entries survive.
- `Convergence` is about a fixed set of provisioned nodes; `VersionSkew` lets nodes leave freely and says
  what is asked of those that join.

## What was found

- *One node at a time* fails for a user's Bootstrap: its plan looks at control planes only
  (`BootstrapIsSafeIffWorkersRest` gives the exact condition, `BootstrapBesideBusyWorker` a state).
- *A plan entry is Done when its own operation is* fails if somebody requests another operation on the
  node the runner is waiting for: the runner compares phases only (`BorrowedDone`). It holds, whatever
  else happens, when that one node is spared (`PostflightMeansOwnDone`).
- `docs/mdbook/src/1-quick_start.md:37` says the operator can be restarted at any point without losing
  track. For cluster operations that is so except between the two writes of a start: the entry is then
  started again, whatever its node has done meanwhile (`StoppedReconcileIff`, `StartedTwiceIff`). A
  Bootstrap that succeeded is sent a second time, is refused, and fails the cluster operation
  (`BootstrapSentTwice`); a node reboots twice. For node operations `HarmlessIff` and
  `ProvisionHarmlessIff` say exactly when it is so: the next pass goes where it would have gone, whatever
  the world answers, unless the operator stopped right behind one of these:
  - recording the boot ID at the end of an OS upgrade's verification: the reboot is forgotten, and short
    of another one the operation can only fail (`StrandedForGood`);
  - recording the version of a component about to be upgraded: the node counts as out of sync from then
    on, and the operation can only fail (`DoomedForGood`);
  - an accepted configuration of an Apply: no reboot is due any more, so it ends without verification
    and with its own cordon left on (`UnverifiedSkipsVerification`, `ApplyReturnsCordon`);
  - an accepted configuration of a kubelet upgrade that Talos reboots for: it reboots once more;
  - marking a node provisioned on request, or an accepted first configuration: the Provision fails
    (`StoppingFailsSkippedProvision`, `StoppingFailsAcceptedProvision`).

  Besides, a stop behind a call has it sent again: Bootstrap, Reboot, Shutdown and Reset, image pull and
  installation, configurations, and the reboot of a kubelet upgrade. A machine that refuses the repetition,
  as one that is bootstrapped or being reset does, makes the operation fail, except for the last, which is
  retried (`StoppedCallIsRepeated`, `RefusedRepetitionFailsIff`).
- `docs/mdbook/src/4.4-kubernetes_upgrades.md:13` says a failed Kubernetes upgrade may be resumed by asking
  for it again, and that what is reached already is skipped. A component upgrade gets past Pending exactly
  if its machine holds the configuration for the versions on record (`GetsGoingIff`). One that failed
  between recording its version and an accepted configuration, and one that was skipped because its
  component is disabled (`SkippingPutsOutOfSync`), leave a machine that does not: every further component
  upgrade on it fails until somebody brings it in sync (`BlockedForGood`).
- A Reboot is verified by any reboot since its Pending pass. It follows the call for certain if the call
  left on the boot on record (`RebootFollowsCall`), and only then (`VerifiesAtOnceIff`).
- Passes that overlap with the start of another operation: a late Applying has a safe operation call
  without a drain (`LateApplyingSkipsDrain`), a late Done has the runner tick off an entry whose operation
  has hardly begun (`LateDoneIsTakenOver`); `LateDrainIff` and `LateOwnIff` give the exact late phases.
- *No component newer than an apiserver* holds among the nodes that are there, however others come and go
  (`NeverSkewedAmongThose`), and for the whole cluster if those that join fit in (`NeverSkewed`,
  `JoinIff`). They need not: a node without recorded versions gets the target
  (`internal/controller/node_controller.go:126-170`), so a worker provisioned while apiservers are still
  old is too new at once (`FreshWorkerIsTooNew`). And fitting at that moment is not enough for a control
  plane: one that joins below the target while an upgrade is past its apiservers is overtaken by it
  (`OvertakenServerBreaks`).
- After a finished Kubernetes upgrade a window starts another, needless one exactly if some node has not
  refreshed its status since (`RepeatedUpgradeIff`); `UpgradeStartsTwice` builds such a run.
- A component upgrade gives the cordon bit back as it was, unless the status pass could not read it from
  Kubernetes; an Apply does not after an OS upgrade, or if it drained and then needed no verification.
  `ComponentUpgradeReturnsCordon` and `ApplyReturnsCordon` have the exact conditions.
- An unsafe Apply that needs a reboot can go back and forth forever; a safe one cannot
  (`ApplyCyclesIffUnsafe`, `SafeApplyEnds`).
- The operator's hostname, and the images on record, are the only ones left unless users fill in both the
  old-style section and the document (`HostnameIsTheNodes`, `ImagesAsRecorded`).
- A Reset of user disks that does not name its mode declares a machine unprovisioned that has kept its
  state (`JudgedRightlyIff`); and whether it is graceful also depends on control planes of clusters of the
  same name in other namespaces (`DecideGraceful`).
- `docs/mdbook/src/4.5-automated_upgrades.md:30-34` calls an hourly schedule of one-hour windows
  permanent. It covers every instant but the fire times themselves (`AlwaysInsideIff`,
  `FireTimeInsideIff`).

## Model

| member | source | states |
|---|---|---|
| Types.Versions.Set | api/v1alpha1/node_types.go:264-277 | setting one component's version changes that one and no other |
| NodeSteps.PassFacts | internal/controller/node_controller.go:306-451 | no pass of any handler reopens a finished operation or swaps it for another; a phase other than a Provision's changes only while no other node is active |
| NodeSteps.StaysProvisioned | internal/controller/node_controller_provision.go:67-143 | short of a reset a provisioned node stays provisioned, whatever Provision is requested on it |
| Protocol.FirstOpen | internal/controller/cluster_controller_subop.go:34-41 | the entry the runner works on: all before it are Done, it is not |
| Protocol.StepFate | internal/controller/node_controller.go:265-433 | exhaustive account of what any step can do to one node: nothing, a new Pending operation, one pass of its own controller, or a change from outside |
| MutualExclusion.AcquiringNeedsQuiet | internal/controller/helpers_node_controller.go:94-135 | a node comes to hold the cluster only by a pass of its own made while no other node was active |
| MutualExclusion.NeverTwoHolders | internal/controller/helpers_node_controller.go:94-135 | in every state of every run, with all actions allowed, no two nodes are both in an active phase of a non-Provision operation |
| PlanShape.PlansKeepTheirShape | internal/controller/cluster_controller_subop.go:32-233 | in every state of every run the list is Done* (Applying or Failed)? Pending*, with the names and types first planned; past InProgress all of it is Done |
| PlanShape.StartsInOrder | internal/controller/cluster_controller_subop.go:34-57 | an entry is started only when all before it are Done and all from it on are Pending, so never behind a failed one |
| PlanShape.RunnerKeepsNodes | internal/controller/cluster_controller_subop.go:132-172 | until a plan is dropped, its nodes, types and length stay as planned |
| OneAtATime.OpenedOnlyByStart | internal/controller/cluster_controller_subop.go:106-130 | only the runner's start makes a finished node unfinished |
| OneAtATime.AcceptedPlanIsQuiet | internal/controller/helpers_cluster_controller.go:150-161 | a plan that is not refused is written while every node is finished |
| OneAtATime.StepKeepsInv | internal/controller/cluster_controller_subop.go:32-233 | every allowed step keeps the invariant that ties the one unfinished node to the entry the runner is at |
| OneAtATime.OneNodeAtATime | internal/controller/cluster_controller_subop.go:32-233 | however users override rolling operations with each other, and wherever the operator crashes, at most one node has an unfinished operation; a cluster operation that is Done leaves none |
| OneAtATime.BootstrapIsSafeIffWorkersRest | internal/controller/cluster_controller_bootstrap.go:23-61 | once a Bootstrap plan is accepted and started, at most one node is unfinished exactly when no worker was unfinished at planning |
| OneAtATime.BootstrapBesideBusyWorker | internal/controller/cluster_controller_bootstrap.go:23-61 | a state with an unfinished worker in which a Bootstrap is accepted and started, which leaves two unfinished nodes |
| OwnInstance.StepKeepsLedger | internal/controller/helpers_node_controller.go:19-43 | over any step, an operation is on the ledger of finished ones exactly if it reached Done, with all that its kind asks for behind it, no two nodes share an operation, and the ledger only grows |
| OwnInstance.ObservedIsOwn | internal/controller/cluster_controller_subop.go:150-172 | what the runner takes over from its node is the end of the operation the entry started |
| OwnInstance.PostflightMeansOwnDone | internal/controller/cluster_controller_subop.go:34-172 | at Postflight every entry's own operation reached Done, each before the next one was created, with all that its kind asks for behind it (calls sent, configurations accepted, checks passed; see `NodeHistory.DoneMeansDone`); all that is asked is that nobody else starts an operation on the node the runner is waiting for |
| OwnInstance.BorrowedDone | internal/controller/cluster_controller_subop.go:150-172 | whatever entry the runner waits for, if its node is provisioned and no other node is active, a request on that node leads in three steps to the entry being marked Done although its own operation never finished |
| RoleOrder.FreshPlanOrdersRoles | internal/controller/helpers_cluster_controller.go:131-145 | a new rolling plan has no control plane behind a worker |
| RoleOrder.ControlPlanesFirst | internal/controller/cluster_controller_subop.go:34-41 | in every run, a rolling apply or reboot starts a worker only when the entry of every planned control plane is Done |
| VersionSkew.PassVersions | internal/controller/node_controller_kubernetes_upgrade.go:99-248 | a pass moves recorded versions only to the target and only for the component under upgrade; past Pending that component is at the target |
| VersionSkew.LateStart | internal/controller/cluster_controller_subop.go:34-57 | when an entry for a component other than the apiserver is started, every control plane's apiserver is at the target |
| VersionSkew.UpgradePlanGuards | internal/controller/cluster_controller_kubernetesupgrade.go:107-156 | the four-stage plan has the apiserver of every control plane ahead of any entry for another component |
| VersionSkew.NeverSkewed | internal/controller/cluster_controller_kubernetesupgrade.go:107-156 | in every state of every run no kubelet, controller-manager or scheduler is newer than any control plane's apiserver, through overrides, failures, crashes and nodes that leave, provided that nodes that join fit in |
| VersionSkew.NeverSkewedAmongThose | internal/controller/cluster_controller_kubernetesupgrade.go:107-156 | among the nodes that were there from the start the same holds whatever other nodes join and leave |
| VersionSkew.JoinIff | internal/controller/node_controller_provision.go:263-275 | a step keeps the policy exactly if each node that joins by it is no newer than any apiserver, and a joining apiserver no older than anything |
| VersionSkew.JoinsByProvision | internal/controller/node_controller_provision.go:83-123 | a node joins only by a Provision, with all its versions on record |
| VersionSkew.FreshWorkerIsTooNew | internal/controller/node_controller.go:126-137 | a worker that never had versions recorded gets the target, and if it is provisioned while some apiserver is below the target it violates the policy by that very step |
| VersionSkew.LateRecordIff | internal/controller/node_controller_kubernetes_upgrade.go:222-235 | recording the target for a component other than the apiserver keeps the policy exactly if all apiservers are at the target |
| VersionSkew.OvertakenServerBreaks | internal/controller/node_controller_kubernetes_upgrade.go:222-235 | a control plane below the target beside a pending upgrade of another component: one pass on a quiet cluster breaks the policy |
| Convergence.UpgradePlanCovers | internal/controller/cluster_controller_kubernetesupgrade.go:107-156 | the four stages leave no component of no node out |
| Convergence.FinishedPlanIsUpToDate | internal/controller/node_controller_kubernetes_upgrade.go:176-248 | with a fixed set of nodes, a Kubernetes upgrade at Postflight has kubelet, and on control planes API server, controller manager and scheduler, of every node at the target |
| Convergence.PassKeepsFresh | internal/controller/node_controller_status.go:277-327 | on an up-to-date node KubernetesInSync never turns False |
| Convergence.StaysUpToDate | internal/controller/node_controller_status.go:277-327 | from the end of an upgrade on, all versions stay at the target in every later state |
| Convergence.StaysFresh | internal/controller/node_controller_status.go:277-327 | a node whose KubernetesInSync was refreshed once after the upgrade never reads False again |
| Convergence.NoFurtherUpgrade | internal/controller/cluster_controller.go:285-341 | after a finished upgrade, and one refresh of each node, no maintenance window ever starts another Kubernetes upgrade |
| Convergence.StaleUntilStatusPass | internal/controller/node_controller_status.go:64-69 | the False a node recorded before its own component upgrade outlives that upgrade until its next status pass, in every run |
| Convergence.RepeatedUpgradeIff | internal/controller/cluster_controller.go:285-341 | at rest after a finished upgrade, with no configuration to apply, a window starts another upgrade if and only if some node has not refreshed its status since, in every run |
| Convergence.UpgradeStartsTwice | internal/controller/cluster_controller.go:285-341 | wherever only the last kubelet is left, a run of seven steps finishes the upgrade with every version at the target and starts it all over again |
| BootstrapOnce.PassKeepsPinned | internal/controller/node_controller_provision.go:67-81 | on a provisioned node no Provision ever gets past Pending, so a bootstrapped node never again looks freshly provisioned |
| BootstrapOnce.MarkBlocksAutomation | internal/controller/cluster_controller.go:231-250 | the automatic bootstrap cannot fire while any node was chosen before |
| BootstrapOnce.StepKeepsOnce | internal/controller/cluster_controller_bootstrap.go:109-132 | every step keeps the account: at most one chosen node, none while a Bootstrap is Pending, the planned one while it is InProgress |
| BootstrapOnce.OneBootstrapNode | internal/controller/cluster_controller.go:213-279 | over a whole run, crashes included, all Bootstrap calls go to one and the same node, a control plane |
| Automation.OnlyUsersReplaceFailed | internal/controller/cluster_controller.go:285-289 | a step that replaces a failed cluster operation is the intake of a user's request, and nothing is started from a failed one |
| Automation.FailureLatches | internal/controller/cluster_controller.go:285-289 | without user requests a failed cluster operation stays as it is forever and starts nothing more on any node |
| Automation.WorstCaseIsOneNode | docs/mdbook/src/4.5-automated_upgrades.md:26-26 | once an unattended cluster operation has failed, only the node it failed on, if any, is ever left unfinished |
| Automation.AutomaticStarts | internal/controller/cluster_controller.go:213-341 | whatever begins in an unattended run begins from none or Done; in a window it is a RollingApply exactly if some provisioned node is out of sync and a KubernetesUpgrade exactly otherwise, then with some node behind; a Bootstrap only over control planes that are all ready and last did nothing but a Provision |
| Automation.WindowKind | internal/controller/cluster_controller.go:281-341 | what a window begins: configuration exactly if some provisioned node has ConfigInSync False, otherwise an upgrade, for some node with KubernetesInSync False |
| Automation.BeginsAsRequested | internal/controller/cluster_controller.go:343-371 | what begins while a request stands is what was requested |
| WindowApplies.PlanMeans | internal/controller/cluster_controller_reboot.go:52-66 | what an accepted plan consists of: one safe Reboot, or one safe Apply, for every provisioned node and nothing else; one safe Bootstrap on the first control plane; safe component upgrades only |
| WindowApplies.AcceptedPlanMeans | internal/controller/cluster_controller_apply.go:41-88 | a plan is accepted only over nodes without an unfinished operation; an apply or upgrade only over ready ones without drift; a bootstrap only over ready control planes in sync or awaiting their first update |
| WindowApplies.WindowPlansApplies | internal/controller/cluster_controller.go:285-341 | in every unattended run, what a window began while some provisioned node was out of sync is refused or becomes one safe Apply for every provisioned node |
| WindowApplies.WindowBringsInSync | internal/controller/cluster_controller.go:285-341 | and once it is at its end, each of these nodes was found in sync or had its configuration accepted by its own Apply of that plan |
| PlannedSafety.PlansAreSafe | internal/controller/cluster_controller_reboot.go:52-66 | no step puts an unsafe operation on a plan |
| PlannedSafety.EveryCallIsDrained | internal/controller/node_controller_power.go:72-132 | in every run in which users request no unsafe operation, whatever they request of the cluster: every Reboot, Shutdown and Reset call ever sent came from an operation that had a full drain pass |
| PlannedSafety.EveryApplyEnds | internal/controller/node_controller_apply.go:135-410 | in every such run without an outside uncordon every Apply changes phase at most twelve times |
| CleanUp.CleanupWipes | internal/controller/node_controller.go:345-366 | the clean-up is a safe Reset that wipes STATE, of a deleted, provisioned and idle node that has its finalizer |
| CleanUp.CleansUpOnce | internal/controller/node_controller_reset.go:213-300 | in every run a node whose wiping Reset is Done is unprovisioned and without finalizer, and its clean-up does not start over |
| NodeHistory.MemberStep | internal/controller/helpers_k8s.go:170-369 | every step keeps the account of drains, reboots and accepted configurations of a node |
| NodeHistory.VerifiedApplyHasRebooted | internal/controller/node_controller_upgrade.go:486-539 | an Apply that is Done has seen one reboot since its Pending pass for each of the two verifications it went through |
| NodeHistory.DoneMeansDone | internal/controller/node_controller.go:406-433 | in every run, an operation that is Done did what its kind asks for: a Bootstrap or Shutdown sent its call, a Reboot or Reset also passed its last check, an Apply was in sync or had its configuration accepted, an OS upgrade was not needed or was verified, a component upgrade was skipped or was accepted and verified |
| NodeHistory.DrainedByAPass | internal/controller/helpers_k8s.go:235-322 | an operation counts as drained only because of a step in which it cordoned its node and had every listed pod's removal accepted |
| NodeHistory.CallFollowsDrain | internal/controller/node_controller_power.go:72-132 | over all runs and restarts a safe Reboot, Shutdown or Reset sends its call only after a step in which that very operation cordoned the node and had every listed pod's removal accepted |
| LateWrites.LateDrainIff | internal/controller/helpers_node_controller.go:25-36 | a phase written late keeps the account of drains exactly if it is not Applying on a safe operation that was not drained |
| LateWrites.CallIsDrained | internal/controller/helpers_node_controller.go:25-36 | in every run whose late writes are of that kind, safe operations still call only with a drain of their own behind them |
| LateWrites.LateApplyingSkipsDrain | internal/controller/helpers_node_controller.go:25-36 | with the other kind a run of two events sends the call of a safe operation without a drain |
| LateWrites.LateOwnIff | internal/controller/helpers_node_controller.go:25-36 | a phase written late keeps the account of plan entries exactly if it is Done just for finished operations, and no phase without what it presupposes: a call sent, a configuration accepted, a check passed |
| LateWrites.PostflightDespiteLateWrites | internal/controller/cluster_controller_subop.go:34-172 | in every run whose late writes are of that kind, a plan at its end stands for its own operations, in plan order |
| LateWrites.LateDoneIsTakenOver | internal/controller/cluster_controller_subop.go:150-172 | a late Done on the node the runner is waiting for marks the entry Done although its operation did not finish |
| NodeCycles.PassDescends | internal/controller/node_controller_apply.go:135-410 | every phase change of a safe Apply, upgrade subroutine included, strictly lowers a measure of phase and cordon bit |
| NodeCycles.SafeApplyEnds | internal/controller/node_controller_apply.go:135-410 | with no outside uncordon, the phase changes of a safe Apply are bounded by its measure, at most twelve, in every run |
| NodeCycles.DrainedAtMostOnce | internal/controller/node_controller_apply.go:225-306 | once back in Applying from its drain, a safe Apply never enters the drain again |
| NodeCycles.ApplyCyclesIffUnsafe | internal/controller/helpers_k8s.go:180-192 | from an uncordoned Applying, going to the drain and back to the very same node is possible exactly if a reboot is due and the operation is unsafe |
| NodeCycles.ComponentUpgradeReturnsCordon | internal/controller/node_controller_kubernetes_upgrade.go:557-601 | a component upgrade that reaches Done, by any path, leaves the cordon bit of its Pending pass if that was recorded truthfully; and the exact condition in general |
| NodeCycles.ApplyReturnsCordon | internal/controller/node_controller_apply.go:256-409 | the exact condition under which an Apply that reaches Done leaves the cordon bit of its Pending pass; a drain without a verification leaves the operator's cordon on |
| NodeCycles.RebootFollowsCall | internal/controller/node_controller_power.go:161-218 | in every run, a Reboot whose call left on the boot on record is Done only once its machine runs a later boot |
| NodeCycles.VerifiesAtOnceIff | internal/controller/helpers_k8s.go:331-338 | a verification can pass without any further reboot exactly if the machine does not run the boot on record |
| NodeCycles.ReadyMachinesRebootCordoned | internal/controller/node_controller_apply.go:225-296 | in every run, an Apply whose configuration rebooted a machine that Kubernetes showed as ready did so on a cordoned node; if the node was not cordoned at its Pending pass, and nobody else cordoned it, the Apply had drained it in its own drain phase |
| UpgradeDrains.InstallsAreDrained | internal/controller/node_controller_upgrade.go:138-200 | in every run a safe OS upgrade past its drain phase had a full drain pass where Kubernetes was ready, and the one within an Apply had it everywhere |
| ClusterRestarts.StoppedReconcileIff | internal/controller/cluster_controller.go:343-371 | a cluster reconcile with two writes that stops behind the first is made up for by the next one, which ends in the very same state, if and only if it was not starting an entry: requests, automatic bootstraps and failed entries are carried on with |
| ClusterRestarts.StartsAccount | internal/controller/cluster_controller_subop.go:106-148 | while a plan is under way, an entry has been started once for each crash that hit between the two writes of its start, and once more if it counts as begun |
| ClusterRestarts.StartedTwiceIff | internal/controller/cluster_controller_subop.go:106-148 | an entry that has begun was started more than once if and only if a crash hit between the two writes of a start of it |
| ClusterRestarts.BootstrapSentTwice | internal/controller/cluster_controller_subop.go:106-148 | from any state in which a Bootstrap is about to be started on a provisioned node of a quiet cluster, a run of ten steps with one crash sends the call twice and ends with the cluster operation failed, although the first call had succeeded |
| Restarts.HarmlessIff | docs/mdbook/src/1-quick_start.md:37-37 | for every pass over a node, of every handler, that ended before its phase write: the next pass goes where it would have gone, for all answers of the world, if and only if it did not stop right behind a recorded boot ID, a recorded version or an accepted configuration |
| Restarts.ProvisionHarmlessIff | internal/controller/node_controller_provision.go:83-278 | the same for a Provision: if and only if it did not stop behind marking the node provisioned on request or behind an accepted configuration |
| Restarts.RecordedVersionDerails | internal/controller/node_controller_kubernetes_upgrade.go:222-245 | a version recorded without its phase makes a node that was in sync out of sync, and the next pass fail |
| Restarts.RefusedRepetitionFailsIff | internal/controller/node_controller_bootstrap.go:61-105 | with everything granted but its call, a pass fails exactly in Applying and in the phases that pull and install; in KubeletReboot, which sends a call too, it waits |
| Restarts.StoppedCallIsRepeated | internal/controller/node_controller_reset.go:174-193 | a Bootstrap, Reboot, Shutdown or Reset that stopped behind its call leaves that phase only by sending the call again |
| Restarts.StoppingStrandsVerification | internal/controller/node_controller_upgrade.go:526-550 | stopping between the boot ID write and the phase write leaves a verification that has forgotten its reboot |
| Restarts.StrandedOnlyFails | internal/controller/node_controller_upgrade.go:470-491 | such a verification stays as it is or fails, on every pass |
| Restarts.StrandedForGood | internal/controller/node_controller_upgrade.go:470-491 | in every run without another reboot it never gets out but by failing |
| Restarts.StoppingDoomsComponentUpgrade | internal/controller/node_controller_kubernetes_upgrade.go:222-245 | stopping between the version write and the phase write leaves an upgrade that is out of sync with its own node |
| Restarts.DoomedOnlyFails | internal/controller/node_controller_kubernetes_upgrade.go:110-121 | such an upgrade stays Pending or fails, on every pass |
| Restarts.DoomedForGood | internal/controller/node_controller_kubernetes_upgrade.go:110-121 | in every run in which nobody changes the node's configuration it never gets out but by failing |
| Restarts.GetsGoingIff | docs/mdbook/src/4.4-kubernetes_upgrades.md:13-13 | some answer of the world takes a component upgrade past Pending exactly if its machine holds the configuration for the versions on record |
| Restarts.SkippingPutsOutOfSync | internal/controller/node_controller_kubernetes_upgrade.go:176-205 | skipping a disabled component records its version without a configuration, which puts a machine that was in sync out of sync |
| Restarts.BlockedForGood | docs/mdbook/src/4.4-kubernetes_upgrades.md:13-13 | in every run in which nobody brings such a machine in sync, no component upgrade on it, however often re-issued, gets past Pending but by failing |
| Restarts.UnverifiedSkipsVerification | internal/controller/node_controller_apply.go:192-296 | an Apply whose machine holds its configuration already goes to no drain and no verification, and leaves the cordon bit alone |
| Restarts.StoppingFailsSkippedProvision | internal/controller/node_controller_provision.go:69-123 | stopping between the two writes of a skipped Provision makes its next pass fail |
| Restarts.StoppingFailsAcceptedProvision | internal/controller/node_controller_provision.go:160-175 | stopping behind an accepted first configuration makes the Provision fail: the machine is no longer in maintenance mode |
| EligibleNodes.LessIsTransitive | internal/controller/helpers_cluster_controller.go:138-143 | the order of names is transitive |
| EligibleNodes.LessIsTotal | internal/controller/helpers_cluster_controller.go:138-144 | two names are equal or one comes first |
| EligibleNodes.SortedIsUnique | internal/controller/helpers_cluster_controller.go:131-145 | two sorted lists with the same elements are equal |
| EligibleNodes.ListEligible | internal/controller/helpers_cluster_controller.go:90-148 | whatever the order of the API's answer, the result is the sorted list of exactly the provisioned nodes asked for |
| EligibleNodes.SortNodes | internal/controller/helpers_cluster_controller.go:131-145 | the result is sorted and has the same elements |
| EligibleNodes.EligibleListIsUnique | internal/controller/helpers_cluster_controller.go:90-148 | there is only one such list |
| EligibleNodes.AllNodesSplit | internal/controller/cluster_controller_kubernetesupgrade.go:32-44 | the list of all nodes is the list of control planes followed by the list of workers |
| EligibleNodes.PlanningIsDetermined | internal/controller/cluster_controller_kubernetesupgrade.go:30-168 | two plan steps from the same state are the same step |
| Planner.OtherOpsInProgress | internal/controller/helpers_cluster_controller.go:150-161 | finds the first node with an unfinished operation, and one exactly if there is any |
| Planner.PlanReboot | internal/controller/cluster_controller_reboot.go:27-74 | refuses exactly if some node has an unfinished operation; otherwise one Pending safe Reboot for each node in order, field by field |
| Planner.PlanApply | internal/controller/cluster_controller_apply.go:21-109 | all or nothing: refuses exactly if some node has an unfinished operation, is not ready, or has drifted; otherwise one Pending safe Apply for each node in order, field by field |
| Planner.PlanUpgrade | internal/controller/cluster_controller_kubernetesupgrade.go:30-168 | the same refusals; otherwise safe component upgrades: API server, controller manager and scheduler for each control plane, then the kubelet for each node, field by field |
| Planner.PlanBootstrap | internal/controller/cluster_controller_bootstrap.go:22-132 | refuses exactly without control planes, with an unfinished operation on one, or with one that is not ready or is out of sync without awaiting its first update; otherwise one Pending safe Bootstrap for the first |
| Planner.MakePlan | internal/controller/cluster_controller.go:378-390 | whatever order the API lists nodes in, the plan written is the one a protocol step writes, which `WindowApplies.PlanMeans` spells out |
| ClusterController.RunnerIdleIff | internal/controller/cluster_controller_subop.go:150-211 | the runner does nothing exactly while its node is at work and time is left |
| ClusterController.RunnerFailsIff | internal/controller/cluster_controller_subop.go:68-211 | the runner gives up exactly on an unreadable or vanished node, a failed entry, a failed node, or a late one that is not done |
| ClusterController.RunnerStartsIff | internal/controller/cluster_controller_subop.go:34-148 | the runner starts an operation exactly if the first entry that is not Done has not been started, and ends the plan exactly if all entries are Done |
| ClusterController.AnyOutOfSync | internal/controller/cluster_controller_status.go:118-125 | true exactly if some provisioned node has ConfigInSync False |
| ClusterController.AnyNeedsKubernetes | internal/controller/cluster_controller_status.go:127-133 | true exactly if some provisioned node has KubernetesInSync False |
| ClusterController.ReadyForBootstrap | internal/controller/cluster_controller.go:220-250 | true exactly if there are control planes, all of them ready, with no operation behind them or a Provision that is Done; which is when the protocol allows the automatic bootstrap |
| ClusterController.Controller.FindOpen | internal/controller/cluster_controller_subop.go:34-41 | the index of the first entry that is not Done |
| ClusterController.Controller.Start | internal/controller/cluster_controller_subop.go:106-148 | the node is written first, with just the operation the entry asks for, then the cluster, with the entry in Applying, as far as writes succeed |
| ClusterController.Controller.Observe | internal/controller/cluster_controller_subop.go:150-172 | the node's end is taken over, and a failed one fails the cluster operation in the same reconcile |
| ClusterController.Controller.RunEntry | internal/controller/cluster_controller_subop.go:86-233 | what is done at the current entry: lose, start, observe, time out or fail, or wait |
| ClusterController.Controller.RunSubOperations | internal/controller/cluster_controller_subop.go:25-237 | a turn of the runner is a run of protocol steps, exactly those of its script up to the write that fails, a new status message being the first write |
| ClusterController.Controller.TakeIn | internal/controller/cluster_controller.go:343-371 | the operation put in place is the one requested, and the request is cleared if there are writes for that |
| ClusterController.Controller.MakePlans | internal/controller/cluster_controller_apply.go:21-109 | a Pending operation is planned in one write, the plan step of the protocol |
| ClusterController.Controller.AutoBootstraps | internal/controller/cluster_controller.go:251-279 | the automatic bootstrap is put in place and planned in the same reconcile |
| ClusterController.Controller.Postflights | internal/controller/cluster_controller_kubernetesupgrade.go:179-306 | exactly when it ends Done (an upgrade only behind its manifests), and that an upgrade without control planes ends Failed |
| ClusterController.Controller.Trigger | internal/controller/cluster_controller.go:213-341 | fires exactly if the automatic bootstrap or the window may; a window puts a RollingApply in place exactly if some provisioned node is out of sync, otherwise a KubernetesUpgrade; the reconcile is then just its script |
| ClusterController.Controller.Reconcile | internal/controller/cluster_controller.go:71-406 | a whole reconcile is a run of protocol steps: behind the writes of defaults and conditions come triggers, then a request, then the operation at hand, up to the write that fails |
| ClusterController.Controller.Resume | docs/mdbook/src/1-quick_start.md:37-37 | wherever the operator was stopped, what it does when it comes back is a crash followed by the script of a reconcile |
| NodeController.ReceivePull | internal/controller/node_controller_upgrade.go:295-335 | good exactly if the stream named the image and broke nowhere |
| NodeController.ReceiveInstall | internal/controller/node_controller_upgrade.go:370-412 | good exactly if the stream broke nowhere and had no exit code but 0 |
| NodeController.EvictAll | internal/controller/helpers_k8s.go:267-308 | good exactly if no listed pod was refused, and the accepted ones are the listed ones not refused |
| NodeController.NodeObject.SetPhase | internal/controller/helpers_node_controller.go:19-43 | changes the phase and nothing else, or nothing at all |
| NodeController.NodeObject.Drain | internal/controller/helpers_k8s.go:170-322 | a drain move; it counts as passed exactly if it is safe, in time, cordoned, and no listed pod was refused, and then lists the pods it saw |
| NodeController.NodeObject.HasRebooted | internal/controller/helpers_k8s.go:324-369 | true exactly if the boot ID differs from the recorded one and Kubernetes is back if it was there before |
| NodeController.NodeObject.Bootstraps | internal/controller/node_controller_bootstrap.go:15-122 | a move of the Bootstrap machine, wherever writes stop; and with all writes through, exactly the phase the answers call for |
| NodeController.NodeObject.Powers | internal/controller/node_controller_power.go:16-222 | a move of the power machine, wherever writes stop, and with all writes through exactly the phase the answers call for; a refused call fails and no other does; a Reboot is verified only in time, uncordoned, with Kubernetes back where it was before |
| NodeController.NodeObject.VerifyReboots | internal/controller/node_controller_power.go:161-218 | Done means the machine runs another boot than the recorded one and is uncordoned |
| NodeController.NodeObject.Resets | internal/controller/node_controller_reset.go:21-304 | a move of the reset machine, wherever writes stop, and with all writes through exactly the phase the answers call for; a refused call fails and no other does; verified only once the machine is gone |
| NodeController.NodeObject.FinishReset | internal/controller/node_controller_reset.go:213-300 | with three writes left the operation is Done and a wiped node is unprovisioned and without finalizer |
| ResetRequest.JudgedRightlyIff | internal/controller/node_controller_reset.go:98-121 | the verification judges rightly whether STATE is gone exactly unless user disks were to be wiped without naming the mode |
| ResetRequest.DecideGraceful | internal/controller/node_controller_reset.go:137-172 | as requested; otherwise graceful exactly for a worker or beside another healthy control plane, of this cluster or of one of the same name elsewhere |
| ResetRequest.CountHealthy | internal/controller/node_controller_reset.go:155-166 | positive exactly if another listed control plane is healthy |
| NodeController.NodeObject.Upgrades | internal/controller/node_controller_upgrade.go:31-607 | a move of the OS upgrade machine, wherever writes stop, and with all writes through exactly the phase the answers call for; Done behind Pending only if no upgrade is needed; verified only with the wanted release running, after a reboot and in time |
| NodeController.NodeObject.BeginUpgrade | internal/controller/node_controller_upgrade.go:138-200 | skips only if the running release is the one configured, drains exactly where Kubernetes was ready |
| NodeController.NodeObject.EndUpgrade | internal/controller/node_controller_upgrade.go:554-607 | goes on only uncordoned, to Applying within an Apply and to Done otherwise |
| NodeController.NodeObject.Installs | internal/controller/node_controller_upgrade.go:202-468 | image check and the two upgrade paths: which phase follows which, and Failed on any refusal |
| NodeController.NodeObject.VerifyUpgrade | internal/controller/node_controller_upgrade.go:470-552 | passes only in time, on a boot other than the recorded one with the wanted release, and records it; fails only late, or rebooted into another release |
| NodeController.NodeObject.Applies | internal/controller/node_controller_apply.go:41-413 | a move of the Apply machine, wherever writes stop, and with all writes through exactly the phase the answers call for; a configuration that reboots a machine shown as ready is accepted only on a cordoned node |
| NodeController.NodeObject.BeginApply | internal/controller/node_controller_apply.go:136-190 | clears drift, and skips exactly if the configuration is in sync |
| NodeController.NodeObject.SendConfig | internal/controller/node_controller_apply.go:192-296 | drains only if a reboot is due on a node that Kubernetes shows as ready and not cordoned; a configuration is accepted only behind a dry run, one that reboots only on a node that Kubernetes shows, and cordoned if shown as ready; fails only on a refusal |
| NodeController.NodeObject.VerifyApply | internal/controller/node_controller_apply.go:308-409 | passes only in time, on a boot other than the recorded one, with Kubernetes back and ready where it was before, and with its own cordon taken back |
| NodeController.NodeObject.UpgradesComponent | internal/controller/node_controller_kubernetes_upgrade.go:20-605 | a move of the component upgrade machine, wherever writes stop, and with all writes through exactly the phase the answers call for; skipped, or Done behind Pending, only if the component is disabled; verified only with component, image and readiness as wanted |
| NodeController.NodeObject.RollComponent | internal/controller/node_controller_kubernetes_upgrade.go:259-371 | a kubelet under Longhorn is rebooted, unless Talos did so itself, and verified only after another boot |
| NodeController.NodeObject.BeginComponent | internal/controller/node_controller_kubernetes_upgrade.go:100-248 | fails exactly out of sync or for a component that does not fit the role; otherwise the version is recorded before the phase; Done only for a controller manager or scheduler that is disabled, Applying only for one that is enabled |
| NodeController.NodeObject.RecordComponent | internal/controller/node_controller_kubernetes_upgrade.go:168-248 | two writes: the target version of that component alone, then Done if it is disabled, Draining for a kubelet beside Longhorn, Applying otherwise |
| NodeController.NodeObject.VerifyComponent | internal/controller/node_controller_kubernetes_upgrade.go:373-601 | Done means that a cordon of its own was taken back |
| NodeController.NodeObject.Provisions | internal/controller/node_controller_provision.go:23-413 | a move of the Provision machine, wherever writes stop, and with all writes through exactly the phase the answers call for; no machine is configured that is taken, and Done only once it is out of maintenance, in time, with a valid image |
| NodeController.NodeObject.BeginProvision | internal/controller/node_controller_provision.go:67-143 | configures nothing, and marks a node provisioned only on request |
| NodeController.NodeObject.SendFirstConfig | internal/controller/node_controller_provision.go:145-278 | a machine gets its first configuration, and the node is marked provisioned, only if it is not taken, holds none, can be reached and accepts it |
| NodeController.NodeObject.VerifyProvision | internal/controller/node_controller_provision.go:280-409 | Done means that the finalizer is in place and an outdated machine is marked for its first update |
| NodeController.NodeObject.RefreshStatus | internal/controller/node_controller_status.go:59-443 | a status move; complete exactly if nothing stands in the way, and then the node is just what was found: boot ID, readiness, ConfigInSync from the configuration held, KubernetesInSync from the versions, cordon bit if Kubernetes could be read |
| NodeController.NodeObject.CompareVersions | internal/controller/node_controller_status.go:277-327 | KubernetesInSync says whether all role-relevant versions are the target |
| NodeController.NodeObject.Handle | internal/controller/node_controller.go:406-433 | the move of the machine for the operation's type, and none while another node is active |
| NodeController.NodeObject.Operate | internal/controller/node_controller.go:374-433 | status first while the operation is Pending, frozen afterwards; the handler only, and always, behind a complete status pass; a status pass that failed makes the node not ready |
| NodePhases.HandlerProgress | internal/controller/node_controller.go:406-433 | with everything granted, a pass of any handler that gets its writes through does not fail and brings its operation strictly closer to Done |
| NodePhases.ProvisionProgress | internal/controller/node_controller_provision.go:67-410 | the same for a Provision |
| NodeController.NodeObject.Finish | internal/controller/node_controller.go:406-433 | no phase of any machine, Provision included, is a dead end: granted everything, and rebooted whenever that is waited for, the operation reaches Done within a bounded number of passes |
| NodeController.NodeObject.DefaultVersions | internal/controller/node_controller.go:126-185 | missing versions become the target and workers keep only a kubelet, or nothing changes because no write is left |
| NodeController.DefaultedFieldwise | internal/controller/node_controller.go:126-185 | version by version: the target if there was none, as it was otherwise, none but the kubelet on workers |
| NodeController.NodeObject.Reconcile | internal/controller/node_controller.go:110-451 | a whole reconcile is a chain of such moves, however early it ends, and with all writes through it takes an active operation to the phase its handler calls for |
| Chains.ChainIsRun | internal/controller/node_controller.go:110-451 | every such chain is a run of the protocol in which only this node's controller acts |
| NodeController.OtherOperationsInProgress | internal/controller/helpers_node_controller.go:101-135 | true exactly if another node is in an active phase |
| ObjectStore.FoldSplits | internal/controller/helpers_node_controller.go:45-83 | changes committed in two batches act as the one sequence of them |
| ObjectStore.Store.CurrentIsFold | internal/controller/helpers_node_controller.go:45-83 | the stored object is the first one with all committed changes applied in commit order, whoever made them |
| ObjectStore.Store.CurrentSince | internal/controller/helpers_node_controller.go:45-83 | seen from any version, the stored object is that one with all changes committed since, in commit order |
| ObjectStore.Store.Put | internal/controller/helpers_node_controller.go:36-36 | a write succeeds exactly under the current version |
| ObjectStore.Store.Try | internal/controller/helpers_node_controller.go:66-83 | one attempt commits on the current object or not at all, even if its read was stale |
| ObjectStore.Store.Update | internal/controller/helpers_cluster_controller.go:18-83 | success commits exactly once, last, on the object stored right before; failure at most once, and never unless a reply got lost; one undisturbed attempt is enough |
| MaintenanceWindow.NextFrom | internal/controller/cluster_controller_status.go:97-99 | the first fire time strictly after an instant |
| MaintenanceWindow.Status.Update | internal/controller/cluster_controller_status.go:20-107 | the stored start is the next fire time after now minus the duration, none with unusable options; the answer is whether it changed |
| MaintenanceWindow.StartIsLeast | internal/controller/cluster_controller_status.go:97-104 | the stored start is the least fire time after now minus the duration |
| MaintenanceWindow.StartIsMonotone | internal/controller/cluster_controller_status.go:97-104 | it never moves back as time goes on |
| MaintenanceWindow.InsideIff | internal/controller/cluster_controller.go:281-289 | inside a window exactly when a fire time lies in the past, less than the duration back |
| MaintenanceWindow.AlwaysInsideIff | docs/mdbook/src/4.5-automated_upgrades.md:30-34 | every instant after the first fire time, fire times aside, is inside exactly when no gap exceeds the duration |
| MaintenanceWindow.FireTimeInsideIff | docs/mdbook/src/4.5-automated_upgrades.md:30-34 | a fire time itself is inside exactly when the previous one is less than the duration back |
| MachineConfig.FoldJoins | internal/controller/helpers_talos_config.go:159-173 | applying patches list by list is applying them all in sequence |
| MachineConfig.LastPatchWins | docs/mdbook/src/4-cluster_resource.md:40-40 | the last patch that touches a path decides its value, so inline patches take priority over references and nodes over clusters |
| MachineConfig.FetchRefs | internal/controller/helpers_talos_config.go:80-129 | all referenced patches in order, each from its own or the default namespace and key, or none if one crosses namespaces unasked, is missing or lacks its key |
| MachineConfig.AddPatches | internal/controller/helpers_talos_config.go:159-173 | the left fold, or nothing if a patch does not load |
| MachineConfig.AddUserPatches | internal/controller/helpers_talos_config.go:295-459 | cluster, role and node patches folded in stage order, and their sources listed |
| MachineConfig.Generate | internal/controller/helpers_talos_config.go:201-707 | succeeds exactly if all references resolve and all patches load; the result is the left fold of all patches in stage order (`LaterStageWins` says which patch decides), the hierarchy the base and the sources of exactly those |
| MachineConfig.HierarchyExplains | internal/controller/helpers_talos_config.go:284-477 | entry by entry the hierarchy names the patch that was applied at that place |
| MachineConfig.SourcesInOrder | internal/controller/helpers_talos_config.go:284-459 | the sources come in the order cluster, role, node, references before inline patches, each list in its own order |
| MachineConfig.EverySource | internal/controller/helpers_talos_config.go:284-459 | every patch of every list for the node's role is among them |
| MachineConfig.LaterStageWins | docs/mdbook/src/4-cluster_resource.md:40-40 | in the generated configuration a patch decides a path if no later patch for this node touches it, later being node over role over cluster and inline over reference; the operator overrides that on listed paths only |
| MachineConfig.TypeIsTheRole | internal/controller/helpers_talos_config.go:461-477 | whatever users patch, machine.type is "controlplane" or "worker" after the node's role |
| MachineConfig.HostnameIsTheNodes | internal/controller/helpers_talos_config.go:675-704 | the place the operator picks carries the node's name, beside auto: off in the document; it is the only hostname exactly when users did not fill in both places |
| MachineConfig.LabelIsTheCluster | internal/controller/helpers_talos_config.go:624-673 | with the label wanted its place carries the name of the cluster, otherwise both places stay as they were |
| MachineConfig.ImagesAsRecorded | internal/controller/helpers_talos_config.go:479-622 | the place the operator picks for a component carries the image on record; it is the only image of it left exactly when users did not fill in both places, the document with one of their own |
| MachineConfig.ImagesAreTheVersions | internal/controller/helpers_talos_config.go:487-610 | spelled out: kubelet, API server, controller manager and scheduler run in the version on record for each, the proxy in that of the kubelet, at the place picked for each |
| MachineConfig.VersionsAreSeparate | internal/controller/helpers_talos_config.go:479-622 | recording other versions changes no path of the generated configuration but the images of just those components, for the kubelet also that of the proxy |
| MachineConfig.PlaceWritten | internal/controller/helpers_talos_config.go:487-610 | of the two places of each image the operator writes one, the old one exactly if there is an old section |
| MachineConfig.SameBranches | internal/controller/helpers_talos_config.go:485-695 | whatever is taken for a secret, bases that agree elsewhere lead to the same operator patches if the operator looks at no secret |
| MachineConfig.ShownConfigAgrees | internal/controller/helpers_talos_config.go:243-253 | for every notion of a secret that the operator does not look at: configurations generated over bases that agree off the secrets go through the same patches and agree off the secrets, for all user patches |
| MachineConfig.BundleIsUnread | docs/mdbook/src/z-node.yaml:60-221 | the operator looks at nothing that comes from the secrets bundle, in old sections and in documents |
| MachineConfig.ShownConfigHidesBundle | internal/controller/helpers_talos_config.go:243-253 | so the configuration shown to users differs from the one applied only in what comes from the secrets bundle |
| MachineConfig.ReadSecretInterferes | internal/controller/helpers_talos_config.go:496-695 | with a secret at any path the operator looks at there are bases that differ in that secret only and lead to different patches |

## Left out

- Talos and Kubernetes clients, registry look-ups, certificates, client caches: their answers are choices of the environment.
- Manifest apply after a Kubernetes upgrade, and the secrets the operator writes: input and output without a law of their own; whether the manifests went through is an input of `Postflights`.
- YAML, strategic merging of lists, cron and version parsing, hashing, redaction: library behaviour; a patch sets and deletes paths, a schedule is its fire times.
- The mutex per cluster: with serial node reconciles it is always free, so it would only repeat the check for other operations.
- Several node workers at once: the check for other operations is made before the mutex is taken, so mutual exclusion is not claimed for them.
- Clocks: each timeout is a choice, so nothing is said about which of the cluster's and the node's timeouts comes first.
- NodeController.NodeObject.Resets: whether the node is taken as wiped is part of the request; how that follows from the arguments, and whether the call is graceful, is in `ResetRequest`.
- Termination of an unsafe Apply: it does not hold; see `ApplyCyclesIffUnsafe`.
- Intake of a node operation: copying the request and clearing it are one step; a stop in between is a second request.
- Detection of etcd data for the Bootstrapped condition: an input of `Reconcile`.
- NodeController.NodeObject.Reconcile: does not include request intake and the start of a clean-up after deletion, which are protocol steps of their own.
- ObjectStore.Store.Update: the number of attempts is a parameter, since the client library sets it.
- Command line tools, Helm chart, generated code, logging, events: no protocol.
