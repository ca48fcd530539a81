# Cluster API provider for IBM Cloud: PowerVS control logic

A Dafny model of the PowerVS part of the Cluster API provider for IBM Cloud, with proofs about whole
runs of its controllers and about its API conversions. Check it with `dafny verify dfyconfig.toml`.

## What is modelled

* **Cluster reconciler.** `ClusterModel` holds the object, the resources in the cloud and the contracts
  of the scope methods. `ClusterChains` has the two goroutines, their scheduler and the drained channel;
  `ClusterPass` has one pass, as functions on the world and as the methods of a class `Cluster` proved
  against them. `ProvisioningLaws`, `DeletionLaws` and `ClusterRuns` hold the laws, the last over runs in
  which passes interleave with deletion requests and spec edits. `HostLookup` adds the search for the
  control plane host, `CreateResults` and `DeletionOrder` state what each pass answers, writes and
  calls with every component named.
* **Conversion between v1beta2 and v1beta3.** `ApiShared`, `ApiV1beta2` and `ApiV1beta3` are the data;
  `ConversionSpec` states each converter declaratively, `ConvertUp` and `ConvertDown` write it as the
  source does, field by field with loops, and are proved equal to it. `SpokeLaws` are the laws seen from
  v1beta2, `HubLaws` those seen from the hub, and `FieldLaws` says where every field lands on every input.
  `MachineImage`, `StatusLists` and `ClusterObject` cover machine and image specs, the map and list statuses,
  and annotations on objects that share a map.
* **Image reconciler.** `ImageModel` (one pass), `ImageReconciler` (the class), `ImageLaws` and `ImageConditions`.
* **Cluster webhook.** `LbNames`, `WebhookNames`, `WebhookUpdates` and `WebhookAcceptance`.

## Assumptions

* A scope call answers Done, Pending or Failed. A reconcile call may create resources of its own component that
  the spec asks for, whatever it answers, and nothing else; it records resources in the status. A delete call that
  answers Done has removed what its method acts on: resources the spec asks for at that time and the status holds
  (load balancers by name; all recorded subnets when the list is empty; the gateway unless it is a reference; the
  DHCP server of a provisioned workspace with the workspace). Nothing else creates or removes what the controller
  made.
* Every pass's status is persisted and read by the next one.
* The topology does not change. The types of the workspace, network, VPC and COS sections are immutable while the
  section is present, but each section may be removed and added. In LoadBalancer topology a list of load balancers
  keeps a public entry, and ignition needs a COS section. Everything else in the spec, the control plane endpoint
  included, may change freely.
* For the import laws: the cloud reports the recorded job's state as it is, an ended job stays ended, every
  new job has a new non-empty identifier, and a failed request to create a job creates none.
* Converters write into a zero-valued destination. Enumerations have their constants, the empty string and
  any other string. A character of a derived name stands for a byte.

## What the proofs found

* A cluster with load balancers is never provisioned when its first entry is public and nameless and nothing else
  can be found in its place (no reference, no other entry that is not private, no status entry, current or left from
  an earlier list, that bears the name looked for): the first entry is provisioned without a number and looked up with `-0`
  (`pkg/cloud/scope/powervs/powervs_cluster.go:492` against `:1850-1854`). The webhook accepts such lists.
* Deletion goes by the spec of the moment: a resource whose section or list entry was taken out of the spec before
  the cluster is deleted is left behind, except a DHCP server that goes with its workspace and a connection that goes
  with its gateway. A resource that was created but not recorded in the status is left behind too; a security group
  call that fails half-way produces one.
* The control plane endpoint is an ordinary spec field: an edit may empty it on a provisioned cluster, and it stays
  empty until a pass provisions again.
* During deletion only the modern conditions are set to false; the legacy ones keep their last value.
* In a delete pass a pending component hides the failures collected before it.
* An explicitly named load balancer may bear the derived name of a nameless one and still be accepted.
* A failed import job is never retried. An image state left active lets a pass that submits a new import end
  without requeue, and a job submitted after an image ID was recorded survives the deletion of the object.
* The plain hub round trip loses references by name alone (VPC, subnet, security group, load balancer),
  gateway connections, provisioned gateways without routing, named workspaces, resource groups of undeclared
  type, COS references, VirtualIP topology and empty non-nil lists. `ConvertFrom` writes the create-infra
  annotation into the hub object's own map.
* Deletion waits for every image that carries the cluster's label, although it deletes only those the cluster
  owns.

## Model

| member | source | states |
|---|---|---|
| `ClusterRuns.NoLeak` | internal/controllers/powervs/ibmpowervscluster_controller.go:106-160 | over every run of passes, deletion requests and admitted spec edits in which no edit stops asking for a resource that exists and every create pass records what it creates: once the finalizer is gone, nothing the controller created is left |
| `ClusterRuns.EveryRunIsSafe` | internal/controllers/powervs/ibmpowervscluster_controller.go:106-160 | over every run, whatever is edited and however the goroutines interleave: nothing is created outside LoadBalancer topology, no scope call is made before the finalizer is there, every reconcile call comes after the calls it depends on succeeded |
| `ClusterRuns.ReleaseLeaksExactly` | internal/controllers/powervs/ibmpowervscluster_controller.go:390-515 | in any run, a pass that removes the finalizer leaves exactly the resources that the current spec does not cover or the status does not hold; nothing exactly when there is none |
| `ClusterRuns.EditThenDelete` | internal/controllers/powervs/ibmpowervscluster_controller.go:390-515 | an admitted edit, the request to delete and a pass in which every call succeeds: the finalizer is gone and exactly what the edited spec does not cover is left |
| `ClusterRuns.TakingAwayLeaks` | pkg/cloud/scope/powervs/powervs_cluster.go:2786-3325 | taking any one resource out of an acceptable spec (a section, a list entry, the gateway turned into a reference, a load balancer entry replaced by another public one) is admitted and leaves that resource behind exactly when it does not go with its workspace or gateway |
| `ClusterRuns.WithoutIsAdmitted` | internal/webhooks/powervs/ibmpowervscluster.go:104-119 | each of these edits keeps a public load balancer and drops ignition together with COS, so it is admitted |
| `ClusterRuns.ResourceIsCreated` | internal/controllers/powervs/ibmpowervscluster_controller.go:162-256 | every resource the spec asks for can exist, after two passes that reach its component, whatever that call answers |
| `ClusterRuns.UnrecordedLeaks` | pkg/cloud/scope/powervs/powervs_cluster.go:2075-2107 | without any edit, a VPC, subnet, security group or COS instance that was created but not recorded is left behind although every delete call succeeds |
| `ClusterRuns.HalfDoneGroupsLeak` | pkg/cloud/scope/powervs/powervs_cluster.go:2075-2107 | in particular a security group created by a call that fails on a later group, because the list is written only at the end |
| `ClusterRuns.RunHistory` | internal/controllers/powervs/ibmpowervscluster_controller.go:206-260 | over every run without deletion, the modern and the legacy condition of each component both have the status of its last decisive outcome |
| `ClusterRuns.ConditionsNeverOverstate` | internal/controllers/powervs/ibmpowervscluster_controller.go:206-260 | over every run, deletions included, the legacy status is the last decisive outcome and a true modern condition means that outcome was a success |
| `ClusterRuns.DeletionSplitsConditions` | internal/controllers/powervs/ibmpowervscluster_controller.go:410-502 | for every component: if a delete pass reaches it, modern and legacy condition agree afterwards exactly when its last decisive outcome was a failure; otherwise exactly when they agreed before |
| `ClusterRuns.DeletionEndsInRuns` | internal/controllers/powervs/ibmpowervscluster_controller.go:106-160 | over every run after the request to delete, with edits and held-up passes in between: as long as the finalizer is there every pass that worked on the deletion met an obstacle, and there is at most one such pass more than obstacles |
| `ClusterRuns.ProvisionedOnEvidence` | internal/controllers/powervs/ibmpowervscluster_controller.go:162-277 | a pass that provisions a reachable cluster does so with a success as last decisive outcome of every component, COS too where configured |
| `ClusterRuns.ProvisionedHasEndpoint` | internal/controllers/powervs/ibmpowervscluster_controller.go:262-276 | in every reachable state, edits of the endpoint included, a provisioned LoadBalancer cluster has a non-empty endpoint host exactly unless an admitted edit has emptied it and no pass has provisioned since |
| `ClusterRuns.KeptHostStays` | internal/controllers/powervs/ibmpowervscluster_controller.go:262-276 | in runs whose edits never empty a host that is set, a provisioned LoadBalancer cluster always has one |
| `ClusterRuns.EndpointAfterPass` | internal/controllers/powervs/ibmpowervscluster_controller.go:262-276 | a pass restores the host exactly when it provisions; any other pass leaves endpoint and mark alone |
| `ClusterRuns.RunKeepsInv` | internal/controllers/powervs/ibmpowervscluster_controller.go:90-160 | every event, edits of any section included, keeps the run invariant (finalizer, cloud, topology, call order, condition history) |
| `DeletionOrder.BlockedIsUntouched` | internal/controllers/powervs/ibmpowervscluster_controller.go:408-502 | while anything that goes before a component is pending (transit gateway, load balancers, security groups, subnets, VPC, DHCP server, workspace, COS, in that order), a delete pass leaves its resources, its condition and its record alone |
| `DeletionOrder.UnblockedIsMarked` | internal/controllers/powervs/ibmpowervscluster_controller.go:408-502 | a component that nothing before it holds up is marked as being deleted |
| `DeletionOrder.SkippedIsUntouched` | internal/controllers/powervs/ibmpowervscluster_controller.go:397-406 | COS is left alone without a COS section, and everything while images are left or outside LoadBalancer topology |
| `DeletionOrder.DeleteAnswerExactly` | internal/controllers/powervs/ibmpowervscluster_controller.go:408-514 | the first pending component, by name, decides how long the pass waits; otherwise it reports every failure in deletion order |
| `DeletionOrder.ImageAnswerExactly` | internal/controllers/powervs/ibmpowervscluster_controller.go:517-571 | the answer of the image stage: failed listing, exactly the failed deletions, or a wait of five seconds, with nothing changed |
| `DeletionOrder.DeleteTakesDownInOrder` | internal/controllers/powervs/ibmpowervscluster_controller.go:408-502 | each delete pass makes its calls in deletion order |
| `DeletionOrder.RunsTakeDownInOrder` | internal/controllers/powervs/ibmpowervscluster_controller.go:408-502 | over every run, each delete call ever made comes after calls for all that goes before it, the last of which were not pending |
| `ProvisioningLaws.ProvisionsExactly` | internal/controllers/powervs/ibmpowervscluster_controller.go:162-277 | in LoadBalancer topology a pass ends with no error and no requeue exactly when every needed answer is there, and exactly then it marks the cluster provisioned; all seven conditions (COS too if configured) are then true and the host is non-empty, otherwise endpoint and mark are unchanged |
| `CreateResults.CreateAnswerExactly` | internal/controllers/powervs/ibmpowervscluster_controller.go:162-277 | the result of a create pass over a LoadBalancer cluster for all answers: which errors in which order, which wait, or success |
| `CreateResults.ConditionsExactly` | internal/controllers/powervs/ibmpowervscluster_controller.go:206-256 | for every component: if the pass calls it and it is not pending, both conditions get the status, reason and message of its answer; otherwise they stay |
| `CreateResults.CallsExactly` | internal/controllers/powervs/ibmpowervscluster_controller.go:189-256 | which components a pass calls, whatever the interleaving |
| `CreateResults.OutcomesExactly` | internal/controllers/powervs/ibmpowervscluster_controller.go:283-360 | an error comes before the requeue flag; security groups, COS and the deletion of the DHCP server are never pending |
| `CreateResults.StopsAt` | internal/controllers/powervs/ibmpowervscluster_controller.go:279-388 | where a goroutine stops and with which error or flag, for any chain and any first link that is not done |
| `CreateResults.OtherTopologies` | internal/controllers/powervs/ibmpowervscluster_controller.go:165-175 | in VirtualIP topology a create pass ends clean, sets the mark and changes nothing else; in an unknown topology it fails and changes nothing |
| `CreateResults.VirtualIPIsProvisioned` | internal/controllers/powervs/ibmpowervscluster_controller.go:165-170 | over runs, the first pass that proceeds after the finalizer is set provisions a VirtualIP cluster, without a call, for good |
| `CreateResults.PassGates` | internal/controllers/powervs/ibmpowervscluster_controller.go:96-114 | a pass over a missing object, a failed fetch, an object without finalizer or a closed gate |
| `ProvisioningLaws.CreateKeepsHistory` | internal/controllers/powervs/ibmpowervscluster_controller.go:189-260 | one create pass keeps the condition history invariant even when a chain or a later stage failed |
| `ProvisioningLaws.CreateKeepsOrder` | internal/controllers/powervs/ibmpowervscluster_controller.go:189-256 | no create pass, however its goroutines interleave, reconciles a component before everything it depends on was last found done |
| `ProvisioningLaws.ChainsInOrder` | internal/controllers/powervs/ibmpowervscluster_controller.go:189-201 | for every schedule, the common log of both goroutines after any earlier calls is in dependency order |
| `ProvisioningLaws.LogOfBoth` | internal/controllers/powervs/ibmpowervscluster_controller.go:189-201 | for every schedule, the common log tells of each component what the sequential runs of the goroutines tell |
| `ProvisioningLaws.CreateOrderIrrelevant` | internal/controllers/powervs/ibmpowervscluster_controller.go:189-226 | for a whole pass: how the goroutines interleave and in which order their results arrive changes nothing but the order of calls and of errors, and no component's last decisive outcome |
| `ProvisioningLaws.RunOutcome` | internal/controllers/powervs/ibmpowervscluster_controller.go:279-388 | a goroutine ends without error and requeue exactly when no answer stops its chain; then every component that answered Done is recorded as done |
| `ProvisioningLaws.GatewayReached` | internal/controllers/powervs/ibmpowervscluster_controller.go:220-229 | the pass reaches the transit gateway exactly when no answer stopped either chain |
| `ProvisioningLaws.GatewayOutcome` | internal/controllers/powervs/ibmpowervscluster_controller.go:228-276 | the stages from the transit gateway on succeed exactly on their final answers and change endpoint and mark only then |
| `ProvisioningLaws.ChainsKeepHistory` | internal/controllers/powervs/ibmpowervscluster_controller.go:206-218 | draining both results keeps conditions and call history in step, in either order |
| `ClusterChains.InterleavingIndependence` | internal/controllers/powervs/ibmpowervscluster_controller.go:189-226 | for every schedule of the two goroutines and either channel order: same conditions, same multiset of errors, same requeue flag, same cloud, same status, same multiset of calls |
| `ClusterChains.ScheduleOnTrack` | internal/controllers/powervs/ibmpowervscluster_controller.go:189-201 | after any prefix of any schedule each goroutine is on its own sequential run, and cloud and status depend only on which calls were made |
| `ClusterChains.EnoughTurnsFinish` | internal/controllers/powervs/ibmpowervscluster_controller.go:192-201 | any schedule with enough turns of each goroutine lets both finish |
| `ClusterChains.BothFinish` | internal/controllers/powervs/ibmpowervscluster_controller.go:189-201 | whatever turns the scheduler starts with, both goroutines end as if each had run alone |
| `ClusterChains.RunPaired` | internal/controllers/powervs/ibmpowervscluster_controller.go:279-388 | the parallel condition arrays have equal length and agree in component and status position by position, so the indexed access is in range |
| `ClusterChains.ChainsDisjoint` | internal/controllers/powervs/ibmpowervscluster_controller.go:279-388 | the two chains call disjoint sets of components |
| `ClusterChains.DrainOrderIrrelevant` | internal/controllers/powervs/ibmpowervscluster_controller.go:206-218 | draining the two results in either order yields the same object |
| `ClusterChains.ApplyCommutes` | internal/controllers/powervs/ibmpowervscluster_controller.go:214-217 | condition updates of disjoint component sets commute |
| `ClusterChains.ReconcilePowerVSResources` | internal/controllers/powervs/ibmpowervscluster_controller.go:279-318 | the goroutine computes the sequential run of the chain Workspace, Network |
| `ClusterChains.ReconcileVPCResources` | internal/controllers/powervs/ibmpowervscluster_controller.go:320-388 | the goroutine computes the sequential run of the chain VPC, Subnets, SecurityGroups, LoadBalancers |
| `ClusterChains.DrainLoop` | internal/controllers/powervs/ibmpowervscluster_controller.go:214-217 | the indexed loop over both arrays applies every update in order; it needs equal lengths |
| `ClusterChains.BuildConditions` | internal/controllers/powervs/ibmpowervscluster_controller.go:644-661 | both conditions carry the same status and message; severity Error exactly when the status is false |
| `ClusterPass.Cluster.Reconcile` | internal/controllers/powervs/ibmpowervscluster_controller.go:90-160 | the new state and the result of a whole pass: fetch, finalizer in a pass of its own, gate, then delete or create |
| `ClusterPass.Cluster.ReconcileNormal` | internal/controllers/powervs/ibmpowervscluster_controller.go:162-277 | the new state and result of a create pass |
| `ClusterPass.Cluster.ReconcileComponents` | internal/controllers/powervs/ibmpowervscluster_controller.go:189-218 | state, errors and requeue flag after both goroutines and the drain loop |
| `ClusterPass.Cluster.RunGoroutines` | internal/controllers/powervs/ibmpowervscluster_controller.go:189-201 | both results in the order of arrival, with parallel arrays of equal length, and the shared effects of an arbitrary interleaving |
| `ClusterPass.Cluster.DrainChannel` | internal/controllers/powervs/ibmpowervscluster_controller.go:203-218 | the loop over the channel collects conditions, errors and the requeue flag |
| `ClusterPass.Cluster.FinishReconcile` | internal/controllers/powervs/ibmpowervscluster_controller.go:228-276 | state and result of transit gateway, COS and endpoint |
| `ClusterPass.Cluster.SetEndpoint` | internal/controllers/powervs/ibmpowervscluster_controller.go:258-276 | state and result of the readiness gate, host lookup and endpoint |
| `ClusterPass.Cluster.ReconcileDelete` | internal/controllers/powervs/ibmpowervscluster_controller.go:390-515 | the new state and result of a delete pass |
| `ClusterPass.Cluster.DeleteComponent` | internal/controllers/powervs/ibmpowervscluster_controller.go:410-421 | one link of the delete chain: mark, call, collect a failure or stop on pending |
| `ClusterPass.Cluster.DeleteVPCSide` | internal/controllers/powervs/ibmpowervscluster_controller.go:408-470 | the delete chain from the transit gateway to the VPC |
| `ClusterPass.Cluster.DeletePowerVSSide` | internal/controllers/powervs/ibmpowervscluster_controller.go:472-514 | the delete chain from the DHCP server to COS and the finalizer |
| `ClusterPass.DeleteImages` | internal/controllers/powervs/ibmpowervscluster_controller.go:517-571 | the image stage: list failure, collected delete failures, wait, or go on |
| `ClusterPass.DeleteChildren` | internal/controllers/powervs/ibmpowervscluster_controller.go:537-554 | the loop over owned images collects the failures of those not yet being deleted |
| `ClusterPass.FilterOwnedDescendants` | internal/controllers/powervs/ibmpowervscluster_controller.go:613-641 | the owned images, in order |
| `DeletionLaws.ReleasesExactly` | internal/controllers/powervs/ibmpowervscluster_controller.go:390-515 | a delete pass ends with no error and no requeue exactly when it removed the finalizer, and that is exactly when no image is left and every delete call answers Done |
| `DeletionLaws.ReleaseLeaves` | internal/controllers/powervs/ibmpowervscluster_controller.go:390-515 | a pass that removed the finalizer leaves exactly the resources that the spec does not ask for at that time or the status does not hold, up to what goes with its workspace or gateway |
| `DeletionLaws.DeletionLeaves` | internal/controllers/powervs/ibmpowervscluster_controller.go:390-515 | however many passes it took, the end of a deletion leaves exactly what was fixed at its beginning |
| `DeletionLaws.DeleteKeepsLeftovers` | internal/controllers/powervs/ibmpowervscluster_controller.go:390-515 | no delete pass creates anything or changes what the deletion will leave behind |
| `DeletionLaws.DeletionEnds` | internal/controllers/powervs/ibmpowervscluster_controller.go:390-571 | deletion takes at most one pass more than it met obstacles (pending or failed calls, image waits and failures); while it has not ended, every pass met one |
| `DeletionLaws.StuckMeansObstacle` | internal/controllers/powervs/ibmpowervscluster_controller.go:390-571 | a delete pass keeps the finalizer exactly when it met at least one obstacle |
| `DeletionLaws.ChainResult` | internal/controllers/powervs/ibmpowervscluster_controller.go:408-514 | a pending deletion hides every failure collected before it; without one the pass tries every component and reports exactly the failures, in order |
| `DeletionLaws.ChainSweeps` | internal/controllers/powervs/ibmpowervscluster_controller.go:408-514 | a chain of delete calls that all answer Done removes whatever any of them removes, although each may drop entries from the status |
| `DeletionLaws.DisposedExactly` | pkg/cloud/scope/powervs/powervs_cluster.go:2786-3325 | a resource is removed by the deletion exactly when one of the delete calls in the chain removes it |
| `DeletionLaws.ImagesGone` | internal/controllers/powervs/ibmpowervscluster_controller.go:517-571 | the pass goes on to the cloud exactly when the image list is empty, owned or not |
| `DeletionLaws.ChildErrorsExactly` | internal/controllers/powervs/ibmpowervscluster_controller.go:534-558 | one error for exactly every owned image that is not yet being deleted and cannot be deleted |
| `SpokeLaws.DownUpIdempotent` | api/powervs/v1beta2/conversion.go:726-963 | for every v1beta2 spec a second trip through the hub changes nothing the first did not |
| `FieldLaws.WorkspaceFields` | api/powervs/v1beta2/conversion.go:766-784 | on every v1beta2 spec: a reference exactly when a service instance or its ID is set; the ID field wins over that of the reference |
| `FieldLaws.NetworkFields` | api/powervs/v1beta2/conversion.go:800-818 | on every v1beta2 spec: identifier or name make a reference, else a DHCP server makes a provision; where each field lands |
| `FieldLaws.GatewayFields` | api/powervs/v1beta2/conversion.go:1208-1251 | on every v1beta2 spec: identifier, then routing, then name decide the type; where each field lands |
| `FieldLaws.VPCFields` | api/powervs/v1beta2/conversion.go:1345-1367 | on every v1beta2 spec: an identifier makes a reference, anything else a provision; where each field lands |
| `FieldLaws.ScalarFields` | api/powervs/v1beta2/conversion.go:726-764 | endpoint, zone, ignition, resource group and COS section of every v1beta2 spec |
| `FieldLaws.SubnetFields` | api/powervs/v1beta2/conversion.go:1469-1492 | every subnet of every v1beta2 spec, nil lists kept apart from empty ones |
| `FieldLaws.ListFields` | api/powervs/v1beta2/conversion.go:1535-1772 | every load balancer and security group of every v1beta2 spec with all nested lists: which pointers decide the type, where each field lands, which entries are skipped |
| `FieldLaws.WorkspaceDownFields` | api/powervs/v1beta2/conversion.go:845-878 | workspace and resource group of every hub spec, valid or not |
| `FieldLaws.NetworkDownFields` | api/powervs/v1beta2/conversion.go:880-908 | network and DHCP server of every hub spec |
| `FieldLaws.GatewayDownFields` | api/powervs/v1beta2/conversion.go:1254-1301 | gateway of every hub spec: the tag decides, without one a set reference does |
| `FieldLaws.VPCDownFields` | api/powervs/v1beta2/conversion.go:1370-1400 | VPC of every hub spec, with the name that fills in |
| `FieldLaws.ScalarDownFields` | api/powervs/v1beta2/conversion.go:845-963 | endpoint, zone, ignition and COS section of every hub spec |
| `FieldLaws.SubnetDownFields` | api/powervs/v1beta2/conversion.go:1495-1530 | every subnet of every hub spec |
| `FieldLaws.ListDownFields` | api/powervs/v1beta2/conversion.go:1646-1846 | every load balancer and security group of every hub spec with all nested lists; a rule gives only the side its direction names |
| `SpokeLaws.UpDownUp` | api/powervs/v1beta2/conversion.go:726-963 | for every v1beta2 spec, read and write back leaves the hub spec unchanged exactly when no rule carries data on the side its direction does not use |
| `SpokeLaws.ValidRulesSurvive` | api/powervs/v1beta2/types.go:392-396 | in particular for every spec whose rules satisfy the CEL rules |
| `SpokeLaws.SecurityGroupStable` | api/powervs/v1beta2/conversion.go:1738-1805 | per security group: exact condition for the hub side and idempotence for the v1beta2 side |
| `SpokeLaws.RuleStable` | api/powervs/v1beta2/conversion.go:1809-1846 | per rule: exact condition for the hub side and idempotence for the v1beta2 side |
| `SpokeLaws.EmptyPrototypeIsZero` | api/powervs/v1beta2/conversion.go:1850-1905 | the prototypes whose up-conversion is the zero value, exactly |
| `SpokeLaws.LoadBalancerStable` | api/powervs/v1beta2/conversion.go:1535-1733 | a load balancer's hub form survives the trip down and up, with all four nested lists |
| `SpokeLaws.OtherPartsStable` | api/powervs/v1beta2/conversion.go:726-963 | all parts of a spec other than security groups are stable without condition |
| `SpokeLaws.MisplacedDestinationIsLost` | api/powervs/v1beta2/conversion.go:1809-1846 | an inbound rule with a destination loses it |
| `HubLaws.HubRoundTrip` | api/powervs/v1beta2/conversion.go:726-963 | the exact set of valid hub specs that v1beta2 carries without loss, resource groups of an undeclared type included |
| `HubLaws.TripReachesFixedPoint` | api/powervs/v1beta2/conversion.go:726-963 | for every hub spec, valid or not, what comes back from one trip is a fixed point |
| `HubLaws.GatewayRoundTrip` | api/powervs/v1beta2/conversion.go:1208-1301 | a transit gateway survives exactly when it has no connection settings and, if provisioned, an explicit routing |
| `HubLaws.VPCRoundTrip` | api/powervs/v1beta2/conversion.go:1345-1400 | a VPC survives exactly when it is not referenced by name alone |
| `HubLaws.SubnetRoundTrip` | api/powervs/v1beta2/conversion.go:1469-1530 | a subnet survives exactly when it is not referenced by name alone |
| `HubLaws.SecurityGroupRoundTrip` | api/powervs/v1beta2/conversion.go:1738-1805 | a security group survives exactly when it is not referenced by name alone and, if provisioned, holds no empty non-nil list |
| `HubLaws.LoadBalancerRoundTrip` | api/powervs/v1beta2/conversion.go:1535-1733 | a load balancer survives exactly when it is neither referenced by name alone nor an empty provision, and holds no empty non-nil list |
| `HubLaws.RuleRoundTrip` | api/powervs/v1beta2/conversion.go:1809-1905 | a valid rule survives exactly when its remote lists are not empty and non-nil |
| `HubLaws.WorkspaceRoundTrip` | api/powervs/v1beta2/conversion.go:766-784 | a workspace survives exactly when it is a reference or an unnamed provision |
| `HubLaws.UnionsRoundTrip` | api/powervs/v1beta2/conversion.go:786-798 | a resource group survives exactly when absent or a reference; VPC and gateway sections likewise by their own conditions |
| `HubLaws.NetworkRoundTrip` | api/powervs/v1beta2/conversion.go:800-818 | every valid network survives |
| `HubLaws.CosRoundTrip` | api/powervs/v1beta2/conversion.go:820-843 | a COS section survives exactly when absent, or provisioned with a name or a bucket |
| `ConvertUp.ConvertClusterSpec` | api/powervs/v1beta2/conversion.go:726-764 | the field-by-field up-conversion equals the declarative one |
| `ConvertUp.AutoConvertClusterSpec` | api/powervs/v1beta2/zz_generated.conversion.go:565-617 | the generated part: scalars and the three index-assign loops |
| `ConvertUp.ConvertWorkspace` | api/powervs/v1beta2/conversion.go:766-784 | the workspace branches |
| `ConvertUp.ConvertNetwork` | api/powervs/v1beta2/conversion.go:800-818 | the network branches and DHCP server |
| `ConvertUp.ConvertTransitGateway` | api/powervs/v1beta2/conversion.go:1208-1251 | the transit gateway branches |
| `ConvertUp.ConvertVPC` | api/powervs/v1beta2/conversion.go:1345-1367 | the VPC branches |
| `ConvertUp.ConvertSubnet` | api/powervs/v1beta2/conversion.go:1469-1492 | the subnet branches |
| `ConvertUp.ConvertDHCPServer` | api/powervs/v1beta2/conversion.go:1107-1134 | the DHCP server, identifier dropped |
| `ConvertUp.ConvertSecurityGroup` | api/powervs/v1beta2/conversion.go:1738-1772 | security group with its loops over rules and tags, nil entries skipped |
| `ConvertUp.ConvertRule` | api/powervs/v1beta2/conversion.go:1809-1826 | rule with its two prototypes |
| `ConvertUp.ConvertPrototype` | api/powervs/v1beta2/conversion.go:1850-1877 | prototype with its loop over remotes |
| `ConvertUp.ConvertLoadBalancer` | api/powervs/v1beta2/conversion.go:1535-1643 | load balancer with its four loops |
| `ConvertUp.ConvertCos` | api/powervs/v1beta2/conversion.go:820-829 | COS instance |
| `ConvertDown.ConvertClusterSpec` | api/powervs/v1beta2/conversion.go:845-963 | the field-by-field down-conversion equals the declarative one |
| `ConvertDown.AutoConvertClusterSpec` | api/powervs/v1beta2/zz_generated.conversion.go:619-670 | the generated part of the down-conversion |
| `ConvertDown.ConvertTransitGateway` | api/powervs/v1beta2/conversion.go:1254-1301 | the transit gateway branches |
| `ConvertDown.ConvertVPC` | api/powervs/v1beta2/conversion.go:1370-1400 | the VPC branches |
| `ConvertDown.ConvertSubnet` | api/powervs/v1beta2/conversion.go:1495-1530 | the subnet branches, with the fallback for a missing type |
| `ConvertDown.ConvertDHCPServer` | api/powervs/v1beta2/conversion.go:1137-1160 | the DHCP server, set fields only |
| `ConvertDown.ConvertSecurityGroup` | api/powervs/v1beta2/conversion.go:1775-1805 | security group with its loops |
| `ConvertDown.ConvertRule` | api/powervs/v1beta2/conversion.go:1828-1846 | only the side that the direction names is kept |
| `ConvertDown.ConvertPrototype` | api/powervs/v1beta2/conversion.go:1879-1905 | prototype with its loop over remotes |
| `ConvertDown.ConvertLoadBalancer` | api/powervs/v1beta2/conversion.go:1646-1733 | load balancer with its four loops |
| `ConvertDown.ConvertNetwork` | api/powervs/v1beta2/conversion.go:880-908 | reference or DHCP server of a network |
| `ConvertDown.ConvertCos` | api/powervs/v1beta2/conversion.go:831-843 | COS instance |
| `ClusterObject.ConvertTo` | api/powervs/v1beta2/conversion.go:466-481 | spec, topology from the create-infra annotation, and the effect on the annotation map shared by source and destination |
| `ClusterObject.ConvertFrom` | api/powervs/v1beta2/conversion.go:486-504 | spec and annotation map; a hub that has a map gets the annotation written into its own map |
| `ClusterObject.TopologySafety` | api/powervs/v1beta2/conversion.go:466-504 | a hub object made by ConvertTo never keeps the annotation, and comes back in LoadBalancer topology exactly when it was |
| `ClusterObject.TopologyExactly` | api/powervs/v1beta2/conversion.go:466-481 | the topology is LoadBalancer exactly when the annotation is true, VirtualIP exactly when it is present with another value |
| `ClusterObject.AnnotationsExactly` | api/powervs/v1beta2/conversion.go:466-504 | both conversions touch only the create-infra annotation, and make an empty map nil |
| `ClusterObject.AnnotationTrip` | api/powervs/v1beta2/conversion.go:466-504 | the exact pairs of topology and annotations that survive |
| `ClusterObject.HubObjectRoundTrip` | api/powervs/v1beta2/conversion.go:466-504 | the exact set of hub objects a v1beta2 client can read and write back unchanged |
| `MachineImage.MachineRoundTrip` | api/powervs/v1beta2/conversion.go:965-1050 | a hub machine survives exactly when its image union is valid, with no annotation |
| `MachineImage.MachineStable` | api/powervs/v1beta2/conversion.go:965-1050 | the hub form of every v1beta2 machine survives |
| `MachineImage.ImageRoundTrip` | api/powervs/v1beta2/conversion.go:1052-1104 | every hub image spec survives |
| `MachineImage.MachineUpFields` | api/powervs/v1beta2/conversion.go:965-998 | on every v1beta2 machine: an import name wins over an image reference, the workspace reference over the bare ID |
| `MachineImage.MachineDownFields` | api/powervs/v1beta2/conversion.go:1001-1050 | on every hub machine: the workspace ID is stored twice, the tag decides the image field |
| `MachineImage.ImageUpFields` | api/powervs/v1beta2/conversion.go:1052-1070 | on every v1beta2 image: where each field lands |
| `MachineImage.ImageDownFields` | api/powervs/v1beta2/conversion.go:1072-1104 | on every hub image: where each field lands |
| `MachineImage.ConvertMachineUp` | api/powervs/v1beta2/conversion.go:965-998 | the machine up-conversion, import before reference, workspace from either place |
| `MachineImage.ConvertMachineDown` | api/powervs/v1beta2/conversion.go:1001-1050 | the machine down-conversion, workspace stored twice |
| `MachineImage.ConvertImageUp` | api/powervs/v1beta2/conversion.go:1052-1070 | the image up-conversion, workspace from either place |
| `MachineImage.ConvertImageDown` | api/powervs/v1beta2/conversion.go:1072-1104 | the image down-conversion |
| `StatusLists.SubnetStatusRoundTrip` | api/powervs/v1beta2/conversion.go:81-96 | for every iteration order the map comes back with exactly the entries that have key and ID, up to the dropped creation mark, and as nil when there is none |
| `StatusLists.BalancerStatusRoundTrip` | api/powervs/v1beta2/conversion.go:1440-1466 | for every iteration order exactly the keyed entries come back, empty pointers normalised, nil when there is none |
| `StatusLists.GroupStatusRoundTrip` | api/powervs/v1beta2/conversion.go:1910-1934 | for every iteration order exactly the keyed entries come back, nil and empty rule IDs dropped, nil when there is none |
| `StatusLists.HubBalancerStatusRoundTrip` | api/powervs/v1beta2/conversion.go:243-262 | a hub list with distinct non-empty names comes back as a permutation of itself |
| `StatusLists.SubnetNamesDistinct` | api/powervs/v1beta2/conversion.go:81-96 | the subnet list has pairwise distinct names |
| `StatusLists.BalancerNamesDistinct` | api/powervs/v1beta2/conversion.go:97-112 | the load balancer list has pairwise distinct names |
| `StatusLists.GroupNamesDistinct` | api/powervs/v1beta2/conversion.go:115-130 | the security group list has pairwise distinct names |
| `StatusLists.FillHoldsLast` | api/powervs/v1beta2/conversion.go:224-286 | the map holds the last entry of every non-empty key, and none under the empty one |
| `StatusLists.KeysExactly` | api/powervs/v1beta2/conversion.go:224-286 | an entry goes under its name, or without one under its ID |
| `StatusLists.UpFields` | api/powervs/v1beta2/conversion.go:81-130 | which entries are kept on the way up, and what they hold |
| `StatusLists.ListFromMap` | api/powervs/v1beta2/conversion.go:81-130 | the loop over a map in an arbitrary order, with its nil handling |
| `StatusLists.MapFromList` | api/powervs/v1beta2/conversion.go:224-286 | the loop over a list that fills a map, with its nil handling |
| `StatusLists.SubnetStatusesThereAndBack` | api/powervs/v1beta2/conversion.go:224-242 | the two loops with their nil handling, run on subnet statuses |
| `StatusLists.BalancerStatusesThereAndBack` | api/powervs/v1beta2/conversion.go:243-262 | the two loops with their nil handling, run on load balancer statuses |
| `StatusLists.GroupStatusesThereAndBack` | api/powervs/v1beta2/conversion.go:263-286 | the two loops with their nil handling, run on security group statuses |
| `ImageLaws.SingleOutstandingImport` | internal/controllers/powervs/ibmpowervsimage_controller.go:139-215 | over every run: at most one import job has not ended, it is the recorded one, and a pass that may import finds every job completed |
| `ImageLaws.CallsExactly` | internal/controllers/powervs/ibmpowervsimage_controller.go:162-207 | the cloud calls of a pass, exactly: the import is reached only when the image is owned and no recorded job is unreadable, stateless, queued, importing or failed |
| `ImageLaws.CleanEndExactly` | internal/controllers/powervs/ibmpowervsimage_controller.go:139-252 | exactly when a pass over an owned image ends with no error and no requeue |
| `ImageLaws.CleanEndMeansActive` | internal/controllers/powervs/ibmpowervsimage_controller.go:139-252 | a clean end means adoption or an active image state |
| `ImageConditions.ReadyExactly` | internal/controllers/powervs/ibmpowervsimage_controller.go:67-300 | in every reachable state the ready condition is true exactly when the last thing a pass learned was a completed job or an active image |
| `ImageConditions.VerdictIsWritten` | internal/controllers/powervs/ibmpowervsimage_controller.go:139-300 | a pass writes the ready condition exactly when it learned something, and writes what it learned |
| `ImageConditions.JobReadings` | internal/controllers/powervs/ibmpowervsimage_controller.go:163-194 | for every reading of a recorded job that is not completed: condition with reason and message, state, and answer; an unreadable or stateless job leaves condition and state alone |
| `ImageConditions.SeenReadings` | internal/controllers/powervs/ibmpowervsimage_controller.go:217-252 | for every reading of the image: condition, state, identifier and answer |
| `ImageConditions.UnseenReadings` | internal/controllers/powervs/ibmpowervsimage_controller.go:196-251 | a pass that looks at no image: condition, state and answer |
| `ImageConditions.LabelsExactly` | internal/controllers/powervs/ibmpowervsimage_controller.go:142-161 | labels, owner and workspace condition after a create pass |
| `ImageConditions.DeleteReadings` | internal/controllers/powervs/ibmpowervsimage_controller.go:254-300 | condition, message and error of a delete pass |
| `ImageConditions.SetupReadings` | internal/controllers/powervs/ibmpowervsimage_controller.go:116-128 | conditions and error of a pass whose scope cannot be created |
| `ImageConditions.ImageGates` | internal/controllers/powervs/ibmpowervsimage_controller.go:72-91 | a pass over a missing object, a failed fetch or an object without finalizer |
| `ImageLaws.ImportAnswerExactly` | pkg/cloud/scope/powervs/powervs_image.go:189-243 | the import step for every listing, last job and answer of the cloud |
| `ImageLaws.ActiveIsReachable` | internal/controllers/powervs/ibmpowervsimage_controller.go:139-252 | three passes over a listed active image form a truthful run and leave it owned, active, with an ID and without a job |
| `ImageLaws.StaleActiveHidesImport` | internal/controllers/powervs/ibmpowervsimage_controller.go:197-251 | from that reachable state, a pass that finds the image gone submits a new job and still ends with no error and no requeue |
| `ImageLaws.FailedJobIsNeverRetried` | internal/controllers/powervs/ibmpowervsimage_controller.go:179-182 | once the recorded job has failed, no run makes another import call or records another job before deletion |
| `ImageLaws.DeleteExactly` | internal/controllers/powervs/ibmpowervsimage_controller.go:254-300 | the finalizer is removed exactly when the delete pass ends without error; what was deleted then |
| `ImageLaws.RetainNeverDeletes` | internal/controllers/powervs/ibmpowervsimage_controller.go:285-297 | while the policy stays retain no run deletes an image |
| `ImageLaws.ReleaseLeavesNoImport` | internal/controllers/powervs/ibmpowervsimage_controller.go:267-300 | exactly when a finished deletion leaves no unfinished import behind |
| `ImageLaws.OrphanedImport` | internal/controllers/powervs/ibmpowervsimage_controller.go:267-300 | from that reachable state, a second import followed by the deletion of the object leaves the unfinished job behind |
| `ImageLaws.RunKeepsOthers` | internal/controllers/powervs/ibmpowervsimage_controller.go:139-215 | every event keeps all jobs but the recorded one completed |
| `ImageReconciler.PowerVSImage.Reconcile` | internal/controllers/powervs/ibmpowervsimage_controller.go:67-137 | the new state and result of a whole image pass |
| `ImageReconciler.PowerVSImage.ReconcileNormal` | internal/controllers/powervs/ibmpowervsimage_controller.go:139-215 | labels, adoption, workspace condition, then polling |
| `ImageReconciler.PowerVSImage.PollJob` | internal/controllers/powervs/ibmpowervsimage_controller.go:163-194 | the polling of the recorded job, all six outcomes |
| `ImageReconciler.PowerVSImage.TriggerImport` | internal/controllers/powervs/ibmpowervsimage_controller.go:196-214 | import or lookup, and the recorded job |
| `ImageReconciler.PowerVSImage.ReconcileImage` | internal/controllers/powervs/ibmpowervsimage_controller.go:217-252 | image ID, state, condition and result from the image itself |
| `ImageReconciler.PowerVSImage.ReconcileDelete` | internal/controllers/powervs/ibmpowervsimage_controller.go:254-300 | the delete pass with its deferred removal of the finalizer |
| `ImageReconciler.PowerVSImage.DeleteResources` | internal/controllers/powervs/ibmpowervsimage_controller.go:267-299 | job or image deletion under the policy, with conditions and errors |
| `ImageReconciler.GetOrImportImage` | pkg/cloud/scope/powervs/powervs_image.go:189-243 | listed image, unfinished last job, or a new job |
| `ImageReconciler.EnsureImageUnique` | pkg/cloud/scope/powervs/powervs_image.go:321-332 | the first listed image with the name, None exactly when there is none |
| `WebhookUpdates.SelectorsNeverChange` | internal/webhooks/powervs/ibmpowervscluster.go:87-102 | over every chain of accepted updates a listener key that is unique in every version keeps the first version's selector |
| `WebhookUpdates.SelectorsKeptExactly` | internal/webhooks/powervs/ibmpowervscluster.go:214-249 | with duplicate keys too, an update is accepted exactly when each old selector equals that of the last new entry with its key, if any |
| `WebhookAcceptance.CreateAcceptedExactly` | internal/webhooks/powervs/ibmpowervscluster.go:87-102 | the acceptance set of a create: outside LoadBalancer topology everything; in it exactly supported zone and region, unique subnet and load balancer names, a public entry unless the list is empty, and no refused routing |
| `WebhookAcceptance.UpdateAcceptedExactly` | internal/webhooks/powervs/ibmpowervscluster.go:87-102 | an update is accepted exactly when moreover it keeps the selectors |
| `WebhookAcceptance.ErrorsExactly` | internal/webhooks/powervs/ibmpowervscluster.go:187-212 | zone, region, public entry and routing errors, each exactly on its own cause |
| `WebhookAcceptance.DuplicatesExactly` | internal/webhooks/powervs/ibmpowervscluster.go:121-166 | an entry is reported exactly when it goes by a name of an earlier entry |
| `WebhookAcceptance.SelectorErrorsExactly` | internal/webhooks/powervs/ibmpowervscluster.go:234-247 | one selector error for exactly every old listener whose key has a last new listener with another selector |
| `WebhookAcceptance.EntriesExactly` | internal/webhooks/powervs/ibmpowervscluster.go:224-245 | the listeners of provisioned entries, each under the name of its load balancer, in the order of the loops, and nothing else |
| `WebhookAcceptance.SingleNamelessIsAccepted` | internal/webhooks/powervs/ibmpowervscluster.go:87-119 | a cluster with a single nameless public load balancer is accepted when nothing else is wrong with it |
| `WebhookUpdates.ValidateSelectors` | internal/webhooks/powervs/ibmpowervscluster.go:214-249 | the nested loops report exactly the changed selectors, in order |
| `WebhookUpdates.CollectListeners` | internal/webhooks/powervs/ibmpowervscluster.go:224-233 | the nested loops build the map of last entries |
| `WebhookUpdates.TableHoldsLast` | internal/webhooks/powervs/ibmpowervscluster.go:224-233 | the map holds the selector of the last entry of every key |
| `WebhookUpdates.Validate` | internal/webhooks/powervs/ibmpowervscluster.go:87-102 | prerequisites always, selectors only on update |
| `WebhookUpdates.ValidatePrereqs` | internal/webhooks/powervs/ibmpowervscluster.go:187-212 | the prerequisite errors in order, none outside LoadBalancer topology |
| `WebhookUpdates.ValidateSubnetNames` | internal/webhooks/powervs/ibmpowervscluster.go:145-166 | subnet names pass exactly when distinct |
| `WebhookNames.ValidateLoadBalancers` | internal/webhooks/powervs/ibmpowervscluster.go:104-119 | passes exactly when names are distinct and the list is empty or holds a provisioned public or untyped entry |
| `WebhookNames.FindRepeats` | internal/webhooks/powervs/ibmpowervscluster.go:121-143 | the loop with its found map reports exactly the repeats |
| `WebhookNames.RepeatsExactly` | internal/webhooks/powervs/ibmpowervscluster.go:121-143 | an index is reported exactly when its non-empty name occurs earlier; no first occurrence is |
| `WebhookNames.RepeatsInOrder` | internal/webhooks/powervs/ibmpowervscluster.go:121-143 | indices are reported once each and in order |
| `WebhookNames.RepeatsCount` | internal/webhooks/powervs/ibmpowervscluster.go:121-143 | as many errors as non-empty names minus distinct ones |
| `WebhookNames.BalancersValidExactly` | internal/webhooks/powervs/ibmpowervscluster.go:104-119 | the acceptance condition on the error function itself |
| `WebhookNames.CollisionsExactly` | internal/webhooks/powervs/ibmpowervscluster.go:271-284 | two accepted provisioned entries share a cloud name exactly when one is nameless and the other bears its derived name |
| `WebhookNames.CollisionIsAccepted` | internal/webhooks/powervs/ibmpowervscluster.go:104-143 | such lists pass validation, for every cluster name |
| `LbNames.DerivedNamesDistinct` | internal/webhooks/powervs/ibmpowervscluster.go:255-284 | nameless entries at different indices never collide, whatever is truncated |
| `LbNames.DerivedNameFits` | internal/webhooks/powervs/ibmpowervscluster.go:255-284 | for every cluster name and every 64-bit index the name exists and has at most 63 characters |
| `LbNames.DerivedNameExactly` | internal/webhooks/powervs/ibmpowervscluster.go:255-284 | the derived name in full: cluster name cut to fit, type, and position except for the first entry |
| `LbNames.LookupNameExactly` | pkg/cloud/scope/powervs/powervs_cluster.go:488-493 | the lookup name in full, always with the position |
| `LbNames.ResourceNameBounded` | pkg/cloud/scope/powervs/resource_name.go:69-86 | construction slices out of range exactly when the suffix exceeds 62 characters; otherwise at most 63 characters that end in the whole suffix |
| `LbNames.PatternExactly` | api/powervs/v1beta3/ibmpowervscluster_types.go:755-760 | a derived name matches the provision-name pattern exactly when the kept part of the cluster name starts with a letter and uses allowed characters |
| `LbNames.GoodClusterNamesMatch` | api/powervs/v1beta3/ibmpowervscluster_types.go:755-760 | cluster names over [-a-z0-9] that start with a letter give matching names |
| `LbNames.TrimHyphens` | internal/webhooks/powervs/ibmpowervscluster.go:262-262 | the longest prefix that does not end in a hyphen |
| `LbNames.LookupFindsExactly` | pkg/cloud/scope/powervs/powervs_cluster.go:488-493 | the host lookup uses the entry's own name exactly when it is named or not the first |
| `HostLookup.GetPublicLoadBalancerHostName` | pkg/cloud/scope/powervs/powervs_cluster.go:457-520 | the nested search loops equal the declarative lookup |
| `HostLookup.HostExactly` | pkg/cloud/scope/powervs/powervs_cluster.go:480-520 | a host found belongs to a status entry that serves an entry of the spec; when none is found, none serves any |
| `HostLookup.FirstEntryDecides` | pkg/cloud/scope/powervs/powervs_cluster.go:480-520 | the first entry that is served or cannot be fetched decides the answer |
| `HostLookup.TargetsExactly` | pkg/cloud/scope/powervs/powervs_cluster.go:480-510 | under which name each kind of entry is looked for |
| `HostLookup.DefaultHostExactly` | pkg/cloud/scope/powervs/powervs_cluster.go:466-477 | with an empty list a host is found exactly when a status entry with a host bears the default public name |
| `HostLookup.HostFoundExactly` | pkg/cloud/scope/powervs/powervs_cluster.go:480-520 | for every list, with the hosts of its entries written and whatever else the statuses hold: a host is found exactly when some entry is a reference, or is not private and is named or not first, or a status entry bears the lookup name of a first entry that is not private |
| `HostLookup.NoHostWithoutFindable` | pkg/cloud/scope/powervs/powervs_cluster.go:480-520 | for every list and every status list, no host is found without such an entry |
| `HostLookup.UnfindableExactly` | pkg/cloud/scope/powervs/powervs_cluster.go:480-520 | the accepted lists without such an entry, exactly: the first entry not private and nameless, no status entry with its lookup name, no reference, all other provisioned entries private |
| `HostLookup.CoveredExactly` | pkg/cloud/scope/powervs/powervs_cluster.go:1920-1938 | when the statuses are those of the list alone, a status entry bears the lookup name of the first entry only if another entry does, and with all hosts exactly then |
| `HostLookup.UnfindableIsNeverProvisioned` | internal/controllers/powervs/ibmpowervscluster_controller.go:262-276 | while a list has no such entry in its statuses, no pass provisions the cluster, whatever the cloud answers |
| `HostLookup.ProvisionedExactly` | internal/controllers/powervs/ibmpowervscluster_controller.go:262-276 | with the hosts of all entries written, a pass that is otherwise ready provisions exactly when some entry can be found |
| `HostLookup.SingleNamelessIsUnfindable` | pkg/cloud/scope/powervs/powervs_cluster.go:488-493 | a single nameless public load balancer is accepted by the webhook and not found in the statuses written for it |

## Left out

* Deletion of subnets and security groups that the controller did not create: the model follows only what it made.
* Scope methods other than the host lookup, `GetOrImportImage` and name construction: contracts only (see Assumptions).
* Annotation-based restore with `MarshalData` and `UnmarshalData`: JSON encoding in a library; all round trips are those of the plain converters.
* Patch and summary logic of both controllers, failed status writes and stale reads.
* Legacy image conditions of the image reconciler, and the timestamps of all conditions.
* Condition converters of Cluster API and the remaining status fields: they are copied.
* Template, machine status and machine template converters and the VPC machine conversion: they only add easy members.
* Sharing of memory between source and destination of a converter, other than the annotation map: the converted specs are values.
* Region and zone tables and `GetTransitGatewayLocationAndRouting`: their answers are inputs of the webhook model.
* Error texts are kept only as far as they tell errors apart.
