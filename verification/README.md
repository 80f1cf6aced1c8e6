# A model of the game server operator

The operator keeps game servers running on Kubernetes. A *GameServerFleet* owns one *GameServer*; a GameServer owns a
StatefulSet, a headless and an external Service; a *GameServerBackup* owns Jobs. Three controllers bring these objects
about, each one pass at a time, interleaved with each other, with users, and with the cluster's own
controllers, over an API server that refuses stale updates and may lose a call or its answer at any moment.

This project models the three controllers, the admission webhook, the object store between them, and two small codecs
(the template hash and the RCON framing), and proves what holds over every run of the system.

## How the model is built

* `Types`, `Store`: objects with version, generation, finalizers and deletion mark, and the store's answer to every call.
  An update with a stale version is a conflict; a status update leaves the generation alone; a delete marks an object
  that has finalizers; the last finalizer of a marked object takes the object with it; GameServer writes pass admission.
* `Webhook`, `Builders`, `Conditions`, `Live`, `TemplateHash`, `Rcon`, `Backups`: the code that works on one object,
  as loops and in-place edits, each proved against a function, and the laws of those functions.
* `Actions`: every write and every bookkeeping step as an atomic action on one state. The controllers' actions say under
  which circumstances a write may land; `Env` actions are users, the StatefulSet controller, the kubelet, the garbage
  collector, which may take any Service at any time, and the clock. A *run* is a list of states linked by actions. Beside the store, the state carries what proofs
  need to remember: which steady passes are in flight and what they read, every template hash a fleet ever had, and every
  rollout record ever written.
* `Invariants`, `Preservation`: one invariant over the whole state, kept by every action, hence true in every reachable
  state. `Evolution`: what one action may do to an object that was there before.
* `Identity`, `Drift`, `Templates`, `Rollouts`, `FleetHealth`, `Servers`, `Services`, `Deletion`: the main results, over
  all runs. `Witnesses`: runs from the empty store for properties the code does not have, made of the undisturbed passes
  in `Turns`.
* `Rely`, `Cluster`, `FleetWrites`, `FleetController`, `GameServerController`: the controllers as the imperative code they
  are. `Cluster` is the running system seen by a controller: `Others` lets any number of other actions happen between two
  calls, `Weather` drops a call or loses its answer (the bodies shown are the quiet case; callers know only the
  contracts). Every call of a controller must be shown to be one of its actions at the moment it lands, so everything
  proved about runs holds of the code. Every method of a pass ensures, however it is disturbed, that the recorded run is
  only extended, that the controller's own actions in the extension are exactly those it returns, about its own object
  (`FleetDid`, `ServerDid`, `BackupDid`, built on `Traces`), and that they are actions, in order, of the one branch that
  what the pass read and listed calls for (`PassOf`, `ServerPassOf`, `BackupPassOf`). When the system is quiet, which no controller can bring about or end (`quiet` is in no controller's
  frame), they are exactly those of the decision table in `Plans`; `Decisions` says of every write in the table, in terms
  of what is stored, exactly when it is made. `Completion` is the pass that ends a rollout.
* `BackupProtocol`, `BackupController`: the same for backups, on their own small store.

Assumptions. One namespace. Reads see the latest state. Only the controllers write the objects they own, except that
users may drop the hash annotation of a GameServer; nobody but a controller removes the operator's finalizers. Users do
not put the fleet label on GameServers of their own: with two labelled ones, none of the name in the fleet's status,
`findCurrentGS` gives nil and line 94 of the fleet controller would dereference it (`FleetController.FindCurrentGS` says
exactly when it gives nil). Each controller works on one object at a time, as the manager's default has it
(`internal/controller/gameserverfleet_controller.go:540-547`). The clock does not run backwards, and each edit reads it
once. Services are checked for change by content. Every accepted write takes a new version, also one that changes
nothing. The set of registered game types, the JSON form of a spec and the enforcement of the CRD's history
limit are parameters (`Config`).

## What the code does not do

* The CRD limits a fleet's history to ten records (`maxItems`, see
  `config/crd/bases/games.gobehost.com_gameserverfleets.yaml:1661`), but the controller trims only when an update
  completes. Once ten records are stored, recording another start is refused, so no rollout is ever recorded again
  (`Rollouts.HistoryFreezes`); a start is stored exactly when there is room (`Rollouts.StartNeedsRoom`).
  Each such pass still overwrites the GameServer, then fails (`Plans.UpdateOutcome`).
* The Degraded condition is never set back. `docs/crd/gameserverfleet.md` says it follows the GameServer; in fact it is
  True exactly when it was at the start or some stored sync since then saw a GameServer that was not ready
  (`FleetHealth.DegradedExactly`). So a fleet can be available and degraded at once
  (`Witnesses.AvailableAndDegraded`): after a sync it agrees with the GameServer exactly when the GameServer is not
  ready or the condition was not True before (`FleetHealth.DegradedFollows`).
* Not every template edit is rolled out. A pass overwrites the spec of a GameServer that has not failed exactly when it
  bears a stamp, the stamp is not the hash of the template's spec, and the template is valid and keeps the game type
  (`Drift.UpdatesExactly`); one such undisturbed pass leaves the defaulted template under the latest stamp
  (`Templates.RolloutTurn`), and under the latest stamp it stays (`Templates.LatestStays`). So never rolled out are
  edits that make the template invalid or change the type; edits of labels or annotations alone and edits to another spec
  with the same hash (`Templates.EditSeen`, `Witnesses.EditUnseen`), though labels come along with a later update, while
  annotations never reach a GameServer that is there (`Templates.AnnotationsStay`); and edits made while the hash
  annotation is missing, because the next pass puts the new hash on the old spec (`Templates.PatchSettles`,
  `Witnesses.EditLost`). What the spec is, and when the stamp tells it, is `Templates.StampTellsSpec`.
* The Services of different owners can have one name: fleets `a` and `a-gs` both write Service `a-gs`, the one as external
  Service of GameServer `a-gs`, the other as its fleet Service, and each silently replaces the other's selector
  (`Witnesses.ServiceClash`). A write leaves a Service selecting the pods of GameServer `n` exactly when it is `n`'s own
  controller's, or that of the fleet whose name with -gs is `n`, for the type that `n` has (`Services.WhoServes`,
  `Services.WhoServesFleet`); as long as nobody else writes one of that name it stays so (`Services.KeepsServing`,
  `Services.KeepsServingFleet`). No clash can occur exactly among names of which no fleet's, and no second GameServer's,
  is a GameServer's name or that with -headless (`Services.ApartExactly`, `Services.KeepsServingApart`).
* Fleet deletion deletes the Service of the fleet's name whosever it is: deleting a fleet `a-gs` takes away the external
  Service of GameServer `a-gs` of fleet `a` (`Witnesses.ServiceDropped`). A Service goes exactly by that or by garbage
  collection (`Services.ServiceGoes`).
* Fleet deletion takes the GameServer's finalizer off before it deletes it, so the GameServer controller's wait for pods
  is skipped: an undisturbed pass takes an unmarked GameServer away at once, ready pods or not
  (`Deletion.FleetTurnWithServer`, `Witnesses.GoneWithReadyPod`). A fleet's GameServer goes either by its own controller,
  with no pod wanted and none ready, or by a delete that finds it unmarked and without that finalizer, and in no other
  way (`Deletion.OwnedGoes`); so a delete of an unmarked GameServer leaves it to that wait exactly when the finalizer is
  on it, put back, at that moment (`Deletion.DeleteTakes`).
* A backup is let go without a last Job whenever one storage lookup fails, even if target and storage are there all along
  (`BackupProtocol.LookupFailureSkipsBackup`). The exact condition for a release is `BackupProtocol.StopOutcome` and
  `BackupProtocol.ReleasedForCause`. `docs/crd/gameserverbackup.md` speaks of a completed Job only; a failed one
  releases as well.
* The last Job is looked up by name alone, so one left over from an earlier backup of the same name lets a new backup go
  without a Job of its own (`BackupProtocol.LeftoverJobCounts`). As long as nobody else makes or deletes a
  Job of that name, a backup let go because its Job had ended had one of its own exactly when none was there when the
  backup was created (`BackupProtocol.ReleasedByOwnJob`). The Job is owned by the earlier backup, so the garbage collector
  normally deletes it; the case is that of a second backup that is sooner.
* The RCON client takes a login reply with an empty body for a refusal and ignores the request ID, by which the Source
  RCON Protocol marks a refusal (`Rcon.LoginIgnoresId`).
* The check for a leftover list entry at lines 454-456 of the fleet controller, and the one for an empty volume name at
  lines 326-330 of the backup controller, can never be true; the model has no such branch.
* The documentation's rolling and recreate strategies have no counterpart in the code.

## Model

| member | source | states |
|---|---|---|
| Identity.IdentityKept | internal/controller/gameserverfleet_controller.go:88-102 | over any run without a delete of the fleet, its GameServer of a registered type keeps its uid, is never marked, never Failed, and the failed-server branch is never taken |
| Identity.OnePerFleet | internal/controller/gameserverfleet_controller.go:285-296 | in every reachable state all GameServers labelled with a fleet are one, named after the fleet |
| Identity.ReplacedOnlyWhenGone | internal/controller/gameserverfleet_controller.go:293-296 | a GameServer is created only when the fleet owns none and nothing has its name; it is a new object |
| Identity.NoneWithoutFinalizer | internal/controller/gameserverfleet_controller.go:408-465 | a fleet without its finalizer owns no GameServer |
| Identity.NoneAfterwards | internal/controller/gameserverfleet_controller.go:408-465 | once let go, a fleet never owns a GameServer again |
| Identity.StepKeepsUp | internal/controller/gameserverfleet_controller.go:192-198 | one step of anybody keeps the fleet and its GameServer the objects they are, unless a user deletes the fleet |
| Identity.RegisteredNeverFailed | internal/controller/gameserver_controller.go:79-86 | a GameServer whose type has an adapter is never in phase Failed |
| Deletion.RankNeverRises | internal/controller/gameserverfleet_controller.go:408-469 | no step of anybody raises the lexicographic rank of a fleet being deleted |
| Deletion.RankOverRuns | internal/controller/gameserverfleet_controller.go:408-469 | the same over whole runs; a marked fleet stays marked until it is let go |
| Deletion.FleetTurnWithServer | internal/controller/gameserverfleet_controller.go:416-442 | an undisturbed finalizing pass over a fleet with an unmarked GameServer lowers the rank, and the GameServer is gone at once, with its StatefulSet as it was |
| Deletion.DeleteLowers | internal/controller/gameserverfleet_controller.go:433-436 | the Delete call alone lowers the rank from every reachable state with an unmarked GameServer, whatever finalizers it has by then |
| Deletion.DeleteTakes | internal/controller/gameserverfleet_controller.go:433-436 | a delete of an unmarked GameServer takes it away at once exactly if the operator's finalizer is not on it at that moment; StatefulSets are untouched |
| Deletion.OwnedGoes | internal/controller/gameserverfleet_controller.go:416-442 | a fleet's GameServer goes in a step exactly if its controller releases it, which happens only with no pod wanted and none ready, or the fleet controller deletes it unmarked and without the operator's finalizer |
| Witnesses.GoneWithReadyPod | internal/controller/gameserverfleet_controller.go:416-442 | for every fleet name a run of undisturbed passes in which a deleted fleet's GameServer goes while its pod is ready and stays so |
| Deletion.PassLowers | internal/controller/gameserverfleet_controller.go:416-442 | so from the state in which a finalizing pass found its GameServer unmarked to the state after its Delete the rank falls, whatever anybody did in between, re-adding the finalizer included |
| Deletion.OwnedHasOurs | internal/reconciler/finalizer.go:28-53 | in every reachable state a fleet's GameServer has no finalizer but the operator's, and has that one when it is marked |
| Deletion.FleetTurnAlone | internal/controller/gameserverfleet_controller.go:444-469 | an undisturbed finalizing pass without a GameServer lets the fleet go, and the Service of its name goes with it |
| Deletion.ServerTurn | internal/controller/gameserver_controller.go:190-227 | an undisturbed finalizing pass of the GameServer controller lowers the rank while pods are wanted or none is ready |
| Deletion.PassTurn | internal/controller/gameserverfleet_controller.go:85-118 | ending a steady pass still in flight, over the fleet or over its marked GameServer, lowers the rank |
| Deletion.DeletionCompletes | internal/controller/gameserverfleet_controller.go:408-469 | from every reachable state with a marked fleet there is a run of such turns that lets it go |
| Drift.WritesMoveStamp | internal/controller/gameserverfleet_controller.go:98-103 | each in-place spec write moves the stamped hash strictly forward in the log of the template's hashes |
| Drift.WritesBoundedByChanges | internal/controller/gameserverfleet_controller.go:98-138 | from a fleet's creation on, and after its end, in-place spec writes never exceed changes of the template's hash |
| Drift.Converges | internal/controller/gameserverfleet_controller.go:98-109 | with the template left alone only as many spec writes remain as the stamp lags behind in the log, and none once it is the latest |
| Drift.QuietWhenStamped | internal/controller/gameserverfleet_controller.go:98-109 | an undisturbed pass leaves spec and stamp alone exactly when the stamp is the template's hash, or there is another stamp and the template is invalid or changes the game type |
| Drift.UpdateStores | internal/controller/gameserverfleet_controller.go:127-138 | the in-place update stores the defaulted template under the template's own hash, on the same object |
| Drift.SpecComparisonSettles | internal/webhook/v1alpha1/gameserver_webhook.go:55-105 | the stored spec equals the template exactly for templates that defaulting leaves alone, so comparing specs would not settle |
| Drift.UpdateAccepted | internal/webhook/v1alpha1/gameserver_webhook.go:124-137 | the in-place update on the current version is accepted exactly when the template is valid and keeps the game type, and refused as invalid otherwise |
| Drift.UpdateLands | internal/controller/gameserverfleet_controller.go:127-141 | a pass in flight can land its template on the stored GameServer exactly if that bears a stamp other than the hash of the template's spec, and the template is valid and keeps the type |
| Drift.UpdatesExactly | internal/controller/gameserverfleet_controller.go:88-103 | an undisturbed steady pass writes the template exactly over an owned GameServer that has not failed, under that same condition |
| Templates.DeployLeaves | internal/controller/gameserverfleet_controller.go:127-141 | creating or updating the GameServer leaves the defaulted template under its hash; a new one gets the template's labels and annotations, an old one the labels on top of its own and no annotation but the stamp |
| Templates.StepCarries | internal/controller/gameserverfleet_controller.go:89-109 | no other step of anybody changes a fleet's GameServer's spec, labels or annotations, but a patch of the stamp and a user who drops it |
| Templates.StampTellsSpec | internal/controller/gameserverfleet_controller.go:97-109 | over any run the GameServer has the defaulted spec of the template deployed last and the hash of the template stamped last, unless the stamp was dropped since; the stamp tells the spec exactly if no patch came after the deploy or both templates have one defaulted spec |
| Templates.Deployed | internal/controller/gameserverfleet_controller.go:293-296 | a GameServer that a fleet owns now and did not own at the beginning of a run was deployed and stamped in that run |
| Templates.RolloutTurn | internal/controller/gameserverfleet_controller.go:121-157 | from every reachable state in which an undisturbed pass would write the template, that pass is a run after which the GameServer has the defaulted template, its labels, its hash and the latest stamp, with room in the history or without |
| Templates.LatestStays | internal/controller/gameserverfleet_controller.go:97-109 | under the latest stamp, over any run without an edit that changes the template's hash and without a new GameServer, the template is never written and spec, labels and other annotations stay |
| Templates.EditSeen | internal/controller/gameserverfleet_controller.go:481-486 | an edit counts as a change exactly if it changes the hash of the template's spec, never if labels or annotations alone are edited; otherwise nothing but the stored template changes |
| Templates.AnnotationsStay | internal/controller/gameserverfleet_controller.go:127-137 | while a GameServer is not made anew, its annotations but for the stamp never change, whatever the template says |
| Templates.PatchSettles | internal/controller/gameserverfleet_controller.go:105-109 | a patch of the newest hash leaves spec, labels and other annotations as they are under the latest stamp |
| Witnesses.EditUnseen | internal/controller/gameserverfleet_controller.go:481-486 | for every template with the same hash a run of undisturbed passes after an edit to it that leaves the GameServer as it was made, under the latest stamp |
| Witnesses.EditLost | internal/controller/gameserverfleet_controller.go:105-109 | for every valid template of the same type with another spec a run in which it is set while the annotation is missing, and an undisturbed pass leaves the old spec under its hash and the latest stamp |
| Rollouts.StoredIsSuffix | internal/controller/gameserverfleet_controller.go:143-180 | stored history is the end of everything ever recorded, in time order; completed and Success go together |
| Rollouts.RecordsDoNotOverlap | internal/controller/gameserverfleet_controller.go:144-148 | a record starts no earlier than the one before it started and, if that was completed, ended |
| Rollouts.CompletionShape | internal/controller/gameserverfleet_controller.go:169-180 | a completion leaves the last min(10, n) records, the last one closed, the others unchanged |
| Rollouts.CompletionTrims | internal/controller/gameserverfleet_controller.go:159-187 | every stored completion leaves that history, whatever the pass had synced before |
| Rollouts.HistoryFreezes | config/crd/bases/games.gobehost.com_gameserverfleets.yaml:1661 | with the CRD's limit enforced, a history of ten records never takes another start |
| Rollouts.StartNeedsRoom | internal/controller/gameserverfleet_controller.go:143-155 | a start is stored exactly when the history has fewer than ten records or the limit is not enforced |
| FleetHealth.StoredFleetStatus | internal/controller/gameserverfleet_controller.go:313-341 | in every reachable state a stored fleet status is coherent: readyReplicas 0 or 1, Available and Degraded with the conditions that belong to them, FleetFailed never stored, current name empty or the fleet's own, conditions a map, generations in order |
| FleetHealth.SyncMeans | internal/controller/gameserverfleet_controller.go:313-341 | a sync copies readiness into replicas, phase and conditions, each with its reason and message; it ends Progressing when the GameServer is ready and sets Degraded when it is not, never back; history, current name and other conditions stay |
| FleetHealth.StartMeans | internal/controller/gameserverfleet_controller.go:143-149 | a start adds one open record at the end of the history and shows Progressing; readiness, generation, current name and other conditions stay |
| FleetHealth.CompleteMeans | internal/controller/gameserverfleet_controller.go:163-181 | a completion leaves the fleet Available with one ready replica under its GameServer's name, not Progressing, the generation observed, other conditions as they were |
| FleetHealth.CreatedMeans | internal/controller/gameserverfleet_controller.go:298-308 | a new GameServer is noted by name and shows Progressing, all else stays |
| FleetHealth.ResetMeans | internal/controller/gameserverfleet_controller.go:199-200 | after a failed GameServer the name is cleared and the phase Progressing, all else stays |
| FleetHealth.DegradedNext | internal/controller/gameserverfleet_controller.go:329-338 | one step of anybody leaves Degraded True exactly when it was True or the step is a stored sync that saw a GameServer not ready |
| FleetHealth.DegradedExactly | internal/controller/gameserverfleet_controller.go:329-338 | over any run of a stored fleet, Degraded is True exactly when it was at the start or some stored sync saw an unready GameServer |
| FleetHealth.DegradedFollows | internal/controller/gameserverfleet_controller.go:313-346 | after a stored sync Degraded says whether the GameServer is not ready exactly when it is not ready or the condition was not True before |
| FleetHealth.DegradedSticks | internal/controller/gameserverfleet_controller.go:313-346 | a Degraded condition that is True stays True; observedGeneration never falls |
| Witnesses.AvailableAndDegraded | internal/controller/gameserverfleet_controller.go:313-346 | for every fleet name a run of undisturbed passes from the empty store after which the fleet is Available, its GameServer ready and Degraded True |
| Evolution.StepLogNext | internal/controller/gameserverfleet_controller.go:143-180 | one step changes the log of rollouts only by appending an open record or closing the last one |
| Evolution.StepServerNext | internal/controller/gameserver_controller.go:79-171 | one step keeps a GameServer's uid, type and fleet label, its phase follows the machine's edges, its generations do not fall |
| Evolution.StepFleetNext | internal/controller/gameserverfleet_controller.go:313-346 | one step keeps a fleet's uid and deletion mark, and its generations do not fall |
| Servers.PhaseHistory | internal/controller/gameserver_controller.go:89-171 | over any run phases follow the edges: Stopping is final, Running never goes back, deletion is final |
| Servers.StoredPhase | internal/reconciler/status.go:28-60 | Ready implies Running or Stopping and mirrors the unique Ready condition; Failed only without an adapter |
| Servers.ProbeMeans | internal/reconciler/status.go:28-60 | a report makes the GameServer Running if ready, else Provisioning if it had no phase; flag and Ready condition follow the probe; only an observing one takes over the generation |
| Servers.UnregisteredMeans | internal/controller/gameserver_controller.go:79-86 | without an adapter it is Failed and not ready, for that reason |
| Servers.StaysDown | internal/controller/gameserver_controller.go:195-218 | after the scale-down no pass raises the replicas again and ready pods only become fewer |
| Servers.FinalizerGoes | internal/reconciler/finalizer.go:40-53 | a marked GameServer loses the finalizer only to its controller with the StatefulSet absent or drained; an unmarked one only to the fleet controller deleting its fleet |
| Servers.SyncAccepted | internal/controller/gameserver_controller.go:120-132 | a StatefulSet sync is accepted exactly when the stored selector is that of the GameServer read, always for its own set |
| Servers.StepSetNext | internal/controller/gameserver_controller.go:120-132 | one step keeps a StatefulSet's owner, selector and service name; only a sync raises replicas |
| Servers.SelectsOwnPods | internal/reconciler/statefulset.go:105-114 | a GameServer's own StatefulSet selects its pods and no other GameServer's |
| Servers.ServiceSelectsOne | internal/reconciler/service.go:87-95 | every stored Service selects the pods of at most one GameServer, whose name is the Service's own, the Service's without -headless, or the Service's with -gs |
| Services.WhoServes | internal/reconciler/service.go:43-54 | right after any write of a Service it selects GameServer n's pods exactly when n's own controller wrote it in a pass that read the type n has, or it is the fleet Service of the fleet that owns the name n, written for that type; under a name under which n itself is served only the former is possible |
| Services.WhoServesFleet | internal/controller/gameserverfleet_controller.go:348-370 | right after any write of the Service named after a fleet it selects the pods of the fleet's GameServer exactly when the fleet controller wrote it |
| Services.ServiceGoes | internal/controller/gameserverfleet_controller.go:444-452 | a Service goes in a step exactly if the fleet of its name is finalized, or it is garbage collected |
| Witnesses.ServiceDropped | internal/controller/gameserverfleet_controller.go:444-452 | for every fleet name f a run of undisturbed passes in which GameServer f-gs loses its external Service to the deletion of fleet f-gs |
| Services.ApartExactly | internal/reconciler/service.go:43-85 | no two of a set of fleets and GameServers share the name of a Service exactly if no fleet's name, and no second GameServer's, is a GameServer's name or that with -headless |
| Services.KeepsServingApart | internal/controller/gameserver_controller.go:93-153 | over every run on such names a GameServer's Services stay its own |
| Services.KeepsServingFleetApart | internal/controller/gameserverfleet_controller.go:348-370 | and a fleet's Service goes on selecting the pods of the fleet's GameServer |
| Services.ServedOnce | internal/controller/gameserver_controller.go:93-153 | a Service written in a pass over the present GameServer n is n's own |
| Services.ServesNext | internal/controller/gameserver_controller.go:93-153 | a Service that is n's own stays so in every step, while n is stored, except a write of that name by the fleet of that name or by another GameServer |
| Services.KeepsServing | internal/controller/gameserver_controller.go:93-153 | over any run without such a write the Service's selector stays that of n and its type, and n the same object |
| Services.OwnMeansExact | internal/reconciler/service.go:87-95 | a GameServer's own Service selects its pods and no other GameServer's |
| Services.FleetServedOnce | internal/controller/gameserverfleet_controller.go:348-370 | a fleet Service that has been written selects the pods of the fleet's GameServer |
| Services.KeepsServingFleet | internal/controller/gameserverfleet_controller.go:348-370 | over any run in which the fleet owns a GameServer and no GameServer writes a Service of that name, it goes on doing so |
| Witnesses.ServiceClash | internal/reconciler/fleetservice.go:43-54 | for every fleet name f a run of undisturbed passes in which the Service f-gs selects the pods of GameServer f-gs until fleet f-gs writes its own Service of that name; afterwards it does not, and the GameServer is unchanged |
| Servers.ScaleDownAccepted | internal/controller/gameserver_controller.go:201-209 | a scale-down on the current version is never refused |
| Preservation.StepKeeps | internal/controller/gameserverfleet_controller.go:57-119 | every action of anybody keeps the invariant |
| Preservation.RunKeeps | internal/controller/gameserverfleet_controller.go:57-119 | the invariant holds in every state of every run |
| Preservation.FleetStepKeeps | internal/controller/gameserverfleet_controller.go:88-208 | every write of the fleet controller keeps it: one named GameServer per fleet, coherent status, history, stamps |
| Preservation.ServerStepKeeps | internal/controller/gameserver_controller.go:54-227 | every write of the GameServer controller keeps it |
| Preservation.ProbeOk | internal/controller/gameserver_controller.go:89-179 | the status a steady GameServer pass ends with is in order |
| Preservation.HistoryStart | internal/controller/gameserverfleet_controller.go:144-148 | appending a start keeps stored history a suffix of the log, in time order |
| Preservation.HistoryComplete | internal/controller/gameserverfleet_controller.go:169-180 | closing and trimming keeps it so |
| Rely.FleetRelyRun | internal/controller/gameserverfleet_controller.go:57-119 | what a fleet pass knows of its GameServer and fleet survives any number of actions of others |
| Rely.ServerRelyRun | internal/controller/gameserver_controller.go:54-227 | the same for a GameServer pass and its StatefulSet |
| Cluster.Cluster.Write | internal/controller/gameserverfleet_controller.go:150-155 | a call that takes effect is exactly one more action of the recorded run; it may take effect and still be reported as failed, and one that is reported done took effect |
| Cluster.Cluster.Reachable | internal/controller/gameserverfleet_controller.go:57-86 | the stored state is always one that the invariant describes |
| FleetController.FindCurrentGS | internal/controller/gameserverfleet_controller.go:273-283 | the first listed GameServer with the name in the status, else the only one; none exactly when no name fits and there is not exactly one |
| FleetController.ListOwned | internal/controller/gameserverfleet_controller.go:372-381 | the list is exactly the fleet's own GameServer, or empty |
| FleetController.HandleSteadyState | internal/controller/gameserverfleet_controller.go:88-119 | the dereference of the current GameServer is safe; the pass keeps to the one branch that list, phase and hash call for, in the order of that branch, however it is disturbed, and always comes back; in quiet times it does what SteadyPlan says, which the Decisions rows spell out |
| FleetController.WriteTemplate | internal/controller/gameserverfleet_controller.go:127-141 | the in-place update lands on the very version that was listed, leaving the defaulted template there, or not at all; in quiet times its verdict is the store's |
| FleetController.StartSpecUpdate | internal/controller/gameserverfleet_controller.go:121-157 | a start is recorded only after the template was written, from the version the GameServer had; in quiet times it is recorded exactly if there is room |
| FleetController.RecordStart | internal/controller/gameserverfleet_controller.go:143-156 | at most one start record is stored, with the time of the pass; in quiet times exactly when there is room |
| FleetController.CompleteUpdate | internal/controller/gameserverfleet_controller.go:159-190 | the completion is stored over whatever the sync left in memory, stored or not; only then the Service is seen to, in front of that GameServer |
| FleetController.EditComplete | internal/controller/gameserverfleet_controller.go:163-181 | the in-memory edit is CompleteEdit: close if open, trim to ten |
| FleetController.SyncStatus | internal/controller/gameserverfleet_controller.go:313-346 | the sync is stored or, its error ignored, kept in memory for the completion |
| FleetController.HandleFailedGS | internal/controller/gameserverfleet_controller.go:192-208 | a GameServer this branch is taken for has no adapter; it is deleted, then the status reset, and the pass is content only with the reset stored |
| FleetController.CreateGameServer | internal/controller/gameserverfleet_controller.go:285-311 | create, then note in the status, then serve, each only after the one before; in quiet times as CreatePlan says |
| FleetController.PatchTemplateHash | internal/controller/gameserverfleet_controller.go:264-271 | at most the stamp is written, nothing else changes, and the call is reported done only if it was |
| FleetController.EnsureFleetService | internal/controller/gameserverfleet_controller.go:348-370 | at most one write, of a Service with selector, type, ports and annotations of the fleet's GameServer; in quiet times exactly when that changes something |
| FleetController.Finalize | internal/controller/gameserverfleet_controller.go:408-469 | a pass that listed a GameServer strips and deletes, one that listed none drops the Service and releases, nothing else; content only with the release done; in quiet times as FinalizePlan says |
| FleetController.StripAndDelete | internal/controller/gameserverfleet_controller.go:419-437 | strip the operator's finalizer, then delete, each at most once and in this order; a pass that says it deleted did both |
| FleetController.LetFleetGo | internal/controller/gameserverfleet_controller.go:444-468 | the Service goes first, then the finalizer; the pass is content only when the finalizer is off |
| FleetController.SaveStatus | internal/controller/gameserverfleet_controller.go:150-155 | a status write lands on the version it was computed from; afterwards memory is the stored object |
| FleetController.Reconcile | internal/controller/gameserverfleet_controller.go:57-86 | under any interleaving and any faults the recorded run is only extended, the fleet controller's actions in the extension are exactly this pass's, about this fleet, in order, all of the one branch that the fleet it read and the GameServers it listed within the pass call for; in quiet times exactly what FleetPlan says, asking to be called again as FleetOutcome says; it does not come back only when the fleet is gone or let go |
| Decisions.CreatesExactly | internal/controller/gameserverfleet_controller.go:90-92 | an undisturbed steady pass creates the GameServer exactly when the fleet owns none, nothing has its name and the template is valid, and notes it then |
| Decisions.RetriesExactly | internal/controller/gameserverfleet_controller.go:94-96 | it deletes the GameServer and resets the status exactly when that has failed |
| Decisions.StartsExactly | internal/controller/gameserverfleet_controller.go:121-155 | it records a start exactly with an update for which the history has room, from the version the GameServer has, at the time of the pass |
| Decisions.PatchesExactly | internal/controller/gameserverfleet_controller.go:105-109 | it stamps exactly a GameServer without a stamp that has not failed |
| Decisions.SyncsExactly | internal/controller/gameserverfleet_controller.go:111-112 | it syncs exactly with the status of a GameServer that has not failed and bears no stamp or the template's |
| Decisions.CompletesExactly | internal/controller/gameserverfleet_controller.go:111-116 | it completes a rollout exactly when such a GameServer is ready, the fleet shows Progressing, and its generation is at least the GameServer's |
| Decisions.FleetServiceTakes | internal/controller/gameserverfleet_controller.go:354-361 | what the fleet Service becomes, field by field: what is the GameServer's, and what stays as stored |
| Decisions.FrontsExactly | internal/controller/gameserverfleet_controller.go:348-370 | it writes the fleet Service exactly when that changes it |
| Decisions.FinalizesExactly | internal/controller/gameserverfleet_controller.go:408-469 | a finalizing pass strips exactly an unmarked GameServer with the operator's finalizer, deletes exactly an unmarked one, drops the Service exactly without one, and then releases |
| Decisions.PassExactly | internal/controller/gameserverfleet_controller.go:57-86 | which of these a pass is, by mark and finalizer, and when it comes back |
| Decisions.FailsExactly | internal/controller/gameserverfleet_controller.go:88-157 | a steady pass fails exactly when the store refuses the new GameServer, the update or its record, and otherwise comes back after ten seconds |
| Completion.CompletionTurn | internal/controller/gameserverfleet_controller.go:159-190 | from every reachable state in which a rollout is due, the undisturbed pass is a run that closes the last record as a success at the time of the pass, with its message, keeps the others but for the oldest over ten, and leaves the fleet Available |
| GameServerController.SyncHeadless | internal/controller/gameserver_controller.go:93-103 | at most one write, of a Service with the headless form's selector, ports and labels; in quiet times exactly when that changes something, and no other Service changes |
| GameServerController.SyncExternal | internal/controller/gameserver_controller.go:141-153 | the same for the external Service, with type and annotations |
| GameServerController.EnsureSet | internal/controller/gameserver_controller.go:112-132 | the StatefulSet is created or synced by at most one write; refused as invalid only with another selector stored, in quiet times exactly then |
| GameServerController.EditState | internal/controller/gameserver_controller.go:162-179 | the status edit at the end of a pass: readiness from the StatefulSet if it was read, and the generation |
| GameServerController.ReportState | internal/controller/gameserver_controller.go:162-187 | at most one report, observing the generation, of readiness as the StatefulSet read had it; content only when it is stored |
| GameServerController.ReportFailure | internal/controller/gameserver_controller.go:104-109 | a failed child is reported as not ready, without the generation, or nothing is stored |
| GameServerController.Unregistered | internal/controller/gameserver_controller.go:79-86 | at most the Failed status with the adapter's message is stored, and the GameServer is looked at again |
| GameServerController.AddTo | internal/reconciler/finalizer.go:28-38 | the finalizer is appended once; nothing is written when it is there |
| GameServerController.RemoveFrom | internal/reconciler/finalizer.go:40-53 | the finalizer is taken off, if it is there, only in a state in which the GameServer is drained; done means off |
| GameServerController.DrainedStays | internal/controller/gameserver_controller.go:195-218 | a StatefulSet that was seen without wanted and ready pods is still so when the release lands |
| GameServerController.ScaleIfDue | internal/controller/gameserver_controller.go:201-209 | afterwards no pod is wanted; with none ready the GameServer is drained |
| GameServerController.Finalize | internal/controller/gameserver_controller.go:190-227 | scale down, then either wait or release, in this order; released only in a state in which the GameServer is drained; in quiet times as ServerFinalizePlan says |
| GameServerController.EnsureChildren | internal/controller/gameserver_controller.go:89-187 | headless Service, StatefulSet, external Service, report, each at most once and in this order; content only after a report that observes the generation; in quiet times all that is needed, the first failure ending the pass |
| GameServerController.Reconcile | internal/controller/gameserver_controller.go:54-188 | as for fleets: the run is only extended, by exactly this pass's actions, in the shape and order that the GameServer it read within the pass calls for; the finalizer goes only from a drained GameServer; in quiet times exactly what ServerPlan says, asking to be called again as ServerOutcome says; it does not come back only when the GameServer is gone or without the finalizer |
| Decisions.GuardsExactly | internal/controller/gameserver_controller.go:62-86 | an undisturbed steady pass adds the finalizer exactly when it is missing, and else marks the GameServer Failed exactly when its type has no adapter, with that message |
| Decisions.ServicesTake | internal/controller/gameserver_controller.go:93-150 | what headless and external Service become, field by field, and what stays as stored |
| Decisions.ChildrenExactly | internal/controller/gameserver_controller.go:93-153 | each Service and the StatefulSet is written exactly when that changes it, and nothing after a StatefulSet that is refused |
| Decisions.ReportsExactly | internal/controller/gameserver_controller.go:104-179 | the one report says ready exactly when the StatefulSet has a ready pod, and leaves the generation exactly when the StatefulSet was refused |
| Decisions.StopsExactly | internal/controller/gameserver_controller.go:190-227 | a finalizing pass scales down exactly when pods are asked for or none is counted, waits exactly while one is ready, and else releases |
| Decisions.ServerPassExactly | internal/controller/gameserver_controller.go:54-88 | which of these a pass is, and when it comes back: after 5 or 30 seconds, at once, or not at all |
| BackupProtocol.ReleasedAfterJob | internal/controller/gameserverbackup_controller.go:293-366 | when every pass settles on answered lookups only, for a spec whose flag is not false, with its fleet, storage and Secret there, the finalizer is released only once a condition Complete or Failed of the last Job is True |
| BackupProtocol.ReleasedForCause | internal/controller/gameserverbackup_controller.go:301-366 | every release has its cause, so at a state of the same pass, for the spec the backup has when it is released |
| BackupProtocol.AtMostOneJob | internal/controller/gameserverbackup_controller.go:332-346 | however often passes are repeated, at most one last Job is created while nobody deletes it |
| BackupProtocol.LookupFailureSkipsBackup | internal/controller/gameserverbackup_controller.go:320-324 | a run in which one failed storage lookup lets a wanted backup go without a Job |
| BackupProtocol.ReleasedByOwnJob | internal/controller/gameserverbackup_controller.go:332-359 | a backup released because its Job had ended had a Job of its own, made since state i, exactly when no Job of that name was there at i, as long as nobody else makes or deletes one |
| BackupProtocol.LeftoverJobCounts | internal/controller/gameserverbackup_controller.go:332-359 | for every backup name and wanted spec a run of three undisturbed passes with target and storage there: a backup makes its Job and is let go, then a second one of its name is let go by that same Job |
| BackupProtocol.StopOutcome | internal/controller/gameserverbackup_controller.go:293-366 | exactly when an undisturbed finalizing pass releases, creates the Job, or waits |
| BackupProtocol.StopsAtOnce | internal/controller/gameserverbackup_controller.go:293-324 | an undisturbed finalizing pass settles on opting out exactly by the flag false, unset meaning true; on a missing target exactly for a fleet that is not there; on missing storage exactly without any, or without the Secret it names, which it then reports |
| BackupProtocol.StopsWithJob | internal/controller/gameserverbackup_controller.go:301-362 | with flag, target and storage in order its one act is to make the Job, if there is none, of the volume of the fleet's current GameServer or else of the target; it releases once the Job is Complete or Failed and waits until then |
| BackupProtocol.MakesLastJob | internal/controller/gameserverbackup_controller.go:332-346 | the Job has the backup's name with its suffix, its label, that volume, and has not ended |
| BackupProtocol.LeftNeverRises | internal/controller/gameserverbackup_controller.go:293-366 | nothing anybody does, short of deleting the Job, undoes progress of a deletion |
| BackupProtocol.StopTurn | internal/controller/gameserverbackup_controller.go:293-366 | an undisturbed finalizing pass makes progress unless it has to wait for the Job |
| BackupProtocol.BackupDeletionCompletes | internal/controller/gameserverbackup_controller.go:293-382 | from every state a marked backup can be let go |
| BackupProtocol.BackupRunKeeps | internal/controller/gameserverbackup_controller.go:97-105 | over every run conditions are a map, the last outcome and its condition agree, generations are in order |
| BackupProtocol.StepOfKeeps | internal/controller/gameserverbackup_controller.go:437-454 | one step keeps that, and a backup's versions, generations and deletion mark only go forward |
| BackupController.LookUpStorage | internal/controller/gameserverbackup_controller.go:393-431 | a negative answer holds at the moment it is given; a failed call is told apart |
| BackupController.AwaitJob | internal/controller/gameserverbackup_controller.go:332-362 | the one act of the pass is to create the Job of the subject's volume, or else it settles on the Job having ended before it releases; in quiet times it creates exactly if there is none and releases exactly if it has ended |
| BackupController.HasEnded | internal/controller/gameserverbackup_controller.go:350-359 | a Job has ended exactly when some terminal condition is True |
| BackupController.RemoveFrom | internal/controller/gameserverbackup_controller.go:368-382 | at most the release, on the version the pass decided on; content exactly with the finalizer off |
| BackupController.LetGoWithoutSecret | internal/controller/gameserverbackup_controller.go:417-428 | the cause is settled first, then the report, then the release; in quiet times all three |
| BackupController.Finalize | internal/controller/gameserverbackup_controller.go:293-366 | however it is disturbed a pass creates the Job, or settles on a cause that holds, reports at most once and only then releases; it is content only with the finalizer off; in quiet times as StopPlan says, which StopsAtOnce and StopsWithJob spell out |
| BackupController.ReportJobs | internal/controller/gameserverbackup_controller.go:123-134 | at most one report of what the listed Jobs tell, Ready and the generation together; in quiet times the Jobs listed are the stored ones and it is stored |
| BackupController.Reconcile | internal/controller/gameserverbackup_controller.go:61-135 | as for fleets: the run is only extended, by exactly this pass's actions in the order of a finalizing pass over the spec it read, if the backup it read was marked, or else of an ordinary one; in quiet times what StopPlan or OrdinaryPlan says, with the outcome the stored Jobs tell of; it does not come back only when the backup is gone or without the finalizer |
| BackupController.OrdinaryExactly | internal/controller/gameserverbackup_controller.go:61-135 | what an undisturbed ordinary pass writes, report by report: the finalizer first, then what is missing, and Ready only with storage and Secret there |
| Backups.LatestJob | internal/controller/gameserverbackup_controller.go:268-273 | the Job created last, the first listed among equals |
| Backups.LiveBackup.ReadJobs | internal/controller/gameserverbackup_controller.go:254-291 | the first true terminal condition of the Job created last decides: Complete means Success, condition True and the completion time; Failed means Failed, condition False with its message, time unchanged; with none the status is unchanged |
| Backups.LiveBackup.SetCondition | internal/controller/gameserverbackup_controller.go:437-454 | the condition is put into the list as into a map, under the generation the status has observed |
| Backups.ReportKeepsOk | internal/controller/gameserverbackup_controller.go:275-290 | a report keeps the status in order and never lowers the observed generation |
| Backups.EndedTells | internal/controller/gameserverbackup_controller.go:275-290 | a success reads back as Success with condition True and the Job's time if it has one, a failure as Failed with condition False and its message, the time unchanged |
| Backups.ReportTells | internal/controller/gameserverbackup_controller.go:125-126 | every report ends with the Ready condition as given, and the generation |
| Conditions.SetIn | internal/reconciler/status.go:39-46 | the setters' loop overwrites the first entry of the type or appends |
| Conditions.PutIsMapUpdate | internal/reconciler/status.go:28-47 | the written type reads back, every other type is untouched |
| Conditions.PutKeepsOrder | internal/controller/gameserverfleet_controller.go:488-511 | other entries keep place and value, the list grows at its end only, types stay unique |
| Live.LiveServer.SetCondition | internal/reconciler/status.go:28-47 | the setter on a GameServer is that map update |
| Live.LiveServer.SetReady | internal/reconciler/status.go:49-56 | condition and flag are set together |
| Live.LiveFleet.SetCondition | internal/controller/gameserverfleet_controller.go:488-511 | the setter on a fleet is that map update |
| Live.Strip | internal/reconciler/finalizer.go:45-51 | every occurrence is removed, the rest keeps its order |
| Live.AddThenRemove | internal/reconciler/finalizer.go:28-53 | adding a finalizer and removing it again gives the list back |
| Webhook.Default | internal/webhook/v1alpha1/gameserver_webhook.go:55-105 | the object is brought to its defaulted form in place |
| Webhook.FillPorts | internal/webhook/v1alpha1/gameserver_webhook.go:55-105 | the port loop fills protocol and target port where unset |
| Webhook.DefaultIdempotent | internal/webhook/v1alpha1/gameserver_webhook.go:55-105 | defaulting twice is defaulting once |
| Webhook.DefaultFillsOnly | internal/webhook/v1alpha1/gameserver_webhook.go:55-105 | set fields are left alone |
| Webhook.DefaultGives | internal/webhook/v1alpha1/gameserver_webhook.go:60-102 | what every unset field becomes, with the security section missing or there |
| Webhook.AdmittedExactly | internal/webhook/v1alpha1/gameserver_webhook.go:145-176 | a spec is valid exactly with type, version, image, size and a port, all ports and target ports between 1 and 65535 |
| Webhook.ErrorsExactly | internal/webhook/v1alpha1/gameserver_webhook.go:145-176 | an error is listed exactly when its rule is violated, with index and value |
| Webhook.ErrorsInOrder | internal/webhook/v1alpha1/gameserver_webhook.go:145-176 | errors are listed once each, in the order of the checks |
| Webhook.DefaultKeepsVerdict | internal/webhook/v1alpha1/gameserver_webhook.go:55-176 | validation accepts the defaulted spec exactly if it accepts the spec |
| Webhook.AdmittedIsStored | internal/webhook/v1alpha1/gameserver_webhook.go:55-176 | what is admitted is stored in a form that admission leaves alone |
| Webhook.PortsErrorsMeaning | internal/webhook/v1alpha1/gameserver_webhook.go:145-176 | a port error is listed exactly when its rule is violated |
| Webhook.NoPortErrors | internal/webhook/v1alpha1/gameserver_webhook.go:145-176 | no port error is listed exactly when every port is valid |
| Webhook.NoErrorsMeansValid | internal/webhook/v1alpha1/gameserver_webhook.go:145-176 | the error list is empty exactly for valid specs |
| Webhook.ValidateGameServer | internal/webhook/v1alpha1/gameserver_webhook.go:145-176 | all violated rules are listed, in order |
| Webhook.ValidateUpdate | internal/webhook/v1alpha1/gameserver_webhook.go:124-137 | nothing is listed exactly for a valid spec that keeps the game type |
| Builders.SelectorIsExact | internal/reconciler/service.go:87-95 | a GameServer's selector matches its own pods and no other's |
| Builders.LabelsExactly | internal/reconciler/service.go:87-95 | the five labels and their values |
| Builders.BuildService | internal/reconciler/service.go:27-55 | the built external Service: as many ports as the spec has, each with name, port and protocol of the spec's and its target port or else its port; type and annotations of the spec, labels and selector of the GameServer |
| Builders.BuildHeadlessService | internal/reconciler/service.go:57-85 | the same ports on a headless ClusterIP Service without annotations |
| Builders.BuildFleetService | internal/reconciler/fleetservice.go:27-55 | the same ports with type and annotations of the spec, the fleet's labels and the GameServer's selector |
| Builders.BuildServicePorts | internal/controller/gameserverfleet_controller.go:521-537 | the same ports from the fleet controller's own loop |
| Builders.BuildStatefulSet | internal/reconciler/statefulset.go:29-122 | fails exactly without an adapter; one replica of the spec's image and ports; selector, pod labels and service name are the GameServer's |
| Builders.SyncSetTakes | internal/controller/gameserver_controller.go:120-132 | a sync takes all the built set has to say and keeps the stored version, owner and status |
| Builders.DefaultingCommutes | internal/webhook/v1alpha1/gameserver_webhook.go:55-105 | building ports after defaulting differs only by the default protocol |
| Types.OwnedNameInjective | internal/controller/gameserverfleet_controller.go:383-388 | different fleets never claim the same GameServer name |
| TemplateHash.Sum32a | internal/controller/gameserverfleet_controller.go:481-486 | the loop computes the hash of the bytes |
| TemplateHash.HashTemplate | internal/controller/gameserverfleet_controller.go:481-486 | the text is the eight hexadecimal digits of that hash |
| TemplateHash.StepBijective | internal/controller/gameserverfleet_controller.go:482-484 | for each byte one step is a bijection on 32-bit states |
| TemplateHash.StepInjectiveInByte | internal/controller/gameserverfleet_controller.go:482-484 | for each state one step is injective in the byte |
| TemplateHash.AbsorbInjectiveInState | internal/controller/gameserverfleet_controller.go:482-484 | different states stay different after any bytes |
| TemplateHash.HexInjective | internal/controller/gameserverfleet_controller.go:485 | the printed form loses nothing |
| TemplateHash.HexDigits | internal/controller/gameserverfleet_controller.go:485 | the printed digits are hexadecimal, lower case, most significant first |
| TemplateHash.KnownHashes | internal/controller/gameserverfleet_controller.go:482-484 | the hashes of no byte, of 'a' and of "fo" are the published ones |
| TemplateHash.OneByteChangeDetected | internal/controller/gameserverfleet_controller.go:481-486 | serialisations of one length that differ in exactly one byte have different hash texts |
| Rcon.FillPacket | internal/rcon/rcon.go:59-67 | the buffer filled at offsets is the frame, the length truncated to 32 bits |
| Rcon.LittleEndian | internal/rcon/rcon.go:64-66 | words are written least significant byte first |
| Rcon.FrameLayout | internal/rcon/rcon.go:59-67 | the frame byte by byte: length, ID and type in two's complement, payload, two zero bytes |
| Rcon.Connection.WritePacket | internal/rcon/rcon.go:59-71 | exactly the frame is sent |
| Rcon.Connection.ReadFull | internal/rcon/rcon.go:83-85 | exactly the bytes asked for are read, however the connection splits them; fails exactly on a short stream |
| Rcon.Connection.ReadPacket | internal/rcon/rcon.go:73-96 | outcome and rest of the stream are those of Deframe |
| Rcon.ReadsBack | internal/rcon/rcon.go:59-96 | a packet reads back, with the rest untouched, exactly when its payload has at most 2^31 - 11 bytes |
| Rcon.StreamReadsBack | internal/rcon/rcon.go:59-96 | any list of packets reads back in order and leaves exactly the rest |
| Rcon.Reframes | internal/rcon/rcon.go:73-96 | an accepted frame is the frame of its ID, type and body exactly when it ends in two zero bytes |
| Rcon.ReadFails | internal/rcon/rcon.go:73-85 | a read fails exactly on a short stream or a length below ten |
| Rcon.SendCommand | internal/rcon/rcon.go:16-57 | the login is sent with ID 0 and type 3, the command with ID 1 and type 2 exactly after a login reply with a body; what is reported, as a function of the server's bytes |
| Rcon.LoginIgnoresId | internal/rcon/rcon.go:32-38 | a login reply is accepted exactly when its body is not empty, whatever its request ID |

## Left out

- The countdown over RCON before an in-place update (sleeping, dialling, deadlines, the password in the environment): I/O; the client's session over an open connection is modelled.
- UpdateAddress and the Service read before it: copies load-balancer fields into the status.
- Resources, scheduling, environment, probes, security contexts, volume claim and update strategy of the StatefulSet: field copying. Image and container ports stand for the pod template.
- The fleet webhook: fixed-field checks weaker than the GameServer webhook's.
- The target lookup, volume claim check and CronJob of an ordinary backup pass: each ends the pass early with the same kind of status report. The layering of storage settings and the pod of the Job: field copying.
- JSON: a spec's serialisation is an arbitrary function to bytes, so nothing is said about two specs with the same bytes. Go's %q escaping in the message of an unregistered type: quotes only.
- Cached reads: every read sees the latest state.
- The StatefulSet, Job and garbage-collection controllers and the kubelet are environment actions.
- Owner references beyond the owner of a StatefulSet (so any Service may be collected at any time), events and logs.
