# The reconcile protocol of the InvokerDeployment operator, in Dafny

The operator watches one custom resource, the InvokerDeployment, and keeps the ConfigMaps and pods
of a namespace in line with its spec.  Each reconcile pass observes the namespace, handles the
finalizer, derives the status (and stops there if the status has to be written), and otherwise
creates, updates and deletes children, makes the spec's revision current, records the spec in the
revision history and prunes that history.  Whether existing children are updated or restarted at
all depends on a gate: the recorded current revision differs from the revision of the spec.

This project models that protocol over a store whose calls can fail, and proves what single passes
do and what holds over whole runs.

## How it is built

* `Types`, `Text`, `Restart`, `Converter`: the values, the restart test with the defaulting the API
  server applies to new pods, and the desired state of a spec.
* `Api`: the store, what the environment may do between any two calls (edit the spec, mark the
  resource deleted, change a pod's phase, evict a pod, finish a termination), the calls, and three
  fates of a call: served, refused, or carried out with the answer lost.  A world is a store, a
  script of turns for the coming calls, and an audit log.
* `Observer`, `Updater`, `Reconciler`, `Controller`: for each source file, pure functions over
  worlds that say which calls are made, and classes with the source's own loops and shared mutable
  objects, proved equal to those functions.  `Handler.ReconcilePass` is the whole pass.
* `Protocol`, `Actions`: the calls a pass can make, and what a round leaves behind under any
  interference.
* `Runs`, `Suspects`, `Invariants`: runs of passes and environment moves, with a trail of the spec
  last applied in full and the specs attempted since, and the invariants of every run.
* `Edits`: concurrent edits and why no write of a pass undoes them.
* `Templates`: how an edit of a spec moves the desired pods.
* `Derivation`: what the recorded status says about the cluster, and when a pass acts.
* `Trace`: the audit log of one pass: order of the calls, where a failure stops it.
* `History`, `Pruning`, `Lookups`: revision numbering, pruning, lost revisions and exactly when
  they are lost.
* `Quiet`, `StatusMachine`, `Convergence`, `Stability`, `Deletion`: undisturbed passes in closed
  form, the status machine and its decreasing measure, convergence of undisturbed passes, and the
  end of a resource.
* `RunsConverge`: convergence over runs, with failures, phase changes, terminations and evictions
  around two action passes.
* `Scenarios`, `Images`: runs that show which assumptions are needed, and when pods run the images
  that their spec asks for.

"Undisturbed" means that no call of the pass fails and nothing happens between its calls.  A pod
"fits" its template if it has the template's labels and config volume and either needs no restart
or was stored from exactly that template.  A pod is "live" if it has no deletion timestamp.

## Assumptions

* One InvokerDeployment per namespace and no foreign objects under its selectors: children are
  selected by the `type` label alone, so the store is that of one resource.
* Entity names are distinct, and so are pod names (`Converter.WellFormed`); a pod name stays in
  the same entity over the specs of a run (`Runs.SameHomes`).
* Over the specs of a run, decoding undoes encoding and revision names do not collide
  (`Types.Faithful`).  JSON and SHA-256 are parameters.
* Pointers that the source dereferences are non-nil; the history limit is a natural number.
* ConfigMaps and revisions are updated unconditionally (the source sends no resource version);
  the resource itself is guarded by its resource version.  Lists never answer "not found".
* The API server gives a new pod the limits as requests where a request is missing, and keeps a
  deleted pod listed until its termination finishes.

## Findings

* The gate is not sound by itself: a half-applied spec followed by a rollback leaves wrong
  children for good (`Scenarios.HalfAppliedRollback`); the exact condition is in
  `RunsConverge.ConvergesOverRuns` and `Stability.ConvergesExactlyWhen`.
* Revisions are written with label `invoker.io/invokerdeployment` but listed by
  `invoker.io/invokerDeployment`, so the history limit has no effect
  (`Pruning.NothingIsEverPruned`).  Both keys are constants of `Observer`.  Making them equal is not
  enough, because pruning uses numbers from before the synchronisation
  (`Pruning.StaleListingDecides`).
* One failed create after the status write can leave the current revision dangling for ever
  (`Scenarios.LostRevision`); this starts exactly in the passes of
  `Lookups.PassDanglesExactlyWhen`.
* Image edits are declared current without restarting a pod (`Images.OldImageRuns`); pods run what
  the current spec asks for exactly under the condition of `Images.TemplatesRunExactlyWhen`.

## Model

| member | source | states |
|---|---|---|
| `RunsConverge.ConvergesOverRuns` | internal/controller/invokerdeployment_reconciler.go:32-101 | From any point that a run with failures and edits can reach, with the spec then left alone: an undisturbed action pass, any run with failures, phase changes, terminations and evictions, a second undisturbed action pass once no pod is terminating, and any run without evictions. If at the start the current revision was not the spec's or nothing stored under a desired name was wrong, the second action pass leaves exactly the desired ConfigMaps and exactly the desired pods, all live and fitting, and the rest of the run keeps them but for pod phases; without evictions it converges only then |
| `RunsConverge.CalmRunKeepsSettled` | internal/controller/invokerdeployment_reconciler.go:48-99 | A fully applied spec stays fully applied over every run that leaves the resource alone, with any call failing and any pod evicted |
| `RunsConverge.GentleRunKeepsRest` | internal/controller/invokerdeployment_reconciler.go:48-90 | Once converged, over every run without edits, deletion and evictions, with any call failing, the ConfigMaps never change and the pods only change phase |
| `RunsConverge.GentleRunStaysWrong` | internal/controller/invokerdeployment_reconciler.go:338-348 | Behind a closed gate something wrong under a desired name stays wrong over every such run |
| `Stability.ConvergesExactlyWhen` | internal/controller/invokerdeployment_reconciler.go:32-101 | The undisturbed case without assuming which passes act: two rounds of three or more passes with nothing in between but the end of terminating pods converge if and only if at the start the gate was open or nothing stored under a desired name was wrong |
| `RunsConverge.CleanRunsConverge` | internal/controller/invokerdeployment_reconciler.go:32-101 | After any run from an empty namespace in which every pass that acted got its status write through, whatever else failed or was edited, those two action passes converge and the runs after them keep it |
| `Stability.CleanRunsConvergeUndisturbed` | internal/controller/invokerdeployment_reconciler.go:32-101 | The same for two rounds of undisturbed passes, without assuming which of them act |
| `RunsConverge.NewResourceConverges` | internal/controller/invokerdeployment_reconciler.go:32-101 | For every spec of a run there is a run from a resource just created, still without a finalizer, in an empty namespace, that ends converged |
| `Stability.ConvergedPass` | internal/controller/invokerdeployment_reconciler.go:48-90 | Once converged, every later pass, with any call failing, leaves the ConfigMaps equal and the pods unchanged but for their phase; an undisturbed one leaves the pods equal |
| `Stability.RestWritesNoPod` | internal/controller/invokerdeployment_reconciler.go:66-90 | A pass over a converged namespace issues no pod write at all, whatever fails in it |
| `Stability.ClosedGatePass` | internal/controller/invokerdeployment_reconciler.go:338-348 | An undisturbed pass that finds the current revision equal to the spec's leaves it so and mends no wrong object of a desired name: such objects are right afterwards exactly if they were before |
| `Convergence.ActionSettles` | internal/controller/invokerdeployment_reconciler.go:48-99 | The first undisturbed pass that acts applies the spec in full if and only if the gate is open or nothing stored under a desired name is wrong |
| `Convergence.SettledPass` | internal/controller/invokerdeployment_reconciler.go:48-99 | A fully applied spec stays fully applied through every pass while the resource is left alone, with any call failing and any pod evicted |
| `Convergence.SettledConverges` | internal/controller/invokerdeployment_reconciler.go:66-90 | Over a fully applied spec whose deleted pods are gone, an undisturbed pass that acts ends with exactly the desired pods |
| `Invariants.ChildrenComeFromSuspects` | internal/controller/invokerdeployment_reconciler.go:48-99 | Over every run from an empty namespace, with any call failing and any edits: each stored ConfigMap and each live pod matches the spec last applied in full or one attempted since, and the stored current revision is that of the spec last applied in full |
| `Invariants.ActingPassKeepsSound` | internal/controller/invokerdeployment_reconciler.go:48-99 | A pass that acts keeps that invariant; if its status write lands behind an open gate, the only spec left that children can come from is the one it applied |
| `Invariants.AdvanceIsTruthful` | internal/controller/invokerdeployment_reconciler.go:49-98 | The stored current revision changes only in a pass that acted, whose every ConfigMap and pod step succeeded, only to the revision of the spec that pass acted on, and then exactly that spec's ConfigMaps are stored and every live pod fits it |
| `Invariants.ClosedGateIsSound` | internal/controller/invokerdeployment_reconciler.go:338-348 | If nothing but the current spec was attempted since the last full application, then the current revision being the spec's implies that every stored ConfigMap of a desired name is the desired one and every live pod of a desired name fits its template |
| `Scenarios.HalfAppliedRollback` | internal/controller/invokerdeployment_reconciler.go:338-348 | That condition is needed: for every faithful encoding a run with one refused call applies a spec, updates the ConfigMap for another and rolls back, leaving a wrong ConfigMap behind a closed gate that no later undisturbed passes mend |
| `Suspects.OpenRoundApplies` | internal/controller/invokerdeployment_reconciler.go:48-90 | If every ConfigMap and pod step of an open-gate round succeeds, exactly the desired ConfigMaps are stored and every live pod is desired and fits, whatever the environment did meanwhile |
| `Actions.ConfigMapsSettle` | internal/controller/invokerdeployment_reconciler.go:48-64 | A round that gets through its ConfigMaps leaves exactly one closed form of desired, observed and gate, in every iteration order and under every interference |
| `Actions.PodsSettle` | internal/controller/invokerdeployment_reconciler.go:66-90 | A round that gets through its pods leaves every live pod desired; each is either the observed one further along its life or a fresh one, and fits its template if it is fresh or the gate is open |
| `Quiet.RoundRefinesPureStep` | internal/controller/invokerdeployment_reconciler.go:48-98 | An undisturbed round succeeds and its store equals a closed-form function of store, snapshot and desired state for every iteration order; with the gate closed nothing that exists under a desired name changes |
| `Runs.PassCr` | internal/controller/invokerdeployment_controller.go:218-271 | A pass never creates the resource, and changes its status only by one landed write whose old value is the status it found |
| `Edits.PassKeepsEdits` | internal/controller/invokerdeployment_controller.go:150-279 | No edit is lost: whatever fails, the spec after a pass is the one that the environment's own edits before and between the calls of the pass leave |
| `Runs.PassWrites` | internal/controller/invokerdeployment_controller.go:260-279 | Every write a pass makes to a ConfigMap, pod or revision is one that the snapshot it acted on calls for |
| `Trace.FirstFailureStops` | internal/controller/invokerdeployment_reconciler.go:48-98 | Of every pass that acts, whatever fails, its log shows reads, ConfigMaps, pods, status, revisions and pruning in this order; after a ConfigMap or pod call that failed comes no other and no status write; and the pass reaches the advance if and only if each of those calls succeeded, a delete that finds nothing included |
| `StatusMachine.RunStates` | internal/controller/invokerdeployment_updater.go:158-183 | From a known state every reachable state is empty, Creating, Running, Reconciling or Updating, no pass of any run panics, and a started resource never returns to the empty state or to Creating |
| `StatusMachine.DerivedState` | internal/controller/invokerdeployment_updater.go:158-183 | Once started, Updating is derived exactly when current and next revision differ, and is never derived before; revisions pass through unchanged |
| `StatusMachine.ActionPhaseRuns` | internal/controller/invokerdeployment_controller.go:218-231 | With the facts standing still, after at most two status-only passes, which change nothing but the status, the next pass acts |
| `StatusMachine.WritesLeftDecreases` | internal/controller/invokerdeployment_updater.go:36-68 | The decreasing measure behind that: each status write lowers the number of writes the recorded status still calls for |
| `Updater.ComponentReadyIffAllRunning` | internal/controller/invokerdeployment_updater.go:105-126 | The StatefulEntities component is Ready exactly when every listed pod has phase Running |
| `Updater.StatusUpdater.CountRunning` | internal/controller/invokerdeployment_updater.go:107-121 | The nested loops count, in any map order, the entity labels that some listed pod carries and under which every listed pod has phase Running |
| `Updater.StatusUpdater.AllReady` | internal/controller/invokerdeployment_updater.go:110-115 | The inner loop decides whether every pod of one entity has phase Running |
| `Updater.StatusUpdater.DeriveInvokerDeploymentStatus` | internal/controller/invokerdeployment_updater.go:70-189 | Fails exactly on a recorded state the code does not know; otherwise every field of the derived status follows from the snapshot as described in the next row, and equals the specified one |
| `Updater.DerivationMeaning` | internal/controller/invokerdeployment_updater.go:76-188 | Field by field from the snapshot: the state from the recorded state, the revisions and whether the spec has at most as many entities as run (Running or Creating; Updating, Running or Reconciling); each component Ready, Deleted or empty; StatefulEntities Ready exactly when every listed pod has phase Running; conditions kept or started; revisions unchanged |
| `Derivation.RecordsStateCalledFor` | internal/controller/invokerdeployment_controller.go:218-231 | An active resource left alone, whatever known state it has recorded, comes to record exactly the state that its pods and revisions call for within two status passes, and the next pass acts |
| `Updater.StatusUpdater.UpdateStatusIfChanged` | internal/controller/invokerdeployment_updater.go:36-68 | Writes the derived status exactly when recorded and derived differ in state, number of conditions, ConfigMap component or StatefulEntities component, and otherwise makes no call |
| `Derivation.ActsExactlyWhenUpToDate` | internal/controller/invokerdeployment_controller.go:218-231 | An undisturbed pass over an active resource in a known state acts if and only if those four recorded fields each equal the derived ones |
| `Derivation.ActedIsUpToDate` | internal/controller/invokerdeployment_controller.go:218-231 | Whatever fails, a pass acts only on a record that is up to date with what it saw: StatefulEntities is Ready exactly when every listed pod has phase Running, Updating is recorded only if the revisions differ, Running only if they agree and enough entities run, Creating and Reconciling only if not |
| `Updater.StatusUpdater.CreateRevisionObject` | internal/controller/invokerdeployment_updater.go:314-359 | Makes exactly the specified calls, and leaves the next revision name set on the shared resource |
| `Updater.StatusUpdater.SyncRevisionObjects` | internal/controller/invokerdeployment_updater.go:288-312 | Makes exactly the specified calls, judged by the current revision as observed before the pass |
| `History.NumberCountsAdvances` | internal/controller/invokerdeployment_updater.go:288-359 | Over every run from an empty namespace whose revision calls are answered, the number of the current revision equals how often the current revision has moved, and every stored number lies between one and one more than that |
| `History.PassNumbers` | internal/controller/invokerdeployment_updater.go:292-308 | Over one such pass the current number rises by exactly one if the current revision moves and stays otherwise; at most the entry of the spec acted on changes, so a rollback renumbers its entry and each spec has at most one revision |
| `History.RecordingGivesUp` | internal/controller/invokerdeployment_updater.go:296-343 | Nothing is written when the look for the revision goes unanswered, or when the current revision cannot be fetched or does not decode; a recorded revision carries exactly the one written label |
| `History.LookupNeverMisses` | internal/controller/invokerdeployment_updater.go:292-312 | In the same runs a non-empty current revision always names a stored revision that decodes to the spec last applied in full |
| `Lookups.LookupsHitExactlyWhen` | internal/controller/invokerdeployment_updater.go:292-312 | Over every run from an empty namespace, with any call failing and any edits, the lookup of the current revision finds the spec last applied in full at every point if and only if no pass of the run lost its revision |
| `Lookups.PassDanglesExactlyWhen` | internal/controller/invokerdeployment_controller.go:267-275 | The current revision starts to name nothing stored exactly in a pass whose advance lands, whose spec had no stored revision, and in which no create of a revision took effect |
| `Lookups.StoredSpecIsSafe` | internal/controller/invokerdeployment_updater.go:339-353 | Checkable beforehand: a pass that acts on a spec whose revision is already stored does not start it, whatever fails |
| `Lookups.RunDanglesExactlyWhen` | internal/controller/invokerdeployment_controller.go:267-275 | Over every run the current revision dangles at some point if and only if some pass of the run loses its revision |
| `Lookups.RecordedSpecsNeverDangle` | internal/controller/invokerdeployment_updater.go:339-353 | Over every run whose specs all have their revisions stored at its start, it never dangles, whatever fails |
| `History.DanglingPass` | internal/controller/invokerdeployment_controller.go:267-275 | While the current revision names nothing stored, no pass records or deletes a revision |
| `History.DanglingPersists` | internal/controller/invokerdeployment_updater.go:296-300 | It then stays that way, and the history frozen, over every run none of whose specs has its revision stored |
| `History.HealsWhenStored` | internal/controller/invokerdeployment_updater.go:296-312 | It ends with a pass whose advance lands exactly if the revision of the spec acted on is already stored |
| `Scenarios.LostRevision` | internal/controller/invokerdeployment_controller.go:267-275 | For every faithful encoding a run with one refused create gets there, and no later run over the two specs of the scenario records a revision again |
| `History.NothingListed` | internal/controller/invokerdeployment_observer.go:210-216 | Revisions that the operator records are never listed: the label key listed by differs from the one written |
| `Pruning.NothingIsEverPruned` | internal/controller/invokerdeployment_reconciler.go:503-525 | Hence over every run, whatever fails, no stored revision is ever deleted and the history limit is not enforced |
| `Pruning.PruningKeepsNewest` | internal/controller/invokerdeployment_reconciler.go:503-525 | For any listing and any order a sort by number can leave, ties included: what is deleted is a prefix of the oldest, no survivor has a smaller number than anything deleted, and exactly min(listed, limit) survive if no call fails |
| `Pruning.PruneTakesPrefix` | internal/controller/invokerdeployment_reconciler.go:518-522 | An error midway has deleted exactly a prefix of the excess |
| `Pruning.QuietPruneExactly` | internal/controller/invokerdeployment_reconciler.go:518-522 | Undisturbed, pruning deletes exactly up to the first revision that is already gone, and reports an error exactly if there is one |
| `Pruning.SurvivesByNumber` | internal/controller/invokerdeployment_reconciler.go:512-522 | A revision with fewer than limit others at least as new survives every order and failure; one with limit or more strictly newer is deleted when all calls succeed |
| `Pruning.CurrentSurvives` | internal/controller/invokerdeployment_reconciler.go:512-522 | The current revision survives when it is listed with the strictly highest number and the limit is at least one |
| `Pruning.StaleListingDecides` | internal/controller/invokerdeployment_controller.go:271-276 | Counterfactual, for a listing that did see every revision: pruning uses numbers from before the synchronisation, so a whole action phase that rolls back, with no call failing, deletes the entry just made current if the listing holds limit or more strictly newer ones, and keeps it if it holds fewer than limit others at least as new |
| `Protocol.WritesOnlyWhenActive` | internal/controller/invokerdeployment_controller.go:150-210 | Every ConfigMap, pod, revision or status write in the audit log of a pass belongs to a pass whose first read showed the finalizer present and no deletion mark |
| `Deletion.QuietFinalizing` | internal/controller/invokerdeployment_controller.go:150-210 | An undisturbed pass over a resource without the finalizer or being deleted changes its finalizers and nothing else; adding one to a resource being deleted is refused |
| `Deletion.DeletionCompletes` | internal/controller/invokerdeployment_controller.go:163-209 | A resource being deleted is gone after one undisturbed pass if and only if the operator's finalizer is its only one; the children are left alone |
| `Deletion.GoneForGood` | internal/controller/invokerdeployment_reconciler.go:36-39 | After that, over every run, the resource stays gone and each pass makes one call, a read |
| `Controller.Handler.ReconcilePass` | internal/controller/invokerdeployment_controller.go:123-285 | The whole imperative pass equals the pure pass, for iteration and sort orders that Go could have chosen |
| `Controller.Handler.Handle` | internal/controller/invokerdeployment_controller.go:150-285 | The pass from the finalizer check on equals its specification |
| `Controller.Handler.TakeActions` | internal/controller/invokerdeployment_controller.go:233-284 | The action phase equals its specification; revisions are synchronised whether or not the round succeeded |
| `Controller.Handler.WriteFinalizers` | internal/controller/invokerdeployment_controller.go:151-206 | Adds the finalizer if it is missing, removes it otherwise, and makes the one write |
| `Reconciler.ResourceReconciler.ReconcileAll` | internal/controller/invokerdeployment_reconciler.go:32-101 | The round over the nested index equals the specified round; the status is advanced on a copy, so the shared resource keeps the revision observed |
| `Reconciler.ResourceReconciler.ReconcileOneConfigMap` | internal/controller/invokerdeployment_reconciler.go:333-355 | The four-way decision for one ConfigMap, with the gate |
| `Reconciler.ResourceReconciler.ReconcileOnePod` | internal/controller/invokerdeployment_reconciler.go:527-556 | The four-way decision for one pod, with the gate and the restart test |
| `Reconciler.ResourceReconciler.DropUndesired` | internal/controller/invokerdeployment_reconciler.go:80-90 | The nested deletion loop walks exactly the listed pods and deletes those whose name is not desired |
| `Reconciler.ResourceReconciler.Cleanup` | internal/controller/invokerdeployment_reconciler.go:503-525 | Sorts the listed revisions in place into an ascending permutation and deletes the excess prefix, stopping at the first error |
| `Reconciler.SortByNumber` | internal/controller/invokerdeployment_reconciler.go:512-514 | The slice becomes an ascending permutation of itself |
| `Reconciler.PermutationEnumerates` | internal/controller/invokerdeployment_reconciler.go:512-514 | Such a permutation still lists every revision exactly once |
| `Observer.StateObserver.Observe` | internal/controller/invokerdeployment_observer.go:44-208 | Filling the observed state shows exactly the specified snapshot, with the next revision recomputed from the spec |
| `Observer.StateObserver.IndexPods` | internal/controller/invokerdeployment_observer.go:173-180 | Building the nested map entry by entry gives the index of the listed pods by entity and name |
| `Observer.IndexAgreesWithSearch` | internal/controller/invokerdeployment_reconciler.go:68-73 | A lookup by entity and then name finds what a linear search of the listed pods finds |
| `Observer.IndexHoldsEveryPodOnce` | internal/controller/invokerdeployment_observer.go:173-180 | The sizes of the inner maps add up to the length of the list |
| `Observer.InnerMaps` | internal/controller/invokerdeployment_observer.go:176-179 | An entity is indexed exactly when some listed pod belongs to it: no inner map is empty |
| `Observer.IndexByLabel` | internal/controller/invokerdeployment_observer.go:173-180 | The index holds under an entity exactly the listed pods whose statefulEntityName label is that entity, the empty name standing for a missing label |
| `Quiet.QuietObserve` | internal/controller/invokerdeployment_observer.go:44-208 | An undisturbed observation sees the store as it is |
| `Quiet.SnapshotMeaning` | internal/controller/invokerdeployment_observer.go:201-229 | Spelled out: the ConfigMaps and pods with the type label, the revisions under the listing label, the secret, and the resource with the name of its spec's revision filled in |
| `Trace.ObservationFailsExactlyWhen` | internal/controller/invokerdeployment_observer.go:44-200 | An observation fails if and only if one of its calls goes unanswered; finding no resource or no secret is not a failure |
| `Protocol.ObserveFacts` | internal/controller/invokerdeployment_observer.go:44-208 | Under interference an observation only reads, and each part of its snapshot was true at the time of its own read |
| `Restart.NeedToRestartPod` | internal/controller/invokerdeployment_reconciler.go:558-574 | Answers no restart exactly when both pods have the same container names and, for the last container of each name, equal limits and equal requests, absent requests read as the limits |
| `Restart.RestartTestMeaning` | internal/controller/invokerdeployment_reconciler.go:558-574 | The specified test has that meaning for all pods |
| `Images.RestartsExactlyWhen` | internal/controller/invokerdeployment_reconciler.go:537-549 | After an undisturbed pass that acts, a stored pod of a desired name is terminating exactly if it was before or the gate was open and its needs differ from its template's; behind an open gate every live pod of a desired name has its template's needs, or is fresh and was stored from exactly its template |
| `Images.AppliedMeaning` | internal/controller/invokerdeployment_reconciler.go:48-98 | What every landed advance leaves, under any interference: each live pod is desired, with its template's labels and volume, and with its needs or its stored form |
| `Restart.FreshPodNeedsNoRestart` | internal/controller/invokerdeployment_reconciler.go:558-574 | A pod stored from its own template, with requests defaulted from limits, needs no restart if and only if each container's requests are absent or cover its limits |
| `Restart.RestartTestUpToAdmission` | internal/controller/invokerdeployment_reconciler.go:558-574 | Needing no restart is an equivalence, and a template may be exchanged for what the server stored of it on either side |
| `Restart.FitsWhenCovered` | internal/controller/invokerdeployment_reconciler.go:537-549 | With such requests, fitting a template is passing the restart test with the template's labels and volume |
| `Images.TemplatesRunExactlyWhen` | internal/controller/invokerdeployment_reconciler.go:538-549 | After any undisturbed pass that acts, every live pod of a desired name was stored from exactly its template, images included, if and only if before it this held of each such pod that is not restarted, because the gate is closed or its resources agree |
| `Images.ImageEditRestartsNothing` | internal/controller/invokerdeployment_reconciler.go:538-549 | An edit of images alone becomes the current revision in a converged namespace while every pod stays exactly as it was |
| `Images.OldImagesRun` | internal/controller/invokerdeployment_reconciler.go:538-549 | For all specs that differ in images at most there is a run without failures from an empty namespace after which the edited spec is current and exactly its pods are live, each still stored from the template of the spec before |
| `Images.OldImageRuns` | internal/controller/invokerdeployment_reconciler.go:538-549 | One such run in full: the current spec asks for executor:2 and its one live pod runs executor:1 |
| `Converter.GetDesiredConfigMaps` | internal/controller/invokerdeployment_converter.go:39-73 | The loops build the desired ConfigMaps of the spec |
| `Converter.DesiredConfigMapsMeaning` | internal/controller/invokerdeployment_converter.go:46-71 | Entry by entry for a well-formed spec: name, labels, exactly the keys main and one per pod, the text of main line by line, and each pod's partitions joined by commas |
| `Converter.GetDesiredStatefulEntities` | internal/controller/invokerdeployment_converter.go:270-368 | The loops build one pod per configured pod, in order; each has its configured name, its entity's labels and config volume, and exactly three containers: executor-pod with the executor image and io-sidecar with the io image, both with the configured resources, and state-sidecar with the state image and none |
| `Converter.DesiredPodsMeaning` | internal/controller/invokerdeployment_converter.go:274-364 | The same of the specified list, and no entry is anything else |
| `Templates.ImageEdits` | internal/controller/invokerdeployment_converter.go:286-340 | Editing one image of one entity changes in the desired pods exactly the image of the container it is for, in exactly that entity's pods |
| `Templates.ResourceEdit` | internal/controller/invokerdeployment_converter.go:301-317 | Editing the resources of one configured pod changes exactly the resources of that pod's executor and io sidecar |
| `Converter.DesiredNamesDistinct` | internal/controller/invokerdeployment_converter.go:46-71 | For a well-formed spec the desired ConfigMap names and pod names are distinct, and the pods number the sum over the entities |
| `Converter.DesiredPodIsServed` | internal/controller/invokerdeployment_converter.go:274-364 | Every configured pod is desired, its config volume names a desired ConfigMap, and that holds exactly the pod's own partitions under its key and the entity's settings under main |
| `Converter.MainTextReadBack` | internal/controller/invokerdeployment_converter.go:48-54 | Broker and topics are recovered from the main text if and only if none of them contains a line break |
| `Converter.PartitionsReadBack` | internal/controller/invokerdeployment_converter.go:55-59 | A partitions value splits into the splits of its entries, and into the entries themselves if and only if none contains a comma |

## Left out

- The returned result, requeue timing, logging, events and metrics: the environment schedules passes.
- LastUpdateTime of the status: it is not among the compared fields.
- API client transport, caches and watches, manager start-up, RBAC: every read is a read of the store.
- Deployment, StatefulSet, Service, Ingress and Secret reconcile code, and `updateCondition`: the live pass does not call them.
- Content of the secret, image pull policy on containers, environment variables, volumes other than the config volume, owner references and garbage collection of children: nothing the protocol decides depends on them.
- Quantities inside resource requirements: opaque strings, compared for equality.
- Generated deep copies: used only through the contract that a copy is equal and separate.
- `sort.Slice` itself: `Reconciler.SortByNumber` stands for it, and its callers use only that the result is a sorted permutation, so ties may fall in any order.
- A spec stored as JSON `null`, which would make the source dereference nil: excluded by the assumption on encoding.
- `autoscaler/`: stubs without behaviour.
- Several InvokerDeployments in one namespace: outside the assumptions.
