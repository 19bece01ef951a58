# Kubeshark operator: a verified model

A Dafny 4.11 model of the operator that reconciles `Kubeshark` custom resources, and proofs of what it keeps. It
covers the reconciler with its finalizer protocol and status patch (`internal/controller`), the JSON form and the
deep copy of the resource (`api/v1beta1`), and the `UncommentCode` helper (`test/utils`).
`dafny verify dfyconfig.toml` checks the whole project.

## How it is built

* `Api`, `Objects`, `Names`, `Components`: the resource, the stored objects, the name functions, and the mutate
  callbacks of the twelve children as functions. `Laws` proves what each callback owns and preserves, and how two
  writes to one key combine; `KeyedWrites` is the theory of ordered writes with absorption that the rest uses.
* `Operator`: the transition system. A state holds the store, every reconcile in flight with the copies it holds,
  and a log of what happened. An event is one API call of one reconcile (served, refused, or applied with the
  answer lost), a start or crash of a reconcile, or something outside: a resource created, edited, deleted, its
  finalizers changed, a child drifting, the garbage collector.
* `Runs`, `Numbering`, `Cleanup`, `Readiness`, `Generations`, `References`, `Bindings`, `Ownership`: invariants of
  every run from the empty cluster, with any number of resources and any interleaving, and the safety theorems they
  give. Each theorem names its assumptions on what happens outside as a predicate on events: `FinalizerKept` (nobody
  else strips the finalizer), `ManagedInPlace` (nobody else creates or deletes a managed cluster-scoped object),
  `ManagedUntouched` (nobody else touches one at all; needed for bindings only), `GentleDrift` (nobody else deletes
  children or changes their controller or references), `HonestDrift` (other writers pass the server's validation and
  claim nothing for a Kubeshark), `NotRecreated` (no resource is created anew under a name whose reconcile holds a
  copy).
* `Passes`, `Convergence`, `Interleaving`, `Reissues`: whole reconciles under a script of interference and outcomes,
  and without: crash and retry, fixed points, independence call by call, history.
* `Conditions`, `Json`, `Encoding`: the status conditions, merge patches, `omitempty` and `omitzero`.
* `Answers`: what a reconcile returns under any script, call by call. `History`: the log of a run is true and
  complete.
* `Callbacks`, `Reconciler`, `EndToEnd`: the same reconciler as imperative code over objects in memory and an API
  client, with loops and early returns, proved to do what the transition system does for every script.
* `DeepCopy`: the generated copy functions on a heap where maps, slices and number cells are objects.
* `Uncomment`: search, scanner loop and splice, and the exact condition under which they undo commenting.

Library behaviour enters as small contracts: `CreateOrUpdate` and `SetControllerReference` of controller-runtime
(the same kind and name count as the same controller, whatever the uid), `SetStatusCondition`, the merge patch of
section 2 of RFC 7386, the line scanner of `bufio` with its 64 KiB buffer, and an API server that types and defaults
what it stores, folds `stringData` into `data`, refuses changes to selectors, secret types and role references,
and counts generations.

Where documentation and code disagree the code is followed: `api/v1beta1/kubeshark_types.go:79` says the observed
generation is that of the last success, but `internal/controller/status.go:27` stamps it on failures too, so
success is stated through the Ready condition.

Statements that are false of the code are given with their exact condition: what cleanup leaves is what no deletion
pass got as far as removing (`Cleanup.LeftBehindExactly`, `Convergence.RenamedRoleIsLeftBehind`), default cluster
names are injective only where `Names.DefaultClusterNamesCollide` says so, a resource comes to rest exactly if
`Convergence.RestsExactly` says so, the observed generation is bounded, never goes back and is reported as intended
exactly as `Generations.BoundExactly`, `Generations.NeverBackExactly` and `Generations.IntendedExactly` say (a failing
run is in `Generations.RecreationBreaksTheBound`), a write-back preserves the children except in one case
(`Encoding.WriteBackKeepsChildren`), and uncommenting is an inverse exactly under `Uncomment.Undone`.

## Model

| member | source | states |
|---|---|---|
| Api.FinalizerRoundTrip | internal/controller/finalizer.go:31 | the finalizer is added behind the others, giving it up restores the resource as it was before, and it is taken out wherever it stands with the others in their order |
| Objects.AdmitIdempotent | internal/controller/secret.go:21-30 | storing a stored object again changes nothing: defaults stay, `stringData` folds into `data` once |
| Names.LabelsNameTheInstance | internal/controller/helpers.go:30-36 | the common labels of two resources are equal exactly if their names are |
| Names.DefaultClusterNamesCollide | internal/controller/helpers.go:78-84 | two resources share a default cluster name exactly if they are equal or one namespace extends the other by a dash and the overlap moves into the name |
| Names.DefaultClusterNamesInjective | internal/controller/helpers.go:78-84 | default cluster names are injective within one namespace and over namespaces without a dash |
| Names.DefaultClusterNameCollision | internal/controller/helpers.go:78-84 | without that condition two different resources do share a default cluster name |
| Components.MutateIsShape | internal/controller/hub.go:81-93 | a mutate callback fails exactly on an object of another controller; otherwise the object gets the controller, the labels and the fields of its kind |
| Laws.PutConforms | internal/controller/hub.go:77-165 | put-get, for all twelve children: after a successful step every field the operator owns has the value of the spec's own field or the default, both written out: labels, controller, config data, replicas, images, ports, service accounts, role rules, role reference and subjects, ingress rule and class, the four secret keys |
| Laws.PutPreserves | internal/controller/secret.go:17-31 | every other field of the stored object survives the step: cluster IP, annotations, service account extras, secret keys beyond the four, an ingress class the spec leaves empty |
| Laws.PutCreatesBare | internal/controller/hub.go:77-94 | a created child holds nothing besides: no annotations, no further secret keys, the server's defaults elsewhere |
| Laws.KeysOfPass | internal/controller/helpers.go:38-84 | a pass visits every child once, in its place, under the name of the spec's own field where that is given and else the default written out; the frontend Deployment, the frontend Service and the Secret ignore the spec |
| Laws.BlockedExactly | internal/controller/rbac.go:82-94 | a step cannot succeed exactly where another controller owns the object or the immutable selector, secret type or role reference differs from the one wanted; a ClusterRole step always can |
| Laws.PutAbsorbs | internal/controller/hub.go:96-165 | a later step on the same key overwrites all that an earlier one wrote there, so one step done twice is one step |
| Laws.BlockedAgrees | internal/controller/rbac.go:78-99 | whether a step can succeed depends on the stored object of its key only, not on which step asks |
| Laws.PutUnblocks | internal/controller/rbac.go:78-99 | after a step on a key no step of the same pass is blocked there, by owner or immutable field |
| Laws.SharedKeysFight | internal/controller/frontend.go:27-92 | a hub and a frontend step on one Deployment or Service key never leave each other's object in place |
| Laws.SharedKeysAgree | internal/controller/rbac.go:45-57 | with distinct Deployment and Service names, steps that still share a key (service accounts) write the same object |
| Laws.DefaultNamesAreDisjoint | internal/controller/helpers.go:38-84 | two resources that use only default names have disjoint key sets over every kind, in one namespace or across dash-free ones |
| KeyedWrites.PrefixAbsorbs | internal/controller/kubeshark_controller.go:82-89 | running the first steps again loses an interrupted earlier run of them without trace |
| KeyedWrites.ResultAfterCut | internal/controller/kubeshark_controller.go:82-89 | a pass cut after any number of steps leaves nothing that a full pass does not redo, and blocks where the full pass would |
| KeyedWrites.ResultSettles | internal/controller/kubeshark_controller.go:82-89 | after a pass whose shared keys agree every step finds its object as desired |
| KeyedWrites.DisjointResultsCommute | internal/controller/kubeshark_controller.go:82-89 | passes over disjoint keys give the same store in either order |
| KeyedWrites.PrefixesCommute | internal/controller/kubeshark_controller.go:82-89 | any number of steps of one pass and of another over disjoint keys give the same store in either order |
| Conditions.SetStatusConditionUpserts | internal/controller/status.go:20-26 | an absent kind is appended as it is; the first of a present kind is replaced in place, with the old transition time if its status stays and the new one if it changes; nothing else moves and kinds stay unique |
| Conditions.SetStatusConditionIdempotent | internal/controller/status.go:20-26 | reporting the same verdict later changes nothing, the transition time included |
| Conditions.ReportSays | internal/controller/status.go:16-27 | for every verdict the reported status has the copy's generation and a Ready condition with the status, reason, message and transition time written out, every other condition as it was |
| Conditions.ReportShowsVerdict | internal/controller/status.go:16-27 | the reported status is Ready at a generation exactly for a successful pass of that generation, and Ready stays unique |
| Passes.OneCallRanksDown | internal/controller/kubeshark_controller.go:47-95 | every API call, whatever its outcome and whatever happened before it, brings a reconcile nearer to its end |
| Passes.PlanIsLawful | internal/controller/kubeshark_controller.go:76-89 | the twelve steps of a pass satisfy the laws of keyed writes: absorption, agreement on blocking, no blocking of one's own objects |
| Passes.FetchEffect | internal/controller/hub.go:81-93 | the read half of CreateOrUpdate: stops at a foreign owner, else skips the write exactly if the object is stored and the callback leaves it as it is, in which case it is as desired, else goes on to write |
| Passes.WriteEffect | internal/controller/rbac.go:82-94 | the write half: refused without effect where an immutable field would change, else stores the child's object |
| Convergence.FullPassEffect | internal/controller/kubeshark_controller.go:71-94 | a fault-free reconcile stores every child up to the first blocked one and reports exactly how far it got, nothing else changes |
| Convergence.FirstInstallSucceeds | internal/controller/kubeshark_controller.go:82-94 | in any store that holds none of the twelve keys no step is blocked, for any spec, so a fault-free first pass ends reconciled |
| Convergence.FinalizerPassEffect | internal/controller/kubeshark_controller.go:63-69 | a reconcile that finds no finalizer appends it, writing the resource back with `omitempty`, and changes nothing else |
| Convergence.AttemptWritesAPrefix | internal/controller/kubeshark_controller.go:82-89 | a reconcile that fails or dies at any call has done an unblocked prefix of its steps in order and nothing of a later step |
| Convergence.CrashRetry | internal/controller/kubeshark_controller.go:82-94 | any number of reconciles cut at any call, followed by a fault-free one, leave the children that the fault-free one alone leaves |
| Convergence.UnchangedIffAtRest | internal/controller/kubeshark_controller.go:63-94 | a fault-free reconcile leaves the store and its revision as found exactly if finalizer, children and status are already as it would leave them |
| Convergence.FullPassRests | internal/controller/kubeshark_controller.go:71-94 | one fault-free pass, blocked or not, brings a resource to rest if the pass reaches no two such steps |
| Convergence.Converges | internal/controller/kubeshark_controller.go:63-94 | then the self-triggered loop stays free of such steps and strictly decreases its measure until a pass leaves the store unchanged, which is exactly when the measure is zero |
| Convergence.FightsNeverRest | internal/controller/hub.go:110-165 | a resource whose pass over the stored objects reaches both of two such steps is not at rest |
| Convergence.RestsExactly | internal/controller/frontend.go:27-92 | after a fault-free pass, blocked or not, the resource is at rest exactly if that pass did not reach both steps of a hub and a frontend child that share a Deployment or Service name |
| Convergence.FullPassFrame | internal/controller/helpers.go:38-84 | a pass of one resource leaves the children and the resource of another with disjoint keys unchanged |
| Convergence.PassesCommute | internal/controller/helpers.go:38-84 | fault-free passes of two resources with disjoint keys commute, children and statuses included |
| Interleaving.InterleavingsAgree | internal/controller/kubeshark_controller.go:82-94 | two fault-free reconciles over disjoint keys may be interleaved call by call in any way: children, resources and statuses are those of running one after the other, in either order |
| Convergence.StickyIngressClass | internal/controller/frontend.go:99-106 | over any history of specs reconciled with success the stored ingress class is the last non-empty one asked for, or what was there before |
| Convergence.DeletionPassEffect | internal/controller/finalizer.go:16-33 | a fault-free deletion pass removes the ClusterRole and the ClusterRoleBinding under the names of their own spec fields or the default, releases the resource and changes nothing else |
| Convergence.RenamedRoleIsLeftBehind | internal/controller/finalizer.go:21-29 | after a successful pass, a change of the role name and a deletion, the resource is gone and its first ClusterRole is not |
| Runs.RunsAreSound | internal/controller/kubeshark_controller.go:47-95 | in every run, with faults, edits, crashes and other resources interleaved, a copy in flight agrees with the stored resource as far as its phase relies on it |
| Numbering.RunsAreNumbered | internal/controller/kubeshark_controller.go:47-95 | in every run two steps done under one pass number were done by one reconcile, from one copy of one resource |
| History.LogIsTrue | internal/controller/kubeshark_controller.go:47-95 | in every run each entry of the log was true at the step that made it (a step is noted done with the object then stored, a removal when the object is gone), and no reconcile changes or removes an object without an entry |
| Answers.ReconcileReturns | internal/controller/kubeshark_controller.go:47-95 | for every script of interference and faults a reconcile returns no error exactly if no call failed, which is exactly if its last call was answered and found the resource absent or released, gave it its finalizer, took it, or reported success; else it returns the error of its first failed call as its caller wraps it: nothing follows a failed read, finalizer update or success report, and one last call reports the very error of a failed step or deletion, its own failure ignored |
| Cleanup.LeftBehindExactly | internal/controller/finalizer.go:16-33 | once a resource is gone, a cluster object it managed, whose name no other resource and no later incarnation computed, is still stored exactly if none of its deletion passes got as far as removing it; the names read by the releasing pass are gone; if all its deletion reads agree on the names, exactly the objects under other names are left |
| Cleanup.NothingLeftBehind | internal/controller/finalizer.go:16-33 | if the cluster names of an incarnation never changed, no cluster object it managed outlives it, provided no other resource and no later incarnation computed the name |
| Readiness.ReadyIsSound | internal/controller/status.go:16-29 | if the stored Ready condition is True at a generation, one single pass did all twelve steps on the spec of that generation, each leaving its child as the spec wants it, and that pass did no step for another resource or generation, even with edits in between |
| Generations.ReportExactly | internal/controller/status.go:14-29 | the same three equivalences for one report that takes effect: bound kept, not gone back, status as intended |
| Generations.BoundExactly | internal/controller/status.go:27-29 | in every run the observed generation stays within the generation at every point if and only if no report takes effect on another incarnation of a lower generation than the copy's, with a copy whose generation was not yet observed |
| Generations.NeverBackExactly | internal/controller/status.go:27-29 | in every run the observed generation of an incarnation never goes back if and only if no report takes effect on the incarnation it was read from with a copy whose observed generation was ahead |
| Generations.IntendedExactly | internal/controller/status.go:14-29 | in every run a report that takes effect stores exactly the intended status if and only if it does not land on another incarnation with a patch that leaves out the conditions or the generation because the copy already had them |
| Generations.BoundedNeverBack | internal/controller/status.go:27-29 | a run that keeps the observed generation within the generation never lets it go back |
| Generations.ObservedGenerationIsSound | internal/controller/status.go:27-29 | in particular: if no resource is created anew under a name whose reconcile holds a copy, the observed generation never exceeds the generation and never goes back, and every report that takes effect stores exactly the intended status |
| Generations.RecreationBreaksTheBound | internal/controller/status.go:29 | the failing case is real for every key and spec: the late report of a finished deletion lands on the new resource, and the bound fails |
| References.WrittenKeepsOwner | internal/controller/hub.go:81-84 | a child's step never takes a controlled object from another resource |
| Bindings.ReferencesResolve | internal/controller/kubeshark_controller.go:72-89 | at every boundary between API calls of any run, what a stored child of an existing resource names is stored and controlled by that resource, and a managed binding names a stored role and both service accounts |
| Bindings.RoleRefChangesOnlyWithTheName | internal/controller/rbac.go:82-94 | a pass can be refused on its binding's `roleRef` only if the role name changed while the binding name stayed in use |
| Ownership.OwnershipIsExclusive | internal/controller/hub.go:81-84 | in every run a reconcile changes a namespaced object only in its own namespace and only if nobody else controls it, and a child of an existing resource keeps its controller through every operator and collector step |
| Ownership.FinalizerGuardsChildren | internal/controller/kubeshark_controller.go:55-69 | in every run a child is written only from a copy with the finalizer, of a resource never read as deleted; objects are removed only after a deletion read; the finalizer goes only in a pass that removed both cluster objects |
| Ownership.SelectorsAreSafe | internal/controller/helpers.go:30-36 | in every run no pass asks to change the selector of a Deployment or DaemonSet controlled under its resource's name |
| Reissues.ReissuedIffUnequal | internal/controller/secret.go:17-31 | of the settled children exactly six differ from what their callback makes of them: the workloads, the Services and the Secret |
| Reissues.ReissuedWritesAreSilent | internal/controller/kubeshark_controller.go:82-89 | at rest exactly those six are written again on each pass, and each such write leaves the store and its revision as they were |
| Json.DiffTouches | internal/controller/status.go:29 | a computed merge patch mentions a member exactly if the two documents differ there |
| Json.PatchAt | internal/controller/status.go:29 | the rule of section 2 of RFC 7386, member by member: untouched, removed by null, or patched where it stands |
| Json.DiffThenPatch | internal/controller/status.go:29 | applying the computed patch by the rules of section 2 of RFC 7386 reaches the intended document, if that holds no null |
| Encoding.SpecRoundTrip | api/v1beta1/kubeshark_types.go:26-62 | encoding and decoding a spec turns an empty map or slice into none and keeps everything else; replicas 0 survive |
| Encoding.EveryFieldByItsTag | api/v1beta1/kubeshark_types.go:26-101 | every field of the spec and the status stands in the JSON form under its own tag with its own value, or is left out where it is empty; the resource has no member besides metadata, spec and status |
| Encoding.WriteBackKeepsChildren | api/v1beta1/kubeshark_types.go:26-62 | a write-back keeps the key, result and blocking of every child exactly if the hub config data is not empty-but-present |
| Encoding.ResourcesArePatchable | api/v1beta1/kubeshark_types.go:90-101 | the JSON form of a resource holds no null, so a computed patch turns any resource into any other |
| Encoding.StatusPatchIsExact | internal/controller/status.go:14-29 | the patch between the copy and the mutated resource mentions only the status, whatever else was changed in memory before, and merges member by member into the stored status, however that has moved on |
| Callbacks.Apply | internal/controller/hub.go:81-93 | each callback, run field by field on the object in memory, does what `Mutate` says: controller first, no change to rely on after an error |
| Callbacks.SetOwner | internal/controller/rbac.go:50-52 | sets the controller reference or refuses, leaving the object as it was |
| Callbacks.ShapeConfigMap | internal/controller/hub.go:85-91 | takes the spec's data if present, even if empty, else the defaults; binary data stays |
| Callbacks.ShapeHubDeployment | internal/controller/hub.go:118-140 | replicas, selector and pod template of the hub; the strategy stays |
| Callbacks.ShapeFrontendDeployment | internal/controller/frontend.go:35-65 | one replica, selector and pod template of the frontend; the strategy stays |
| Callbacks.ShapeHubService | internal/controller/hub.go:156-162 | selector and the one port; type and cluster IP stay |
| Callbacks.ShapeFrontendService | internal/controller/frontend.go:81-89 | type, selector and the named port; cluster IP stays |
| Callbacks.ShapeRole | internal/controller/rbac.go:63-71 | the spec's rules unless there are none, else the defaults |
| Callbacks.ShapeBinding | internal/controller/rbac.go:82-94 | role reference and both subjects |
| Callbacks.ShapeDaemonSet | internal/controller/worker.go:23-25 | replaces the whole DaemonSet spec |
| Callbacks.ShapeIngress | internal/controller/frontend.go:103-124 | sets the class only if the spec names one, then the rule |
| Callbacks.ShapeSecret | internal/controller/secret.go:21-30 | sets the type and four write-only keys one by one, keeping the rest of the map |
| Reconciler.CreateOrUpdate | internal/controller/hub.go:77-94 | get, mutate, create or update only if something changed, with early return: the same next phase, store and error as the two calls of the transition system |
| Reconciler.ReconcileHub | internal/controller/hub.go:15-26 | four children in order, stopping at the first error, the Deployment's error wrapped |
| Reconciler.ReconcileRbac | internal/controller/rbac.go:14-22 | worker service account, role and binding in order, the errors of the last two wrapped |
| Reconciler.ReconcileWorker | internal/controller/worker.go:15-28 | the DaemonSet step |
| Reconciler.ReconcileFrontend | internal/controller/frontend.go:17-25 | Deployment, Service and Ingress in order, the Deployment's error wrapped |
| Reconciler.ReconcileSecret | internal/controller/secret.go:12-33 | the Secret step, the last of a pass |
| Reconciler.SetReadyCondition | internal/controller/status.go:13-33 | copies, upserts the condition in place, stamps the generation and patches the difference, ending the reconcile where the transition system ends it; the patch error is wrapped |
| Reconciler.RunSteps | internal/controller/kubeshark_controller.go:71-94 | the loop over the five components, stopping and reporting at the first error, else reporting success |
| Reconciler.ReconcileDelete | internal/controller/finalizer.go:16-33 | the loop over both cluster objects that tolerates absence, then the finalizer and the update; without the finalizer nothing happens |
| Reconciler.Reconcile | internal/controller/kubeshark_controller.go:47-95 | one whole reconcile, with any events between its calls and any outcome of each, leaves the cluster as the transition system says and returns none exactly if no call failed, else the wrapped error of the first that did, as in `Answers.ReconcileReturns` |
| EndToEnd.FaultFreeAnswer | internal/controller/kubeshark_controller.go:82-94 | a fault-free reconcile returns no error exactly if it reports the resource reconciled, else the error of the blocked step |
| EndToEnd.ReconcileUndisturbed | internal/controller/kubeshark_controller.go:47-95 | the imperative reconciler, left alone, stores every child up to the first blocked one, reports that and returns its error |
| DeepCopy.CopyCell | api/v1beta1/zz_generated.deepcopy.go:92-96 | a new cell with the same number, nil for nil |
| DeepCopy.CopyMap | api/v1beta1/zz_generated.deepcopy.go:97-103 | a new map with the same entries, in whatever order they are visited, nil for nil |
| DeepCopy.CopyItems | api/v1beta1/zz_generated.deepcopy.go:118-122 | a new slice with the same items, nil for nil |
| DeepCopy.CopyRules | api/v1beta1/zz_generated.deepcopy.go:104-110 | a new slice of rules whose inner slices are new too, and the same to a reader |
| DeepCopy.CopySpecInto | api/v1beta1/zz_generated.deepcopy.go:90-131 | the copied spec shows what the original showed, shares no mutable cell with it, and the original still shows it |
| DeepCopy.CopyStatusInto | api/v1beta1/zz_generated.deepcopy.go:144-153 | the same for the status, and no spec shows anything else afterwards |
| DeepCopy.CrRecord.DeepCopy | api/v1beta1/zz_generated.deepcopy.go:39-47 | the whole copy: equal to the original, every cell fresh, the original unchanged |
| DeepCopy.CrFrame | api/v1beta1/zz_generated.deepcopy.go:31-47 | what a resource shows depends on its own structs and cells only, so writes through a copy that shares none leave it alone |
| DeepCopy.SetCondition | internal/controller/status.go:20-26 | the condition upsert in the slice itself, or in a longer slice where the kind is absent |
| DeepCopy.ReportInPlace | internal/controller/status.go:14-27 | after the update in place the earlier deep copy still shows the old resource, and the two differ exactly in the reported status |
| Uncomment.IndexFrom | test/utils/utils.go:187-190 | the result is the first occurrence, and negative exactly if there is none |
| Uncomment.Index | test/utils/utils.go:187 | the search loop finds that first occurrence |
| Uncomment.Scanner.Scan | test/utils/utils.go:198-210 | one scanner step yields the next line without its newline and one trailing carriage return, and stops for good at the end or at a line that does not fit |
| Uncomment.TokensOfLines | test/utils/utils.go:198-213 | of one-line texts joined by newlines the scanner yields those before the first that does not fit its buffer, less an empty last one |
| Uncomment.AcrossExactly | test/utils/utils.go:198-213 | for a prefix with a newline, the tokens of the commented text are the bare lines exactly if that text, split at newlines, begins with them and goes on with nothing the scanner yields |
| Uncomment.UncommentCode | test/utils/utils.go:178-226 | for any content, target and prefix: an error exactly if the target does not occur, nothing if the scanner yields none of its lines, else the content with the first occurrence replaced by the scanned lines, each less a trailing carriage return and less the prefix if it starts with it, joined by newlines |
| Uncomment.JoinSnoc | test/utils/utils.go:207-209 | one more line is written behind one newline |
| Uncomment.JoinInjective | test/utils/utils.go:203-213 | a text determines its lines |
| Uncomment.UncommentUndoesComment | test/utils/utils.go:185-217 | for every prefix, the file afterwards is the content with the first occurrence of the commented lines replaced by the bare ones, every other byte unchanged, if and only if `Undone`: for a prefix within one line, every commented line fits the scanner and keeps its last byte and the target does not end in a newline, or nothing is scanned and there was no prefix; for a prefix with a newline, the target's own first lines already are the bare ones and the scanner stops after them |

## Left out

- Operator.PutFinalizer: optimistic concurrency compares the resource with the value that was read, not a resource version; a value that changed and changed back is accepted, which allows more behaviours than the server does.
- Operator.WriteChild: updates of children compare values in the same way.
- Cleanup.LeftBehindExactly: says nothing about an object whose name another resource, or a later incarnation of the same one, also computed at some time; `Cleanup.NothingLeftBehind` neither.
- Bindings.ReferencesResolve: for bindings, speaks of incarnations whose cluster-scoped names no other resource and no later incarnation ever computed.
- Operator.Rewritten: compares typed specs; a manifest without `secretKubeshark` gains that member at the first finalizer update, since the encoding always writes it, and the server then counts a new generation, which the model does not show.
- Objects.AdmitIdempotent: of the server's defaults only those are modelled that the fields written by the operator meet: port protocols, restart policy, update strategy, service type, cluster IP, secret type. The allocated cluster IP is a function of the key.
- Literal payloads (the default config table, default role rules, container commands, environments, volumes, resources, the quantities and probes of the worker in `internal/controller/worker.go:82-179`): one opaque constructor each.
- The duplicates in `internal/controller/utils.go`, which the live reconciler does not call, and the backup files.
- Watches, caches, the work queue and leader election: a read sees the current store, and at most one reconcile per resource is in flight.
- Schema validation and the schema default of `hubReplicas`, which no child can tell from its absence.
- Admission of Services and Ingresses by class controllers; pods and their scheduling; the timing of garbage collection, which appears only as a step that may remove an object of a controller that no longer exists.
- Aliasing between the resource in memory and the objects in memory within one reconcile (the label map, the config data and the replica cell are shared by the source, and none of them is written in place).
- The order of callbacks' effects after an error inside one: the object in memory is then dropped.
- JSON as text, number formats and the order of members; a string map and a fixed struct never share an object.
- `DeepCopyObject` and the copies of lists; the labels, annotations and owner references of the resource's own metadata.
- Reading and writing the file in `UncommentCode`, its errors, and the quoted target in the text of its search error; the other helpers of `test/utils/utils.go`.
- `cmd/main.go`, metrics, logging, manifests and the end-to-end suite.
