# Eviction Guard: the disruption-window protocol

Eviction Guard raises the capacity of a workload before its nodes are disrupted, lets the
pods on those nodes be evicted one at a time, and puts the capacity back. Two controllers
share one record, the EvictionGuardWindow: the policy controller opens and refreshes windows
and raises fields, the window controller restores fields, cools, closes and deletes. An
admission gate reads the same record. This project models both controllers, the fan-out
engine under them, the gate, and the helpers they lean on, and proves what the protocol
keeps over whole runs.

How the model is built:

- `Store.World` is the API server: scaled objects with their integer fields and annotations,
  window records, and a finite tape of answers. A call is applied, refused, or applied with
  its answer lost. An exhausted tape refuses everything, so a pass that stops at any API call
  is a pass with a short tape, and what is proved for every tape holds between any two calls.
- Each operation exists twice. A method on `class Cluster` follows the source step by step
  and changes the fields in place; it is proved equal to a function (`...Spec`) on `World`
  values. The laws are lemmas about those functions. (Straight-line operations such as both
  `Reconcile`s, `EnsureWindow`, `RestoreOneAction`, `Current` and `Gate.Evaluate` are done
  the same way and have no row of their own below.)
- `Protocol.Run` is any sequence of policy passes, window passes, outside deletions and
  vanished objects, each pass with its own tape, clock and observations. Passes are
  serialised, as a single-worker controller with leader election serialises them.
- `Ledger.Ground` lists the bound fields, each bound once, with the value it had before any
  raise. `Ledger.Inv` is the write-ahead invariant on every reachable state.

| file | contents |
|---|---|
| Strings, Types, Store | strings, records, the API server and class `Cluster` |
| Plan, PlanEffects, PlanTheorems, PlanRecords, RestoreSuccess | plan, apply, compensation, restore, and their laws |
| Clock, Spare, Capacity, Targets | deadline, phase decision, pod counts, target arithmetic |
| WindowController, PolicyController | the two reconcilers |
| Ledger, WindowLedger, PolicyLedger, Protocol | the write-ahead invariant and whole runs |
| WindowEvolution, PolicyEvolution, WindowFields, Stamps | what one pass may touch, and the annotations it leaves |
| FailOpen, Polling, Fixpoint, SlotCap | fail-open, passes at the times they ask for, no flapping, the slot cap |
| Gate, Drain, Ownership, Collect | the admission gate, drains, policy ownership, at-risk collection |
| Bindings, MergePatch | annotation parsing and catalog, JSON merge patches |
| Findings | inputs on which a stronger promise fails |

## Model

| member | source | states |
|---|---|---|
| Protocol.RunKeeps | internal/controller/policy_controller.go:152-156 | The write-ahead invariant holds after every run of passes, wherever each stops: no bound field is below its original value, and every raised restorable field is recorded by an open window |
| Protocol.WriteAhead | internal/controller/policy_controller.go:471-510 | After any run a raised restorable field is listed, with its original value as baseline, in the stored actions of an unclosed window without WindowUntil |
| Protocol.CoolingMeansRestored | internal/controller/window_controller.go:183-192 | WindowUntil set, phase Closed or no window at all implies that every restorable field of the workload on an existing object reads as it did originally |
| Protocol.RoundTrip | internal/controller/plan.go:288-333 | The first restore of a stored record that reports no error puts every restorable field back to its value before the first raise; recorded baselines are those values at all times |
| Protocol.ReleasedMeansRestored | internal/controller/window_controller.go:283-296 | Whatever step takes a window's finalizer away leaves the workload restored |
| Protocol.DeletionKeepsIffHarmless | internal/controller/policy_controller.go:667-678 | A deletion from outside keeps the invariant if and only if the window is absent, has its finalizer, or owes nothing |
| Protocol.FirmRun | internal/controller/window_controller.go:78-92 | While windows see their policy and target, only closed windows lack a finalizer, so no outside deletion in the run loses a restore |
| Protocol.CleanStart | internal/controller/policy_controller.go:471-497 | A cluster without windows satisfies the invariant, so runs can start |
| Protocol.QuietIsRestored | internal/controller/plan.go:367-384 | Under the invariant a workload has nothing raised exactly when its restorable fields read their original values |
| WindowLedger.WindowPassKeeps | internal/controller/window_controller.go:71-218 | A window pass keeps the invariant and drops the finalizer only from a restored workload |
| PolicyLedger.PolicyPassKeeps | internal/controller/policy_controller.go:139-182 | A policy pass keeps the invariant and every finalizer |
| PolicyLedger.BaselineIsOriginal | internal/controller/plan.go:72-85 | The baseline a plan uses is the original value: it is a recorded one, or is read while the field is not raised |
| PolicyLedger.MergedKeeps | internal/controller/scale_actions.go:63-76 | Merging keeps a record for every field that had one and adds one for every planned field |
| PolicyLedger.ApplyKeeps | internal/controller/plan.go:132-204 | An apply on a recorded plan keeps the invariant whether it succeeds, fails, or fails to compensate |
| PolicyLedger.EnsureDeferredKeeps | internal/controller/policy_controller.go:389-401 | A placeholder empties only a record that owes nothing |
| Ledger.RestoreKeeps | internal/controller/plan.go:288-333 | A restore of the stored record keeps the invariant, never reports NotFound, and on success leaves nothing of the workload raised |
| PlanTheorems.GroupedApplyIsOneByOne | internal/controller/plan.go:132-204 | A successful grouped apply equals raising the steps one by one, at every field of every object |
| PlanTheorems.GroupedRestoreIsOneByOne | internal/controller/plan.go:288-384 | A successful grouped restore equals lowering the actions one by one; each restorable field ends at the lower of its value and its baseline |
| PlanTheorems.RestoreIdempotent | internal/controller/plan.go:288-384 | A second restore after a successful one changes no field, however it ends |
| PlanTheorems.FailedApplyIsRaiseThenLower | internal/controller/plan.go:206-233 | A failing apply whose compensation succeeds equals raising the touched groups and lowering the applied ones; nothing else changes |
| PlanTheorems.FailedApplyValue | internal/controller/plan.go:132-233 | A field of a compensated group goes to its baseline when compensation reads it above that, and else stays raised; read alike by plan and restore it ends at min(max(old, target), baseline), back at its old value if and only if that was the baseline or lay between target and baseline |
| PlanTheorems.StrandedStaysRaised | internal/controller/plan.go:172-180 | A field no compensated step names ends at the target if the failing group raised it and the answer was lost, and else keeps its value |
| PlanTheorems.ForwardGroups | internal/controller/plan.go:137-143 | The groups to compensate are non-empty runs of the plan's steps on one object |
| PlanEffects.RestoreGroupResult | internal/controller/plan.go:336-384 | One group: fields keep their value or go to their baseline, all of them on success, none when the object is missing |
| PlanEffects.ApplyGroupResult | internal/controller/plan.go:144-201 | One group: fields keep their value or go to the target, all that are below it on success or once the group counts as mutated |
| Plan.Apply | internal/controller/plan.go:132-204 | The loop over runs of steps, with one patch per run and compensation, computes ApplySpec on the store |
| Plan.CompensateApply | internal/controller/plan.go:211-219 | Restores the applied groups last first and reports the first error |
| Plan.RestoreActions | internal/controller/plan.go:288-333 | The loop over runs of actions computes RestoreSpec on the store |
| Plan.RestoreGroupedActions | internal/controller/plan.go:336-365 | Reads, lowers and unstamps several actions of one object |
| Plan.BuildPlan | internal/controller/plan.go:46-110 | The loop over resolved steps computes BuildPlanSpec: sticky baselines, one shared target |
| Plan.MergeActions | internal/controller/scale_actions.go:63-76 | The new records, then the old ones whose key is not among them |
| Plan.FindAction | internal/controller/scale_actions.go:53-61 | Finds a record with the key if there is one, and none otherwise |
| Store.Cluster.PatchIntegers | pkg/backends/crd.go:86-122 | One merge patch of the wanted values that differ, on the flat fields of the store |
| Store.AnnotationPatchSuffices | pkg/backends/stamp.go:51-73 | Patching only the annotations that differ sets every wanted key and deletes every blank one |
| MergePatch.MergeIsExact | pkg/backends/crd.go:86-122 | For prefix-free paths the merged document has the wanted integer at every written path and is unchanged at every path beside them |
| MergePatch.SkipHarmlessIff | pkg/backends/crd.go:101-104 | A wanted path reads its value afterwards if and only if it did not hold an integer outside int32 with the same low 32 bits |
| MergePatch.WideValueIsSkipped | pkg/backends/crd.go:101-104 | The input on which the skip leaves a wrong value |
| MergePatch.FlatViewIsFaithful | pkg/backends/crd.go:86-122 | Keeping one integer per bound path, as the store does, commutes with patching the whole document |
| MergePatch.SetElsewhere | pkg/backends/crd.go:180-193 | Setting a nested path leaves every incomparable path as it was |
| MergePatch.PatchIntegers | pkg/backends/crd.go:86-122 | The loop that builds the patch document computes AfterPatch |
| WindowController.LivePass | internal/controller/window_controller.go:132-218 | Stamps ForcedCool first, reads spare only when the decision needs it, then acts |
| WindowController.Tombstone | internal/controller/window_controller.go:121-130 | Keeps a closed forced window while a recorded node is vulnerable |
| PolicyController.EnsureDeferredWindow | internal/controller/policy_controller.go:328-425 | The placeholder without actions, on the store |
| PolicyController.CountActiveWindows | internal/controller/policy_controller.go:652-665 | Counts exactly the windows that hold a slot |
| PolicyController.SyncClearedWindows | internal/controller/policy_controller.go:588-621 | Forgets the nodes of windows whose workload is no longer at risk, unless one is still vulnerable |
| WindowController.SpareReadyIsCounted | internal/controller/spare.go:157-184 | After a status write the stored window is SpareReady exactly when the counted safe pods reach its baseline |
| Stamps.CooldownIsStamped | internal/controller/plan.go:398-419 | A cooldown stamp without error leaves its text, or no annotation when blank, on the object of every action |
| Stamps.RestoreUnstamps | internal/controller/plan.go:336-384 | A restore adds no annotation, and without error has deleted every recorded stamp key from every object that exists |
| WindowEvolution.WindowPassMoves | internal/controller/window_controller.go:71-218 | A window pass touches only its own record, keeps plan and opening time, sets ForcedCool only past the deadline, where a set WindowUntil stays |
| WindowFields.WindowPassLowers | internal/controller/window_controller.go:183-216 | A window pass leaves a field as it is or puts a restorable field of its own workload back to its original value |
| PolicyEvolution.PolicyPassSpares | internal/controller/policy_controller.go:336-346 | A policy pass never removes a window or moves a set opening time, and leaves a held window and its fields alone |
| PolicyEvolution.TurnTouches | internal/controller/policy_controller.go:144-178 | One workload's turn touches only its own window and its own fields |
| FailOpen.FailOpenIsPermanent | internal/controller/maxwindow.go:16-68 | Over any run in which a forced window stays, ForcedCool, opening time and WindowUntil stay, its rank never rises and no field of the workload is raised |
| FailOpen.FailOpenNeverDenies | pkg/evictgate/decide.go:115-122 | After such a run the gate denies no pod of the workload |
| FailOpen.OpeningTimeIsFixed | internal/controller/policy_controller.go:525-529 | LastScaleTime never changes once set while the window exists, through refresh, promotion, deferral and aborted cooldowns |
| FailOpen.ForcedCoolingProgresses | internal/controller/window_controller.go:171-216 | A successful pass brings a forced window strictly closer to being gone, or it is a tombstone that a vulnerable node keeps as it is |
| FailOpen.OverduePass | internal/controller/window_controller.go:121-216 | The exact outcome of a successful pass over an overdue window |
| FailOpen.TombstoneHolds | internal/controller/window_controller.go:121-130 | While a recorded node is vulnerable no interleaving deletes, reopens or rewrites a tombstone or raises a field of its workload |
| Fixpoint.NoFlapping | internal/controller/window_phase.go:56-94 | On a frozen snapshot no sequence of passes, over this workload and any other, whatever fails, changes a field of a settled workload, unless one of the workload's own refreshes undoes a field |
| Fixpoint.NoFlappingIff | internal/controller/plan.go:206-233 | With compensation reporting no error, the fields of a settled workload stay as they are all along a frozen run if and only if none of its own refreshes fails and compensates a field that stands above its recorded baseline |
| Fixpoint.OnePassIsEnough | internal/controller/policy_controller.go:427-547 | One policy pass that succeeds for a workload settles it, whether it creates, promotes or refreshes the window, and what follows changes none of its fields, though the Deployment now shows the raised replicas |
| Fixpoint.SnapshotFixpoint | internal/controller/policy_controller.go:219-280 | The same from the snapshot of pods and nodes: a workload collectWorkloads counts, whose pods match its selector |
| Fixpoint.RefreshMovesIff | internal/controller/plan.go:206-233 | A refresh moves a field of a settled workload, to its baseline, only if it stores its record, its apply fails and it compensates a group, necessarily stamped, with that field above its baseline; and, when compensation reports no error, if it does |
| Fixpoint.PolicyPassMovesIff | internal/controller/policy_controller.go:139-182 | The same for a whole policy pass: only the turn of the workload itself can move its fields |
| Fixpoint.CalmPass | internal/controller/policy_controller.go:139-182 | A policy pass undoes no field of a settled workload if the workload's own turn reports no error, or its plan has no stamps |
| Fixpoint.Rebuild | internal/controller/plan.go:72-85 | Planning on the recorded plan makes the same plan and reads nothing |
| Fixpoint.EnsureAgain | internal/controller/policy_controller.go:427-547 | A refresh of a settled window whose apply undoes nothing settles it again and changes no field, whatever it reports |
| Fixpoint.AtRiskPass | internal/controller/window_phase.go:56-70 | A window pass that sees a pod at risk within the deadline changes no field, and keeps the window open |
| Fixpoint.UncountedStaysRestored | internal/controller/window_controller.go:183-216 | A restored workload that no pass finds at risk stays restored |
| SlotCap.PassRespectsCap | internal/controller/policy_controller.go:139-178 | After a pass the slot holders number at most max(cap, before) plus the openings that failed after Create or promotion |
| SlotCap.PassServesInOrder | internal/controller/policy_controller.go:139-178 | The free slots go to the waiting workloads in sorted key order, whatever openings fail: a workload is turned away exactly when the slots handed out before it fill the cap, and a failed opening takes none unless it failed late |
| SlotCap.TurnSlots | internal/controller/policy_controller.go:144-178 | One turn: the slots it takes are the one it counts, and one for an opening that failed after Create or promotion |
| Gate.NextAtRiskPod | pkg/evictgate/decide.go:194-226 | The one-pass minimum equals collect, sort and take the first |
| Gate.DeniedExactly | pkg/evictgate/decide.go:61-150 | A verdict is Deny if and only if the pod is watched and its window is missing, or neither forced nor ready, or it is another pod's turn |
| Gate.ExactlyTheLeastMayGo | pkg/evictgate/decide.go:127-149 | Under a ready window exactly the pod with the least at-risk name may go, and a pod of that name always may |
| Gate.ForcedNeverDenies | pkg/evictgate/decide.go:115-117 | A forced window never denies |
| Drain.DrainInOrder | pkg/evictgate/decide.go:127-149 | Whatever watched pods the gate admits while one is at risk, they are the at-risk pods in strictly ascending name order, each once; the safe count never drops |
| Drain.DrainKeepsBaseline | internal/controller/spare.go:157-160 | When SpareReady comes from a status write that counted the pods the drain starts with, the safe pods stay at or above the baseline throughout |
| Drain.LeastIsAdmitted | pkg/evictgate/decide.go:127-149 | While a pod is at risk under a ready window the gate admits the pod of least name |
| Drain.WithoutKeepsSafe | internal/controller/spare.go:47-74 | Evicting a pod on a recorded vulnerable node takes none of the safe pods |
| Ownership.OwnsIffResolved | pkg/policyown/own.go:79-137 | For uniquely named policies a listed policy owns a workload if and only if the gate resolves it |
| Ownership.OneOwner | pkg/policyown/own.go:79-91 | At most one listed policy owns a workload, whatever the pin |
| Ownership.OwnerIgnoresOrder | pkg/policyown/own.go:95-137 | The order of the policy list does not matter |
| Ownership.FirstByName | pkg/policyown/own.go:95-116 | The loop returns the candidate with the least name, or none if there is no candidate |
| Collect.CollectWorkloads | internal/controller/policy_controller.go:219-280 | With at most one controlling ReplicaSet per pod the cached walk returns the uncached counts and node sets, each pod counted once |
| Collect.OwnerCached | internal/controller/policy_controller.go:747-768 | The cached owner is the owner |
| Collect.CountOnNodes | internal/controller/policy_controller.go:232-237 | Visiting pods node by node counts each pod on those nodes once |
| Collect.CountedIsLive | internal/controller/spare.go:83-120 | A workload the policy controller counts has live at-risk pods for the window controller |
| Spare.SpareCounts | internal/controller/spare.go:47-74 | The loop counts Ready pods and Ready pods off the recorded nodes |
| Spare.LiveAtRiskPods | internal/controller/spare.go:83-120 | The loop with its node cache counts the live at-risk pods and collects their nodes |
| Targets.TargetSuffices | pkg/capacity/replicas.go:14-29 | With the target Ready and at most atRisk pods exposed the window is SpareReady, unless maxBuffer is below atRisk |
| Targets.TargetSufficesIff | pkg/capacity/replicas.go:14-29 | With exactly the target Ready and atRisk exposed it is SpareReady if and only if the buffer is unlimited or covers atRisk |
| Targets.TargetWrapsIff | pkg/capacity/replicas.go:28 | The target is at least the baseline if and only if the sum fits an int32 |
| Clock.OpenRequeueWithinDeadline | internal/controller/window_controller.go:220-226 | A window that stays open is polled again, never past its deadline |
| Polling.PollsForceCool | internal/controller/window_controller.go:137-147 | Successful window passes made at the times they ask for reach the deadline exactly, with the ceil(remaining / 15s)-th after the first, and that pass leaves ForcedCool stamped, whatever other passes do in between |
| Polling.OpenPassRequeues | internal/controller/window_controller.go:172-181 | A successful pass that stays open asks for the next at OpenRequeue of the stored window and keeps its opening time |
| Polling.ThreePassesSuffice | internal/controller/window_controller.go:121-216 | At most three due successful passes bring a forced window to its deletion or to a tombstone that a vulnerable node holds |
| Polling.TwoPassesSuffice | internal/controller/window_controller.go:171-216 | Once no live pod is at risk and the baseline is covered, two successful passes at the times they ask for restore, cool and delete a window that was never forced, unless a pass in between finds the workload at risk again |
| Bindings.ParseBindings | pkg/backends/bindings.go:38-60 | The annotation parses unless a token is malformed or all are blank; the first token of each key counts |
| Bindings.OneBindingPerKey | pkg/backends/bindings.go:50-54 | Every key that is bound at all is bound exactly once |
| Bindings.SplitPatches | pkg/backends/bindings.go:143-162 | Fails if and only if a patch is blank or a path repeats; otherwise paths and annotations in order |
| Bindings.ResolveCatalog | pkg/backends/bindings.go:104-141 | Fails if and only if the catalog is empty or a binding is unknown or malformed; otherwise one step per path |
| Bindings.ActionKeysDistinct | internal/controller/scale_actions.go:46-51 | Slash-free distinct keys resolve to steps with pairwise distinct action keys |
| Bindings.ActionKeyIgnoresOnlyKind | internal/controller/scale_actions.go:46-51 | For slash-free keys, namespaces and names, which admission and the API demand, two steps share an action key if and only if they agree on everything but the kind of the object |
| Findings.StampedFieldIsLowered | CHANGELOG.md:46 | Compensation can lower a field the failed apply never raised: a group that was only stamped counts as applied |
| Findings.SettledWindowFlaps | internal/controller/plan.go:206-233 | A concrete settled window that flaps: one of its objects has gone, and the failing refresh lowers the other, which is up, to its baseline |
| Findings.LostAnswerIsNotCompensated | internal/controller/plan.go:172-180 | An input on which a raise whose answer is lost stays in place |
| Findings.RefreshKeepsRecordIff | internal/controller/scale_actions.go:63-76 | After a successful refresh the record of a raised field survives if and only if the new plan names the field or leaves its action key alone; a lost one stays raised and breaks the write-ahead invariant |
| Findings.KindChangeLosesRaise | internal/controller/policy_controller.go:427-547 | A concrete refresh after a catalog entry changed its kind: it succeeds everywhere, drops the record of the raised Deployment, and gives the new object the old baseline |
| Findings.ExternalReplanForgets | internal/controller/plan.go:281-284 | A refresh on an external-only catalog empties the record; the invariant survives it if and only if nothing is raised |
| Findings.TargetGoneNeverCloses | internal/controller/window_controller.go:283-312 | With its target gone a window is neither closed nor deleted: two successful passes leave the record as it was |
| RestoreSuccess.RestoreSucceedsIff | internal/controller/plan.go:288-384 | With its calls answered a restore reports no error if and only if every field it must read, on an object that exists, can be read |
| RestoreSuccess.RecordRestoresIff | internal/controller/plan.go:288-384 | The same for the stored record of a window in any reachable state |
| RestoreSuccess.ReadableIff | internal/controller/scale_actions.go:37-44 | A recorded field can be read if and only if it holds an int32, or is unset and of a kind with a known default; the default of its binding is not on record |
| Findings.UnsetFieldBlocksRestore | internal/controller/plan.go:72-85 | A run, one policy pass from a clean cluster that stops right after recording, after which every restore of the record reports an error |

Where code and documentation disagree the model follows the code. CHANGELOG.md:46 says that
compensation reverts only fields the failed apply raised; `Findings.StampedFieldIsLowered`
is an input on which it does more, and `PlanTheorems.FailedApplyValue` says exactly when a
field comes back. CHANGELOG.md:82 and the comment at internal/controller/window_controller.go:99
say that a window whose target is gone is closed; `Findings.TargetGoneNeverCloses` shows what
happens instead. The branch of the gate for a closed window that is not forced
(pkg/evictgate/decide.go:118-120) cannot be reached, since the lookup before it returns no
such window; `Gate.DeniedExactly` shows that such a pod is denied.

## Left out

- Fixpoint.NoFlapping: asks that none of the workload's own refreshes undoes a field, because a failing one can (`Findings.SettledWindowFlaps`); `Fixpoint.NoFlappingIff` shows that fields move exactly then.
- Fixpoint.NoFlappingIff: assumes that compensation reports no error; when it does, a field may escape it, and only the direction of `Fixpoint.NoFlapping` is stated.
- PlanTheorems.FailedApplyValue: assumes that compensation reports no error; when it does, fields of the applied groups stay raised or go to their baselines.
- Protocol.RunKeeps: assumes that every plan of the run has at least one step (`Findings.ExternalReplanForgets`) and binds only fields of the ground, each under one action key (`Findings.RefreshKeepsRecordIff`), and that the skipDownscaling setting and the default of a bound field stay the same for the whole run.
- Concurrent passes: the two controllers' patches carry no optimistic lock, and interleavings inside a pass are not modelled.
- External writers of the bound fields, and two spellings of one field path in one catalog.
- Status of the policy, conditions with their timestamps, events, metrics, log texts and error classes other than NotFound.
- publishWorkloadMetrics and its reads, which only feed metrics.
- Label selectors, node filters, disruption signals and namespace labels: they enter as predicates and sets.
- Several reads that always come together (policy and filter, node and pod lists) are one answer of the tape.
- A failing read inside collectWorkloads ends the pass before the slot loop; it is the first answer of a policy pass.
- Window names: a window is identified by policy and workload, not by the truncated hash in its name.
- Targets other than Deployments, for which the pod counts are zero.
- Policy finalizer and clean-up: they reach the model as outside deletions of windows.
- The parsing of durations and RFC 3339 times; a time is a number, and the cooldown stamp is its digits.
- The sort order of stamp keys, which only orders annotation deletions.
- Stored values that are not integers: `MergePatch` has them, the flat store does not.
- Admission validation, webhook decoding, deep copies, manifests, charts and the website.
