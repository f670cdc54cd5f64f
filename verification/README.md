# A verified model of Admiralty's multi-cluster scheduling

Admiralty schedules pods across Kubernetes clusters. Two schedulers and a handful of controllers run a
distributed protocol in which they communicate only through labels, annotations, finalizers and resource
versions of API objects. This project models that protocol, the garbage collection of objects that follow
pods into target clusters, and the kernels both rest on, and proves properties of them for all inputs, all
runs and all reachable states. `dafny verify dfyconfig.toml` checks all of it.

## What is modelled

**The election.** `ElectionModel` is a transition system over single API calls: the proxy scheduler's
Filter, Reserve, PreBind, Bind, PostBind, Unreserve and PostFilter, the candidate schedulers, the chaperon
controllers, the feedback controllers, users and other source clusters, in any interleaving, over any number
of pods, nodes and targets. `ElectionInvariant` is the inductive invariant, `ElectionHistory` says how marks
and objects can change, and `ElectionTheorems`, `ElectionGate`, `ElectionStability`, `ElectionRace` and
`ElectionRetry` hold the results about whole runs; `ElectionPassRun` is a run that succeeds, `ElectionRaceRun`
one that loses a delegate. `ChaperonServer` is the versioned API server. `World` is the same system as a
mutable object, and `ProxyPlugin`, `CandidatePlugin` and `ChaperonSync` are the plugins and the controller as
methods with loops, which act on it while an arbitrary environment acts between any two of their calls; what
they do is recorded as steps, so the results about runs apply to the states they leave behind.
`ChaperonLife` adds time: when a chaperon creates its pod and when it may create it again. `Feedback` is the
feedback controller, `DelegatePod` and `Webhook` make candidates and proxy pods, `VirtualNode` their nodes.

**Following.** `FollowModel` is what one run of a config map or secret controller decides,
`FollowController` the run itself. `FollowSafety` cuts runs into single API calls and interleaves them with
users on both sides and with the cleanup controller (`Cleanup`). `FollowDeletion` is the measure by which
deletion terminates; `FollowDeletionRuns` and `FollowRuns` tie deletion and following to those
calls. `FollowNetwork` is any number of clusters following objects into one another, in chains.
`ServiceFollow` and `IngressFollow` are the parts of the other two follow controllers that differ.

**Kernels.** `RemoteControl` (references to parents and the index over them), `Names` and `Targets`
(bounded names, finalizers), `Labels` (rewriting labels and selectors), `Aggregation` (cluster summaries),
`Kube` (prefixes, merge patches, finalizer lists).

## Assumptions

- API calls are atomic. `Update` and `UpdateStatus` succeed only if the resource version matches. Merge
  patches follow section 2 of RFC 7396: null deletes a member.
- One proxy scheduler is active, and it has at most one cycle per pod at a time. Distinct targets in scope
  are distinct clusters.
- UIDs are globally unique, and generated names are never reused.
- Users and other sources do not write this system's labels, annotations and finalizers, and other sources
  use other cluster names; in the election, chaperons of other sources may otherwise change at will.
- Caches are current when a run starts, except in the lost-update results, where any version ever stored
  may be read.
- Regular expressions, YAML, selector texts and time stamps are function parameters; where a result needs
  it, reading back what was written is required to give it back. The hash is a parameter of fixed length
  without dashes.
- Waiting is polling a bounded number of times, for any bound; a call may fail at any point. Filter runs for
  several nodes of a pod in parallel.

## Properties that fail, and when they hold

- Two sources that share a target and a cluster name interfere: the one that has no object of that name
  deletes the other's copy. Distinct names are necessary and sufficient (`FollowNetwork.NamesDecide`).
- A rerouted service forgets part of its original selector if its pattern keeps some of the selector's labels
  and not others, and only then (`ServiceFollow.OriginalSelectorKept`).
- Rewriting loses a selection exactly when a selected label meets a label of the same name and another value
  under another domain (`Labels.SelectionPreserved`).
- The source's scheduling constraints reach neither the delegate nor the proxy pod exactly when both
  constraint annotations are present and there is something to lose that the separate constraints do not repeat
  (`DelegatePod.ConstraintsCarried`).
- A bound pod can lose a live, unmarked delegate: a feedback run that found the chaperon marked may send its
  deletion after the mark was cleared and the pod bound (`ElectionRaceRun.BoundDelegateIsLost`). It happens in
  some continuation if and only if such a deletion is on its way (`ElectionRace.SurvivalIffNotPending`).
- A pod can be recreated without a minute's absence in some history if and only if clearing patches can fail
  (`ChaperonLife.ClearsDecide`); in each history the delegate was there since the mark was set if and only if
  one did (`ChaperonLife.PresentIffClearFailed`).
- A deletion stalls at a copy that has finalizers of its own until they are released; which schedules finish
  is stated exactly (`FollowDeletion.DeletionTerminates`).
- A copy just created from an external-name service that still has cluster addresses is written once more by the
  next run; every other copy is up to date after one run (`ServiceFollow.FollowConverges`).
- A target's finalizer can equal another's without their hashes being equal (`Names.HashReadsAsName`); the exact
  condition is `Names.FinalizersCollide`.
- The branch of label rewriting that would leave keys of this system's domain as they are is dead, because the
  prefix it compares with ends in a slash (`Labels.NeverSpared`); such keys are rewritten to themselves.

## Model

| member | source | states |
|---|---|---|
| `ElectionInvariant.StepInv` | pkg/scheduler_plugins/proxy/plugin.go:100-281 | every step of every actor keeps the election invariant: versions identify contents, runs in flight hold copies that were really served, references are ours and unique, cycles are in shape |
| `ElectionInvariant.ReachableInv` | pkg/scheduler_plugins/proxy/plugin.go:100-281 | the invariant holds in every state of every interleaved run |
| `ElectionGate.GateIsSafe` | pkg/scheduler_plugins/candidate/plugin.go:80-111 | over every run: a candidate of one of our pods is let through in cluster c only if Reserve chose c for that pod UID, in a cycle in which Filter had seen the reservation or which belongs to a pod that opted out |
| `ElectionPassRun.GateIsPassed` | pkg/scheduler_plugins/candidate/plugin.go:80-111 | a whole run, with reservations, in which a candidate is created, reserved, seen, chosen and allowed and gets through the gate |
| `ElectionGate.ReachablePast` | pkg/scheduler_plugins/proxy/plugin.go:100-205 | in every reachable state each allowed mark and each cycle has the past that the gate theorem needs |
| `ElectionHistory.Evolution` | pkg/controllers/chaperon/controller.go:139-189 | the only ways a step may change a server: one current write that keeps the reference, deletions, a foreign creation, or a creation by the proxy scheduler |
| `ElectionHistory.StepMarks` | pkg/scheduler_plugins/proxy/plugin.go:88-96 | an allowed mark appears on a chaperon of ours only by ReserveAllow of the cycle that found it |
| `ElectionTheorems.UniqueCandidate` | pkg/scheduler_plugins/proxy/plugin.go:70-86 | every reachable state has at most one chaperon per pod UID and target, so the 'more than one candidate' branches of getCandidate and of the feedback controller are unreachable |
| `ElectionTheorems.NoLostUpdate` | pkg/controllers/chaperon/controller.go:151-189 | from any cached copy and whatever was patched meanwhile, a write of the chaperon controller leaves every prefixed annotation of every chaperon as it was on the server just before |
| `ElectionTheorems.DisagreeingRunConflicts` | pkg/controllers/chaperon/controller.go:158-189 | a run whose cached prefixed annotations differ from the server's gets a conflict from both of its writes |
| `ElectionTheorems.ClearedMarkIsNotResurrected` | pkg/controllers/chaperon/controller.go:139-189 | after the clearing patch the mark is gone from the server and the rest of that run can only conflict |
| `ElectionTheorems.ElectionCleanup` | pkg/scheduler_plugins/proxy/plugin.go:263-274 | with node labels matching target namespaces, after a PostBind whose deletions succeed every chaperon of the pod is in the chosen cluster |
| `VirtualNode.BaseLabelsMatchTargets` | pkg/model/virtualnode/model.go:23-38 | nodes that keep their base labels show Filter the namespace that PostBind goes by, which is what the cleanup theorem requires |
| `ElectionStability.DelegateIsStable` | pkg/controllers/feedback/controller.go:123-177 | once the pod is bound to n and alive, its chaperon there unmarked and no feedback run in flight has decided to delete it, no run of PostBind, of any feedback controller or of their orphan branches, in any interleaving, does |
| `ElectionStability.CondemnedOnlyIfMarked` | pkg/controllers/feedback/controller.go:123-177 | a feedback run that decides to delete the chaperon of a pod alive and not bound elsewhere runs for that very pod and found the chaperon marked |
| `ElectionStability.NotCondemned` | pkg/controllers/feedback/controller.go:123-177 | no feedback run for this or any other pod, found or missing, decides to delete the delegate |
| `ElectionStability.OrphanParent` | pkg/controllers/feedback/controller.go:123-134 | a chaperon the orphan branch reaches was created for exactly the missing pod, in its namespace |
| `ElectionRace.DecidedIffPending` | pkg/controllers/feedback/controller.go:171-177 | in every reachable state: a deletion of such a chaperon is on its way if and only if a feedback run found it marked earlier in the run and has not sent its deletion since |
| `ElectionRace.SurvivalIffNotPending` | pkg/controllers/feedback/controller.go:123-177 | a bound, alive and unmarked delegate survives every continuation, short of deleting pod or chaperon or marking it again, if and only if no such deletion is on its way |
| `ElectionRaceRun.BoundDelegateIsLost` | pkg/controllers/feedback/controller.go:171-177 | a run that loses one: found marked, mark cleared, pod bound, then deleted |
| `ElectionRetry.RetryBound` | pkg/scheduler_plugins/proxy/plugin.go:166-218 | with N virtual nodes at most N cycles of a pod fail, and at most N distinct nodes are reserved, before a reset |
| `ElectionRetry.RetryMeasure` | pkg/scheduler_plugins/proxy/plugin.go:207-218 | the number of virtual nodes that have not failed the pod drops by one with every Unreserve, and no other step but a reset changes it |
| `ElectionRetry.NoRetryWithoutReset` | pkg/scheduler_plugins/proxy/plugin.go:105-107 | between two Reserve calls on one node for one pod there is a PostFilter or a finished PostBind |
| `ChaperonServer.MatchingVersionIsCurrent` | pkg/controllers/chaperon/controller.go:158-189 | a served copy that carries the stored version is the stored object |
| `ChaperonServer.LockedStatus` | pkg/controllers/chaperon/controller.go:158-171 | a status write from a served copy is stored exactly when the copy is current, and then changes the status alone |
| `ChaperonServer.LockedAnnotations` | pkg/controllers/chaperon/controller.go:173-189 | an annotation write from a served copy is stored exactly when the copy is current, and then changes the annotations alone |
| `World.World.Interfere` | pkg/scheduler_plugins/proxy/plugin.go:121-151 | between two calls of one actor anything the others can do may happen; the actor's own memory stays, and the world stays reachable |
| `World.OthersReach` | pkg/scheduler_plugins/proxy/plugin.go:121-151 | steps of others lead from reachable states to reachable states and leave the actor's part alone |
| `ProxyPlugin.IsCandidatePodUnschedulable` | pkg/scheduler_plugins/proxy/utils.go:25-32 | the loop finds whether some condition says unschedulable or gated |
| `ProxyPlugin.Poll` | pkg/scheduler_plugins/proxy/plugin.go:121-150 | one poll reports no, several, an unschedulable, a reserved or a pending candidate exactly as the server holds it, and the cycle records it |
| `ProxyPlugin.Create` | pkg/scheduler_plugins/proxy/plugin.go:129-147 | one election step: the target gains one chaperon under a name it has never stored, made as the template, and nothing else changes |
| `ProxyPlugin.Await` | pkg/scheduler_plugins/proxy/plugin.go:121-154 | the node passes if and only if some round sees the reservation; otherwise a round refuses it for a reason or every one of the rounds waits |
| `ProxyPlugin.Filter` | pkg/scheduler_plugins/proxy/plugin.go:100-164 | without reservations a node passes if and only if it is virtual, admits the pod's namespace and has not failed it; with them, one in scope passes if and only if a round sees the reservation, and fails only by a refusal or when all rounds waited |
| `ProxyPlugin.PostFilter` | pkg/scheduler_plugins/proxy/plugin.go:172-175 | forgets the failed nodes of the pod, as one election step |
| `ProxyPlugin.FindCandidate` | pkg/scheduler_plugins/proxy/plugin.go:177-183 | exactly one candidate is to be allowed; none is to be created without reservations; all else fails the cycle |
| `ProxyPlugin.Allow` | pkg/scheduler_plugins/proxy/plugin.go:88-96 | sets the allowed mark of the candidate found before and changes nothing else; fails exactly if it is gone |
| `ProxyPlugin.Reserve` | pkg/scheduler_plugins/proxy/plugin.go:177-205 | succeeds only with a candidate of the pod in the chosen target just allowed, or just created without reservations; fails only if a call fails, there is nothing to reserve, or the candidate has gone |
| `ProxyPlugin.Settle` | pkg/scheduler_plugins/proxy/plugin.go:184-204 | the second call of Reserve after others have moved: the candidate is allowed or created, or the cycle fails for a reason |
| `ProxyPlugin.Unreserve` | pkg/scheduler_plugins/proxy/plugin.go:207-218 | adds the node to the pod's failed nodes and leaves other pods' memory alone |
| `ProxyPlugin.FirstScheduled` | pkg/scheduler_plugins/proxy/plugin.go:251-259 | the loop finds a status exactly if the first PodScheduled condition has it |
| `ProxyPlugin.CandidateIsBound` | pkg/scheduler_plugins/proxy/plugin.go:240-261 | bound exactly if the first PodScheduled condition of the one candidate is true, failed exactly if there is no candidate or that condition is not true, else undecided |
| `ProxyPlugin.PreBind` | pkg/scheduler_plugins/proxy/plugin.go:222-238 | over the states the polls find: the first poll that decides makes it succeed or fail as it says; otherwise all polls were undecided or failing and it fails |
| `ProxyPlugin.PostBind` | pkg/scheduler_plugins/proxy/plugin.go:263-281 | visits the targets in scope in any order and forgets the pod; where the deletion does not fail no chaperon of the pod is left, and if none fails only the chosen cluster holds one |
| `ProxyPlugin.Skip` | pkg/scheduler_plugins/proxy/plugin.go:113-116 | without reservations the node passes at once |
| `ProxyPlugin.Round` | pkg/scheduler_plugins/proxy/plugin.go:121-151 | one round of the loop, with Filter for other nodes and everybody else acting before each call: reserved, refused because a call failed or the candidate is unschedulable, or to be continued because it is pending or new |
| `ProxyPlugin.Offer` | pkg/scheduler_plugins/proxy/plugin.go:129-147 | without a candidate, create it and wait, or give up if the call fails |
| `ProxyPlugin.GiveUp` | pkg/scheduler_plugins/proxy/plugin.go:137-143 | a failed creation ends the attempt on this node and stores nothing |
| `ProxyPlugin.CreateChosen` | pkg/scheduler_plugins/proxy/plugin.go:183-196 | the same in the chosen target |
| `ProxyPlugin.DeleteIn` | pkg/scheduler_plugins/proxy/plugin.go:265-274 | deletes exactly the pod's candidates in one target, or nothing if the call fails |
| `ProxyPlugin.Finish` | pkg/scheduler_plugins/proxy/plugin.go:276-281 | forgets the pod once all targets in scope were visited |
| `CandidatePlugin.PreFilter` | pkg/scheduler_plugins/candidate/plugin.go:54-61 | one step that withdraws the reservation mark of one chaperon; no other object, label or cluster changes, and without the chaperon nothing happens |
| `CandidatePlugin.Reserve` | pkg/scheduler_plugins/candidate/plugin.go:67-73 | one step that sets the reservation mark of one chaperon; no other object, label or cluster changes, and without the chaperon nothing happens |
| `CandidatePlugin.Pass` | pkg/scheduler_plugins/candidate/plugin.go:103-110 | one step; a candidate of one of our pods was chosen by the proxy scheduler |
| `CandidatePlugin.PreBind` | pkg/scheduler_plugins/candidate/plugin.go:80-111 | over the states the polls find: the candidate gets through if and only if some poll that does not fail finds the mark, and then the proxy scheduler had chosen this cluster for its pod |
| `ChaperonSync.ClearMissing` | pkg/controllers/chaperon/controller.go:139-145 | the mark is cleared and the run is stale from then on |
| `ChaperonSync.StaleStays` | pkg/controllers/chaperon/controller.go:151-189 | whatever the others do, a stale run stays stale |
| `ChaperonSync.WriteStatus` | pkg/controllers/chaperon/controller.go:158-171 | stored if and only if the copy is current; prefixed annotations are kept |
| `ChaperonSync.WriteAnnotations` | pkg/controllers/chaperon/controller.go:173-189 | stored if and only if the copy is current; user annotations become the pod's and prefixed ones are kept |
| `ChaperonSync.PushStatus` | pkg/controllers/chaperon/controller.go:158-171 | with others acting first, the status is stored, or the run ends because the copy was outdated just then |
| `ChaperonSync.Push` | pkg/controllers/chaperon/controller.go:151-191 | a finished run has had the differing status stored and then, as its last step, the differing annotations; one that asks to be called again ended with a needed write from an outdated copy |
| `ChaperonSync.Handle` | pkg/controllers/chaperon/controller.go:135-192 | the whole run with others acting before every call: finished, rejected or in error exactly for the stated reasons; one that cleared the mark finishes only if there was nothing else to write |
| `ChaperonLife.Controller.Handle` | pkg/controllers/chaperon/controller.go:101-171 | case by case: a pod is created exactly if none was ever seen or the marked absence exceeds a minute and it is always restarted; when the mark is set and cleared, the phase recorded and an error returned |
| `ChaperonLife.NeverRecreated` | pkg/controllers/chaperon/controller.go:117-118 | once a phase is recorded, a chaperon whose restart policy is not Always never creates a pod again, in any history |
| `ChaperonLife.MarkStays` | pkg/controllers/chaperon/controller.go:124-129 | the mark records the second in which it was set for as long as it is there |
| `ChaperonLife.PresentIffClearFailed` | pkg/controllers/chaperon/controller.go:101-145 | per history: since the mark was set the delegate has been there if and only if some clearing patch has failed since |
| `ChaperonLife.RecreatedOnlyAfterAbsence` | pkg/controllers/chaperon/controller.go:117-145 | a pod is recreated only while marked; if no clearing patch failed since the mark was set, after more than 59 seconds of continuous absence |
| `ChaperonLife.FailedClearForgetsAbsence` | pkg/controllers/chaperon/controller.go:139-145 | a whole history with one failed clearing patch in which a pod that has just vanished is recreated at once |
| `ChaperonLife.ClearsDecide` | pkg/controllers/chaperon/controller.go:101-145 | recreation waits 59 seconds in all histories if and only if clearing patches cannot fail |
| `Feedback.FilterContainerStatuses` | pkg/controllers/feedback/controller.go:247-267 | the copy-on-write loop keeps exactly the statuses of named containers, in order, and the list itself if all are known |
| `Feedback.HasName` | pkg/controllers/feedback/controller.go:269-278 | membership |
| `Feedback.FilterContainerStatus` | pkg/controllers/feedback/controller.go:236-241 | each of the three lists is filtered by the pod's containers of its own kind |
| `Feedback.Controller.DeleteOrphans` | pkg/controllers/feedback/controller.go:123-134 | deletes, in the missing pod's namespace, the names of exactly the indexed chaperons |
| `Feedback.Controller.RemoveFinalizer` | pkg/controllers/feedback/controller.go:291-295 | takes one finalizer out; a terminating pod without any disappears |
| `Feedback.Controller.CopyBack` | pkg/controllers/feedback/controller.go:179-222 | the pod mirrors the delegate: phase, the statuses of its own containers of each kind, user annotations next to its prefixed ones; the delegate is relabelled |
| `Feedback.Controller.Handle` | pkg/controllers/feedback/controller.go:116-231 | which chaperons disappear, and exactly what becomes of the pod with and without a candidate, field by field; other pods are untouched |
| `Feedback.Controller.HandleAbsent` | pkg/controllers/feedback/controller.go:158-177 | the pod becomes exactly what the branch for a missing candidate makes of it, and no other pod changes |
| `Feedback.AbsentFate` | pkg/controllers/feedback/controller.go:158-228 | a pod without a candidate goes exactly if its last finalizer was this one and it terminates, or it is bound here and has none; it is made terminating exactly if bound here; otherwise only one occurrence of this finalizer goes, and only if it needs no delegate here |
| `Feedback.PresentFate` | pkg/controllers/feedback/controller.go:179-212 | what becomes of a pod with a candidate, field by field |
| `Feedback.DoomedFate` | pkg/controllers/feedback/controller.go:147-177 | a candidate is deleted exactly if the pod terminates, is bound elsewhere, or the chaperon is marked missing |
| `Feedback.DoomedIsDecided` | pkg/controllers/feedback/controller.go:123-177 | the chaperons a run deletes are those the election's feedback step decides on, so results about whole runs are about this controller |
| `Feedback.OrphansAreRecorded` | pkg/controllers/feedback/controller.go:123-134 | the orphan branch reaches a recorded chaperon exactly if it was recorded for that pod from this cluster |
| `RemoteControl.AddRemoteControllerReference` | pkg/controller/controller.go:214-229 | records the parent's UID, cluster, namespace and name on the child and keeps its other labels and annotations |
| `RemoteControl.ParentKeyInverts` | pkg/controller/controller.go:185-199 | the parent's key is read back exactly when the parent is namespaced or the child is not |
| `RemoteControl.QueueKeyInjective` | pkg/controller/controller.go:185-199 | the key text of a namespaced object determines it |
| `RemoteControl.BuildIndex` | pkg/controller/controller.go:201-212 | the index holds a child under a key exactly if it is stored and files under that key |
| `RemoteControl.IndexAgreesWithScan` | pkg/controller/controller.go:185-229 | looking a parent up finds exactly the children recorded for it from this cluster, as a full scan would |
| `Kube.HasFinalizer` | pkg/controller/controller.go:236-243 | membership, and the first position |
| `Kube.FirstIndex` | pkg/controller/controller.go:236-243 | the position at which the search stops: the first occurrence |
| `Kube.SplitLabelsOrAnnotations` | pkg/common/util.go:23-34 | splits by prefix without loss |
| `Kube.Overlay` | pkg/controllers/follow/ingress/controller.go:232-239 | the loop lays one map over another |
| `Kube.Append` | pkg/webhooks/proxypod/proxypod.go:96-98 | the loop appends one list to another |
| `Kube.SplitAndMerge` | pkg/common/util.go:23-34 | merging one owner's part with the other's keeps both parts |
| `FollowModel.FollowConverges` | pkg/controllers/follow/cm.go:168-241 | after one run the source holds the finalizer and the copy carries its contents, reference and cluster name, on creation also its labels and annotations; the next run writes nothing; a namesake of another parent is left alone |
| `FollowModel.UnfollowedFate` | pkg/controllers/follow/cm.go:168-179 | without a source a copy with this cluster's name is deleted and anything else left alone; an unneeded source is left alone |
| `FollowController.IndexNames` | pkg/controllers/follow/secret.go:109-153 | the names a proxy pod is indexed under are exactly those it mentions, for config maps and for secrets |
| `FollowController.MentionsSpelledOut` | pkg/controllers/follow/secret.go:109-153 | what it means that a pod mentions a config map or a secret, field by field |
| `FollowController.AppendSources` | pkg/controllers/follow/cm.go:140-154 | adds exactly the names the sources refer to |
| `FollowController.AppendContainers` | pkg/controllers/follow/cm.go:140-154 | adds exactly the names the containers' environments refer to |
| `FollowController.AppendVolumes` | pkg/controllers/follow/cm.go:119-131 | adds exactly the names the volumes refer to, projected ones included |
| `FollowController.ShouldFollow` | pkg/controllers/follow/cm.go:249-259 | true exactly if some proxy pod on the target's virtual node mentions the object |
| `FollowController.Reconciler.AddFinalizer` | pkg/controllers/follow/cm.go:261-269 | appends the finalizer and sets the label |
| `FollowController.Reconciler.DeleteRemote` | pkg/controllers/follow/cm.go:190-199 | deletes the copy; finalizers of its own keep it, terminating |
| `FollowController.Reconciler.RemoveFinalizer` | pkg/controllers/follow/cm.go:271-275 | takes out the entry at the index; the object disappears with its last finalizer |
| `FollowController.Reconciler.WriteCopy` | pkg/controllers/follow/cm.go:212-241 | creates the copy, or updates it exactly if its data or cluster name are out of date |
| `FollowController.Reconciler.Handle` | pkg/controllers/follow/cm.go:156-247 | a completed run leaves both objects as specified, a run cut short never leaves a copy written before the local object, and no other object changes |
| `FollowSafety.StepInv` | pkg/controllers/follow/secret.go:155-269 | every API call of every run, every user edit or deletion on either side and every cleanup keeps the guard invariant |
| `FollowSafety.ReachableInv` | pkg/controllers/follow/cm.go:156-275 | the guard invariant holds in every reachable state |
| `FollowSafety.NoOrphanCopy` | pkg/controllers/follow/cm.go:181-275 | in every reachable state a copy carrying a parent's UID implies that parent exists under the same name and holds the target's finalizer exactly once |
| `FollowRuns.RunFollows` | pkg/controllers/follow/cm.go:205-241 | a run of the protocol on an object that is not terminating, from its start to its last call, leaves what one run is specified to leave |
| `FollowRuns.ReachableRunFollows` | pkg/controllers/follow/cm.go:205-241 | and it is such a run from every reachable state |
| `FollowSafety.StrippedCount` | pkg/controllers/cleanup/controller.go:134-159 | stripping other finalizers keeps the number of occurrences of this one |
| `FollowDeletion.TurnEffect` | pkg/controllers/follow/cm.go:190-204 | a turn, a run or the release of one of a copy's own finalizers, changes its target's task as counted and no other's, and keeps foreign finalizers in order |
| `FollowDeletion.EffectiveDecreases` | pkg/controllers/follow/cm.go:190-204 | every effective turn takes one unit off the task and other turns leave it; a run is idle exactly if the task is done or the terminating copy still has finalizers |
| `FollowDeletion.TotalDecreases` | pkg/controllers/follow/cm.go:190-204 | copies, their own finalizers and target finalizers together drop by one with every effective turn |
| `FollowDeletion.FewRunsMatter` | pkg/controllers/follow/cm.go:190-204 | in any schedule at most one run for the copy and one per occurrence of the finalizer is effective: two in reachable states |
| `FollowDeletion.DoneIffServed` | pkg/controllers/follow/cm.go:190-204 | a target is done after a schedule if and only if its copy had a run, the copy's finalizers were released, and enough runs followed |
| `FollowDeletion.TwoRuns` | pkg/controllers/follow/cm.go:190-204 | for a copy without finalizers that means exactly two runs or more |
| `FollowDeletion.DeletionTerminates` | pkg/controllers/follow/cm.go:190-204 | in any interleaving over any number of targets, copies followed onward included: the deletion is finished, with foreign finalizers left in order, if and only if every target was served |
| `FollowDeletionRuns.RunIsTurn` | pkg/controllers/follow/cm.go:181-204 | a run of the protocol from its start to its last call is a turn |
| `FollowDeletionRuns.EditIsTurn` | pkg/controllers/follow/cm.go:271-275 | an edit that takes out one finalizer of a copy is a turn |
| `FollowDeletionRuns.ReachableDeletionTerminates` | pkg/controllers/follow/secret.go:193-203 | from every reachable state with no run on the name in flight, every schedule of turns is a run of the protocol that ends finished if and only if it serves every target |
| `FollowDeletionRuns.OtherNames` | pkg/controllers/follow/cm.go:156-247 | steps on other names in between change nothing for this one |
| `FollowNetwork.WritesOwnCopiesOnly` | pkg/controllers/follow/cm.go:168-192 | a run writes to an object in its target only if its own cluster created it |
| `FollowNetwork.SelfIsInert` | pkg/controllers/follow/cm.go:168-192 | a run of a cluster into itself changes nothing |
| `FollowNetwork.ReachableInv` | pkg/controller/controller.go:178-234 | in every network state references and cluster names tell who created an object |
| `FollowNetwork.NonInterference` | pkg/controllers/follow/cm.go:156-247 | over any number of sources, targets and chains: a run changes only its own local object's finalizers and label, and objects in the target that its own cluster created |
| `FollowNetwork.SharedNameInterferes` | pkg/controllers/follow/cm.go:174-184 | two sources of one target with the same cluster name: one deletes the other's copy as its orphan |
| `FollowNetwork.NamesDecide` | pkg/controller/controller.go:178-183 | non-interference holds over all runs if and only if the sources of each target have distinct names |
| `Cleanup.KnownSet` | pkg/controllers/cleanup/controller.go:68-70 | the configured finalizers as a set |
| `Cleanup.UnknownFinalizers` | pkg/controllers/cleanup/controller.go:134-139 | lists exactly the prefixed finalizers no configured target uses |
| `Cleanup.Handle` | pkg/controllers/cleanup/controller.go:134-162 | known and foreign finalizers are kept with their numbers even if the object changed meanwhile, and unknown prefixed ones that were seen are gone; if it did not change, the result is the retained list, in order |
| `Cleanup.RetainedCounts` | pkg/controllers/cleanup/controller.go:134-166 | unknown prefixed finalizers go, all others keep their number of occurrences |
| `Cleanup.RetainedTwice` | pkg/controllers/cleanup/controller.go:134-166 | a clean list is left alone |
| `Cleanup.CleanupIsAStep` | pkg/controllers/cleanup/controller.go:134-162 | the patch is a step of the follow protocol, so the guard invariant covers it |
| `Names.Truncate` | pkg/name/name.go:61-70 | the trimming loop computes the cut without trailing dashes, or runs out of characters |
| `Names.FromParts` | pkg/name/name.go:29-51 | the loops compute the specified name |
| `Names.LengthBound` | pkg/name/name.go:29-70 | no name exceeds its limit |
| `Names.NoResult` | pkg/name/name.go:61-70 | the trimming loop runs off the string exactly when a hash is needed and all it may keep is dashes |
| `Names.AlwaysResult` | pkg/name/name.go:61-70 | it never does for parts that do not start with a dash |
| `Names.PlainNames` | pkg/config/agent/agent.go:67-70 | short names without dashes, spelled out |
| `Names.HashedNames` | pkg/name/name.go:46-59 | names with a dash in a part are a prefix of the joined parts and the hash of the parts joined by slashes |
| `Names.NodeNamesCollide` | pkg/config/agent/agent.go:67-68 | distinct targets share a virtual node name if and only if they are cut to the same text with the same hash, or one's name reads as the other's hash and the rest as the text in front of it |
| `Names.FinalizersCollide` | pkg/config/agent/agent.go:69-70 | the same for finalizers, which carry the prefix |
| `Names.HashReadsAsName` | pkg/name/name.go:53-59 | a clash without equal hashes is real, whatever the hash |
| `Names.GetKnownFinalizers` | pkg/config/agent/agent.go:41-47 | the finalizers in configuration order |
| `Names.GetKnownFinalizersByNamespace` | pkg/config/agent/agent.go:49-55 | per namespace, the finalizers of its targets in configuration order |
| `Names.OfNamespaceFate` | pkg/config/agent/agent.go:49-55 | the finalizers of a namespace are those of its targets, as often as they occur |
| `Targets.GeneratedFinalizersServe` | pkg/config/agent/agent.go:67-70 | the generated finalizers are a valid configuration of the follow protocol if and only if no two targets clash |
| `Labels.NeverSpared` | pkg/model/delegatepod/model.go:106-117 | the compared prefix ends in a slash, so the branch that would spare keys of the domain is dead |
| `Labels.RekeySpelledOut` | pkg/model/delegatepod/model.go:105-117 | a label moves into the domain under the name after its last slash unless the pattern matches its text |
| `Labels.ChangeLabels` | pkg/model/delegatepod/model.go:97-120 | in any iteration order: every label lands under its key, every result label comes from one, and the flag tells whether any was rewritten |
| `Labels.ChangeLabelsIdempotent` | pkg/model/delegatepod/model.go:97-120 | rewriting any possible result again gives that result, in any order |
| `Labels.SelectionPreserved` | pkg/model/delegatepod/model.go:88-120 | a selector that matches the source pod is rewritten to one that matches the delegate in all orders if and only if no selected label meets one with another value |
| `Labels.SelectionReflected` | pkg/model/delegatepod/model.go:88-120 | without key collisions the rewritten selector matches exactly what the original matched |
| `ServiceFollow.ShouldFollow` | pkg/controllers/follow/service/controller.go:232-273 | follows exactly if the selector's part outside the domain, or else the saved selector, matches a proxy pod; the error cases |
| `ServiceFollow.Prepare` | pkg/controllers/follow/service/controller.go:162-192 | the local service gets finalizer, marks, saved and rewritten selector; no update is skipped that was needed |
| `ServiceFollow.Mark` | pkg/controllers/follow/service/controller.go:168-182 | sets the two global marks and the saved selector and nothing else, and reports an update exactly if anything changed |
| `ServiceFollow.Reconciler.Release` | pkg/controllers/follow/service/controller.go:283-287 | takes out the entry at the index; the service disappears with its last finalizer |
| `ServiceFollow.Reconciler.Follow` | pkg/controllers/follow/service/controller.go:162-224 | local service first, then a copy with its ports, selector and type, addresses of its own, reference, cluster name and, on creation, the delegate mark; nothing is written to a copy that is up to date |
| `ServiceFollow.Reconciler.Handle` | pkg/controllers/follow/service/controller.go:107-230 | all branches: orphan, delegate, failed recovery, unowned, terminating, following, idle |
| `ServiceFollow.PreparedTwice` | pkg/controllers/follow/service/controller.go:162-192 | a second run that finds the same original selector has nothing to prepare |
| `ServiceFollow.FollowConverges` | pkg/controllers/follow/service/controller.go:162-224 | after a following run the copy is owned and up to date, and the next run writes neither service, if and only if it was not just created from an external name that still has cluster addresses |
| `ServiceFollow.OriginalSelectorKept` | pkg/controllers/follow/service/controller.go:232-262 | every run of every target's controller finds the original selector if and only if services are not rerouted or the pattern treats the whole selector alike |
| `ServiceFollow.PartIsLost` | pkg/controllers/follow/service/controller.go:244-249 | a pattern that keeps part of the selector makes the next run take that part for the whole |
| `IngressFollow.ShouldUpdate` | pkg/controllers/follow/ingress/controller.go:213-247 | the loops compute the refreshed copy and report an update exactly if it differs |
| `IngressFollow.DiffAnnotations` | pkg/controllers/follow/ingress/controller.go:220-231 | exactly the user annotations the copy lacks or has with another value |
| `IngressFollow.RefreshConverges` | pkg/controllers/follow/ingress/controller.go:213-247 | refreshing again changes nothing; user annotations and specification are the source's; prefixed and remote-only annotations are untouched |
| `IngressFollow.CreatedIsUpToDate` | pkg/controllers/follow/ingress/controller.go:289-305 | a copy just created is owned, marked as delegate and global, otherwise carries the source's labels and annotations, and needs no update |
| `IngressFollow.GuardedIsGlobal` | pkg/controllers/follow/ingress/controller.go:269-281 | the guarded ingress has the finalizer, its label and the global mark, and is otherwise the same |
| `Webhook.Admitted.SaveSource` | pkg/webhooks/proxypod/proxypod.go:46-66 | the manifest is saved once |
| `Webhook.Admitted.Constrain` | pkg/webhooks/proxypod/proxypod.go:68-113 | base constraints, plus the separate ones or the source's |
| `Webhook.Admitted.SetConstraints` | pkg/webhooks/proxypod/proxypod.go:91-101 | the given constraints on top of the base ones |
| `Webhook.Admitted.SetFinalizers` | pkg/webhooks/proxypod/proxypod.go:127-144 | foreign finalizers in order, then those of the namespace's targets; the label is set |
| `Webhook.MutatedFate` | pkg/webhooks/proxypod/proxypod.go:35-147 | a pod without the annotation is unchanged; another is refused exactly if a text in its annotations cannot be read, and otherwise changed in the stated fields only |
| `Webhook.Admitted.Default` | pkg/webhooks/proxypod/proxypod.go:35-147 | in place and field by field: scheduler, grace period, base constraints with the chosen ones on top, finalizers, label and manifest; all other fields stay; refused or unchanged exactly when stated |
| `Webhook.DefaultIdempotent` | pkg/webhooks/proxypod/proxypod.go:46-144 | admitting an admitted pod changes nothing |
| `Webhook.AdmittingManyTimes` | pkg/webhooks/proxypod/proxypod.go:46-144 | n admissions amount to one |
| `Webhook.SourceRecovered` | pkg/model/proxypod/model.go:38-48 | the pod as first admitted is recovered after any number of admissions |
| `DelegatePod.FindMount` | pkg/model/delegatepod/model.go:125-132 | finds the first service account mount |
| `DelegatePod.StripContainers` | pkg/model/delegatepod/model.go:124-137 | drops it from each container in place and remembers the volume's name |
| `DelegatePod.RemoveServiceAccount` | pkg/model/delegatepod/model.go:122-163 | the nested loops drop the first service account mount of each container and the volume last seen |
| `DelegatePod.ServiceAccountRemoved` | pkg/model/delegatepod/model.go:122-163 | with distinct mount paths and volume names exactly the service account's mounts and volume go, and the rest stays in order |
| `DelegatePod.ServiceAccountAbsent` | pkg/model/delegatepod/model.go:122-163 | without such a mount nothing goes |
| `DelegatePod.MakeSpec` | pkg/model/delegatepod/model.go:63-83 | the copied specification is edited into the delegate's |
| `DelegatePod.MakeDelegatePod` | pkg/model/delegatepod/model.go:37-86 | fails exactly without a readable manifest or with an invalid pattern; otherwise a delegate of the source pod, with its scheduler, priority, constraints, annotations and reference as stated |
| `DelegatePod.DelegateFate` | pkg/model/delegatepod/model.go:43-85 | the delegate field by field: candidate scheduler unless reservations are off, no priority, user annotations, reference |
| `DelegatePod.DelegateIsNewCandidate` | pkg/model/delegatepod/model.go:43-65 | a stored delegate is a new candidate of the election: referenced, with no mark of the protocol |
| `DelegatePod.DelegateIsSelected` | pkg/model/delegatepod/model.go:53-67 | a rerouted service that selected the source pod selects the delegate |
| `DelegatePod.ConstraintsSplit` | pkg/model/delegatepod/model.go:67-72 | where the scheduling constraints end up, in all four combinations of the two annotations |
| `DelegatePod.ConstraintsCarried` | pkg/webhooks/proxypod/proxypod.go:85-113 | the source's constraints are lost if and only if both annotations are present, there are any, and the separate ones do not amount to them |
| `Aggregation.AddAll` | pkg/controllers/resources/downstream.go:82-97 | adds one node's resources to the totals |
| `Aggregation.MergeLabels` | pkg/controllers/resources/downstream.go:98-108 | merges one node's labels, remembering disputed keys |
| `Aggregation.Summarize` | pkg/controllers/resources/downstream.go:81-109 | each total is the sum over the nodes reporting it; a label is published exactly if some node has it and all that have it agree |
| `Aggregation.Handle` | pkg/controllers/resources/downstream.go:70-109 | the same over the nodes that are not virtual |
| `Aggregation.ListedFate` | pkg/controllers/resources/downstream.go:75-80 | a node is listed, as often as it occurs, exactly if it lacks the provider label of virtual nodes |
| `Aggregation.OneNode` | pkg/controllers/resources/downstream.go:81-109 | a single node is summarized as its own capacity, allocatable resources and labels |
| `Aggregation.TotalsAdd` | pkg/controllers/resources/downstream.go:81-97 | capacities and allocatable amounts add up over any split of the nodes |
| `Aggregation.OrderDoesNotMatter` | pkg/controllers/resources/downstream.go:70-109 | any two orders of the nodes give the same summary |

## Left out

- Generated clients, listers, informers, deep copies, scheme registration and custom resource types.
- The virtual kubelet (`pkg/vk`), leader election and the commands' wiring.
- The source controllers and the upstream half of the resource controller; in particular, that base labels
  survive on virtual nodes is a premise of the cleanup result.
- The internals of regular expressions, YAML, SHA-256, selector parsing and the work queue.
- That at most one candidate is ever bound: the allowed mark is never revoked, so it does not hold.
- Finalizer safety for proxy pods: Filter may create a candidate after the finalizer is gone, and targets
  that span the cluster add no finalizer to pods. The orphan branch covers these.
- Quiescence of service runs: a rerouted service is reported as changed on every run.
- `Handle` of the ingress controller and its choice of ingresses to follow: its branches are those of config
  maps; only its update and its copy are modelled.
- Safety, deletion and non-interference of services and ingresses: they are proved for config maps and secrets.
- Wall-clock durations of polling; only the arithmetic of missing pods has time.
- Bytes of strings: names and keys are sequences of characters.
- FollowDeletionRuns.ReachableDeletionTerminates: a turn is a whole run in which no call fails; runs of different
  targets whose calls interleave may conflict on the object's version, and a run that fails has to be repeated.
- FollowDeletion.DeletionTerminates: who releases a copy's own finalizers is left open; for copies followed onward
  it is the same protocol one cluster further on. New finalizers on a copy that is not terminating yet, and
  namesakes that are not copies, are not among the turns.
- FollowNetwork.NonInterference: runs are atomic; a run that fails after adding its finalizer is covered as an
  edit of the source object.
- Feedback.Controller.Handle: a failing call in the middle of a run is not modelled here; in the election,
  single deletions of feedback runs may fail or be delayed.
- Webhook.Admitted.Default: marshalling a pod is assumed not to fail.
