/** The feedback controller of one target: it copies the delegate's status and annotations back to the
    proxy pod, deletes candidates that are no longer wanted, and releases the proxy pod's finalizer once
    none is left. */
module Feedback {
  import opened Kube
  import opened RemoteControl
  import ChaperonServer
  import ElectionModel

  datatype ContainerStatus = ContainerStatus(name: string, detail: string)

  datatype Status = Status(phase: string, containers: seq<ContainerStatus>, initContainers: seq<ContainerStatus>,
                           ephemeralContainers: seq<ContainerStatus>)

  datatype Pod = Pod(uid: string, node: string, terminating: bool, finalizers: seq<string>,
                     annotations: map<string, string>,
                     containers: seq<string>, initContainers: seq<string>, ephemeralContainers: seq<string>,
                         status: Status)

  datatype Chaperon = Chaperon(labels: map<string, string>, annotations: map<string, string>, status: Status)

  // ---- Container statuses ----

  /** The statuses of known containers, in order. */
  function Known(statuses: seq<ContainerStatus>, names: seq<string>): seq<ContainerStatus> {
    if statuses == [] then []
    else (if statuses[0].name in names then [statuses[0]] else []) + Known(statuses[1..], names)
  }

  lemma {:induction false} KnownConcat(a: seq<ContainerStatus>, b: seq<ContainerStatus>, names: seq<string>)
    ensures Known(a + b, names) == Known(a, names) + Known(b, names)
  {
    if a == [] {
      assert a + b == b;
    } else {
      assert (a + b)[1..] == a[1..] + b && (a + b)[0] == a[0];
      KnownConcat(a[1..], b, names);
      var head := if a[0].name in names then [a[0]] else [];
      assert head + (Known(a[1..], names) + Known(b, names)) == (head + Known(a[1..], names)) + Known(b, names);
    }
  }

  lemma {:induction false} KnownAll(a: seq<ContainerStatus>, names: seq<string>)
    requires forall s :: s in a ==> s.name in names
    ensures Known(a, names) == a
  {
    if a != [] {
      KnownAll(a[1..], names);
      assert [a[0]] + a[1..] == a;
    }
  }

  function NamedIn(names: seq<string>): ContainerStatus -> bool {
    (s: ContainerStatus) => s.name in names
  }

  /** The kept statuses are those of the named containers, each in its place. */
  ghost predicate Keeps(kept: seq<ContainerStatus>, statuses: seq<ContainerStatus>, names: seq<string>) {
    exists at :: Selects(kept, statuses, at, NamedIn(names))
  }

  lemma KnownMore(init: seq<ContainerStatus>, s: ContainerStatus, names: seq<string>)
    ensures Known(init + [s], names) == if s.name in names then Known(init, names) + [s] else Known(init, names)
  {
    KnownConcat(init, [s], names);
    assert [s][1..] == [];
    assert Known(init, names) + [] == Known(init, names);
  }

  lemma KeepsMore(kept: seq<ContainerStatus>, init: seq<ContainerStatus>, s: ContainerStatus, names: seq<string>,
                  kept': seq<ContainerStatus>, statuses: seq<ContainerStatus>)
    requires Keeps(kept, init, names) && statuses == init + [s]
    requires kept' == if s.name in names then kept + [s] else kept
    ensures Keeps(kept', statuses, names)
  {
    var at :| Selects(kept, init, at, NamedIn(names));
    if s.name in names {
      SelectsTaken(kept, init, at, NamedIn(names), s);
    } else {
      SelectsSkipped(kept, init, at, NamedIn(names), s);
    }
  }

  lemma KnownKeepsMore(init: seq<ContainerStatus>, s: ContainerStatus, names: seq<string>,
                       statuses: seq<ContainerStatus>)
    requires Keeps(Known(init, names), init, names) && statuses == init + [s]
    ensures Keeps(Known(statuses, names), statuses, names)
  {
    KnownMore(init, s, names);
    KeepsMore(Known(init, names), init, s, names, Known(statuses, names), statuses);
  }

  lemma {:induction false} KnownKeeps(statuses: seq<ContainerStatus>, names: seq<string>)
    ensures Keeps(Known(statuses, names), statuses, names)
  {
    if statuses == [] {
      assert Selects<ContainerStatus>([], [], [], NamedIn(names));
    } else {
      var init, s := statuses[..|statuses| - 1], statuses[|statuses| - 1];
      assert statuses == init + [s];
      KnownKeeps(init, names);
      KnownKeepsMore(init, s, names, statuses);
    }
  }

  method HasName(names: seq<string>, name: string) returns (found: bool)
    ensures found <==> name in names
  {
    for i := 0 to |names|
      invariant name !in names[..i]
    {
      if names[i] == name {
        return true;
      }
    }
    return false;
  }

  /** Copies on the first status to drop; until then the result is the list itself. */
  method FilterContainerStatuses(statuses: seq<ContainerStatus>, names: seq<string>)
    returns (kept: seq<ContainerStatus>)
    ensures kept == Known(statuses, names) && Keeps(kept, statuses, names)
    ensures (forall s :: s in statuses ==> s.name in names) ==> kept == statuses
  {
    var copied := false;
    kept := statuses;
    for i := 0 to |statuses|
      invariant copied ==> kept == Known(statuses[..i], names)
      invariant !copied ==> kept == statuses && forall s :: s in statuses[..i] ==> s.name in names
      invariant copied ==> exists s :: s in statuses[..i] && s.name !in names
    {
      var s := statuses[i];
      assert statuses[..i + 1] == statuses[..i] + [s];
      KnownConcat(statuses[..i], [s], names);
      assert [s][1..] == [];
      var found := HasName(names, s.name);
      if found {
        if copied {
          kept := kept + [s];
        }
      } else if !copied {
        KnownAll(statuses[..i], names);
        kept := statuses[..i];
        copied := true;
      }
    }
    assert statuses[..|statuses|] == statuses;
    if !copied {
      KnownAll(statuses, names);
    }
    KnownKeeps(statuses, names);
  }

  function FilteredStatus(pod: Pod, status: Status): Status {
    Status(status.phase, Known(status.containers, pod.containers), Known(status.initContainers, pod.initContainers),
           Known(status.ephemeralContainers, pod.ephemeralContainers))
  }

  method FilterContainerStatus(pod: Pod, status: Status) returns (r: Status)
    ensures r == FilteredStatus(pod, status)
  {
    var containers := FilterContainerStatuses(status.containers, pod.containers);
    var initContainers := FilterContainerStatuses(status.initContainers, pod.initContainers);
    var ephemeralContainers := FilterContainerStatuses(status.ephemeralContainers, pod.ephemeralContainers);
    r := Status(status.phase, containers, initContainers, ephemeralContainers);
  }

  // ---- The controller ----

  /** Chaperons of the pod with the given UID, in its namespace. */
  function Candidates(chaperons: map<Key, Chaperon>, ns: string, uid: string): set<Key> {
    set k | k in chaperons && k.ns == ns && LABEL_PARENT_UID in chaperons[k].labels
        && chaperons[k].labels[LABEL_PARENT_UID] == uid
  }

  /** What the index holds for a missing pod. */
  function Orphans(chaperons: map<Key, Chaperon>, cluster: string, pod: Key): set<Key> {
    set k | k in chaperons && IsRemoteControlled(chaperons[k].labels, cluster)
        && ParentKey(k, chaperons[k].annotations) == QueueKey(pod)
  }

  /** The chaperons a run for `pod` of the controller for `node` deletes. */
  function Doomed(pods: map<Key, Pod>, chaperons: map<Key, Chaperon>, cluster: string, node: string,
                  pod: Key): set<Key> {
    if pod !in pods then set k | k in Orphans(chaperons, cluster, pod) :: Key(pod.ns, k.name)
    else
      var p, l := pods[pod], Candidates(chaperons, pod.ns, pods[pod].uid);
      if |l| > 1 then {}
      else set k | k in l && (Released(p, node) || ANNOTATION_MISSING_SINCE in chaperons[k].annotations)
  }

  /** The pod terminates or is bound elsewhere. */
  predicate Released(p: Pod, node: string) {
    p.terminating || (p.node != "" && p.node != node)
  }

  /** What becomes of a pod without a candidate in this target: the finalizer goes if the pod needs no delegate
      here, and a pod that is bound here has lost its delegate and is deleted. */
  function AbsentAfter(p: Pod, node: string, finalizer: string): Option<Pod> {
    var p' := if Released(p, node) && finalizer in p.finalizers
              then p.(finalizers := Without(p.finalizers, FirstIndex(p.finalizers, finalizer))) else p;
    if p' != p && p'.terminating && p'.finalizers == [] then None
    else if p.node != node then Some(p')
    else if p'.finalizers == [] then None
    else Some(p'.(terminating := true))
  }

  /** What becomes of a pod with a candidate: if it is bound here it mirrors its delegate. */
  function PresentAfter(p: Pod, node: string, candidate: Chaperon): Pod {
    if p.node != node then p
    else p.(annotations := Ours(p.annotations) + Others(candidate.annotations),
            status := FilteredStatus(p, candidate.status))
  }

  /** The pod mirrors its delegate: the delegate's phase; in each of its three lists the statuses of the pod's own
      containers of that kind, in order; the delegate's user annotations next to the pod's prefixed ones. */
  ghost predicate Mirrors(p: Pod, seen: Chaperon, q: Pod) {
    && q == p.(annotations := q.annotations, status := q.status)
    && q.status.phase == seen.status.phase
    && Keeps(q.status.containers, seen.status.containers, p.containers)
    && Keeps(q.status.initContainers, seen.status.initContainers, p.initContainers)
    && Keeps(q.status.ephemeralContainers, seen.status.ephemeralContainers, p.ephemeralContainers)
    && (forall k :: IsOurs(k) ==> SameEntry(q.annotations, p.annotations, k))
    && (forall k :: !IsOurs(k) ==> SameEntry(q.annotations, seen.annotations, k))
  }

  /** What becomes of a pod with a candidate. */
  lemma PresentFate(p: Pod, node: string, candidate: Chaperon)
    ensures var q := PresentAfter(p, node, candidate); if p.node == node then Mirrors(p, candidate, q) else q == p
  {
    KnownKeeps(candidate.status.containers, p.containers);
    KnownKeeps(candidate.status.initContainers, p.initContainers);
    KnownKeeps(candidate.status.ephemeralContainers, p.ephemeralContainers);
  }

  /** Which chaperons of a pod that exists are deleted. */
  lemma DoomedFate(pods: map<Key, Pod>, chaperons: map<Key, Chaperon>, cluster: string, node: string, pod: Key, k: Key)
    requires pod in pods && k in chaperons && |Candidates(chaperons, pod.ns, pods[pod].uid)| <= 1
    ensures k in Doomed(pods, chaperons, cluster, node, pod) <==>
      && k.ns == pod.ns && LABEL_PARENT_UID in chaperons[k].labels
      && chaperons[k].labels[LABEL_PARENT_UID] == pods[pod].uid
      && (|| pods[pod].terminating || (pods[pod].node != "" && pods[pod].node != node)
          || ANNOTATION_MISSING_SINCE in chaperons[k].annotations)
  {
  }

  /** When a pod without a candidate survives a run, and as what. */
  lemma AbsentFate(p: Pod, node: string, finalizer: string)
    ensures var q := AbsentAfter(p, node, finalizer);
      && (q.None? <==>
            || (p.terminating && p.finalizers == [finalizer])
            || (p.node == node && p.finalizers == []))
      && (q.Some? ==>
            && (q.value.terminating <==> p.terminating || p.node == node)
            && q.value == p.(finalizers := q.value.finalizers, terminating := q.value.terminating)
            && (if finalizer in p.finalizers && (p.terminating || (p.node != "" && p.node != node))
                then exists j :: TakenAt(p.finalizers, finalizer, j, q.value.finalizers)
                else q.value.finalizers == p.finalizers))
  {
    if Released(p, node) && finalizer in p.finalizers {
      var j := FirstIndex(p.finalizers, finalizer);
      assert TakenAt(p.finalizers, finalizer, j, Without(p.finalizers, j));
      assert |p.finalizers| == 1 ==> p.finalizers == [finalizer];
    }
  }

  /** The entry at j is this finalizer, and is the one that is missing. */
  ghost predicate TakenAt(fs: seq<string>, finalizer: string, j: int, fs': seq<string>) {
    0 <= j < |fs| && fs[j] == finalizer && fs' == fs[..j] + fs[j + 1..]
  }

  datatype Outcome = Done | Error

  class Controller {
    const clusterName: string
    const node: string
    const finalizer: string
    var pods: map<Key, Pod>
    var chaperons: map<Key, Chaperon>

    constructor (clusterName: string, node: string, finalizer: string)
      ensures this.clusterName == clusterName && this.node == node && this.finalizer == finalizer
      ensures pods == map[] && chaperons == map[]
    {
      this.clusterName, this.node, this.finalizer := clusterName, node, finalizer;
      pods, chaperons := map[], map[];
    }

    /** The pod is gone: delete every chaperon the index has for it, one call at a time. */
    method DeleteOrphans(pod: Key)
      modifies this`chaperons
      ensures chaperons ==
          old(chaperons) - (set k | k in Orphans(old(chaperons), clusterName, pod) :: Key(pod.ns, k.name))
    {
      var orphans := Orphans(chaperons, clusterName, pod);
      var todo := orphans;
      ghost var done: set<Key> := {};
      while todo != {}
        invariant todo <= orphans && done == orphans - todo
        invariant chaperons == old(chaperons) - (set k | k in done :: Key(pod.ns, k.name))
      {
        var k :| k in todo;
        chaperons := chaperons - {Key(pod.ns, k.name)};
        todo := todo - {k};
        done := done + {k};
      }
    }

    /** A terminating pod without finalizers disappears. */
    method RemoveFinalizer(pod: Key, j: nat)
      requires pod in pods && j < |pods[pod].finalizers|
      modifies this`pods
      ensures var p := old(pods)[pod].(finalizers := Without(old(pods)[pod].finalizers, j));
        pods == if p.terminating && p.finalizers == [] then old(pods) - {pod} else old(pods)[pod := p]
    {
      var p := pods[pod].(finalizers := Without(pods[pod].finalizers, j));
      if p.terminating && p.finalizers == [] {
        pods := pods - {pod};
      } else {
        pods := pods[pod := p];
      }
    }

    /** Copies the delegate's view onto the proxy pod, and the cluster name onto the delegate. */
    method CopyBack(pod: Key, delegate: Key, seen: Chaperon)
      requires pod in pods
      modifies this
      ensures pods == old(pods)[pod := old(pods)[pod].(
                annotations := Ours(old(pods)[pod].annotations) + Others(seen.annotations),
                status := FilteredStatus(old(pods)[pod], seen.status))]
      ensures pod in pods && Mirrors(old(pods)[pod], seen, pods[pod])
      ensures chaperons == old(chaperons) || (delegate in old(chaperons)
                && chaperons ==
                    old(chaperons)[delegate := seen.(labels := seen.labels[LABEL_PARENT_CLUSTER := clusterName])])
      ensures delegate in chaperons <==> delegate in old(chaperons)
      ensures delegate in chaperons && old(chaperons)[delegate] == seen ==>
        Lookup(chaperons[delegate].labels, LABEL_PARENT_CLUSTER) == clusterName
    {
      var p := pods[pod];
      PresentFate(p, p.node, seen);
      SplitAndMerge(p.annotations, seen.annotations);
      if Others(p.annotations) != Others(seen.annotations) {
        p := p.(annotations := Ours(p.annotations) + Others(seen.annotations));
      }
      var status := FilterContainerStatus(p, seen.status);
      p := p.(status := status);
      pods := pods[pod := p];
      if Lookup(seen.labels, LABEL_PARENT_CLUSTER) != clusterName {
        if delegate in chaperons && chaperons[delegate] == seen {
          chaperons := chaperons[delegate := seen.(labels := seen.labels[LABEL_PARENT_CLUSTER := clusterName])];
        }
      }
    }

    /** One run: which chaperons disappear and what becomes of the pod; no other pod changes. */
    method Handle(pod: Key) returns (outcome: Outcome)
      modifies this
      // a missing pod: exactly the chaperons recorded for it go
      ensures pod !in old(pods) ==>
        && pods == old(pods)
        && chaperons == old(chaperons) - (set k | k in Orphans(old(chaperons), clusterName, pod) :: Key(pod.ns, k.name))
      // a pod with several candidates is left alone
      ensures pod in old(pods) && |Candidates(old(chaperons), pod.ns, old(pods)[pod].uid)| > 1 ==>
        outcome == Error && pods == old(pods) && chaperons == old(chaperons)
      // an unwanted candidate is deleted and nothing else disappears
      ensures chaperons.Keys == old(chaperons).Keys - Doomed(old(pods), old(chaperons), clusterName, node, pod)
      // a pod without a candidate
      ensures pod in old(pods) && Candidates(old(chaperons), pod.ns, old(pods)[pod].uid) == {} ==>
        pods == Replaced(old(pods), pod, AbsentAfter(old(pods)[pod], node, finalizer))
      // a pod with its candidate
      ensures pod in old(pods) ==> forall k :: Candidates(old(chaperons), pod.ns, old(pods)[pod].uid) == {k} ==>
        && pods == old(pods)[pod := PresentAfter(old(pods)[pod], node, old(chaperons)[k])]
        && (old(pods)[pod].node == node ==> Mirrors(old(pods)[pod], old(chaperons)[k], pods[pod]))
        && (old(pods)[pod].node != node ==> pods[pod] == old(pods)[pod])
      // a delegate that stays carries the cluster name
      ensures pod in old(pods) && old(pods)[pod].node == node ==>
        forall k :: Candidates(old(chaperons), pod.ns, old(pods)[pod].uid) == {k} && k in chaperons ==>
          Lookup(chaperons[k].labels, LABEL_PARENT_CLUSTER) == clusterName
    {
      if pod !in pods {
        DeleteOrphans(pod);
        return Done;
      }
      var p := pods[pod];
      var hasFinalizer, j := HasFinalizer(p.finalizers, finalizer);
      var l := Candidates(chaperons, pod.ns, p.uid);
      if |l| > 1 {
        return Error;
      }
      if l == {} {
        HandleAbsent(pod, hasFinalizer, j);
        return Done;
      }
      var k :| k in l;
      Singleton(l, k);
      var candidate := chaperons[k];
      if Released(p, node) {
        chaperons := chaperons - {k};
      }
      if ANNOTATION_MISSING_SINCE in candidate.annotations {
        chaperons := chaperons - {k};
      }
      if p.node == node {
        CopyBack(pod, k, candidate);
      }
      assert p.node != node ==> pods[pod := p] == pods;
      return Done;
    }

    /** No candidate in this target. */
    method HandleAbsent(pod: Key, hasFinalizer: bool, j: int)
      requires pod in pods && (hasFinalizer <==> finalizer in pods[pod].finalizers)
      requires hasFinalizer ==>
        0 <= j < |pods[pod].finalizers| && pods[pod].finalizers[j] == finalizer
            && finalizer !in pods[pod].finalizers[..j]
      modifies this`pods
      ensures pods == Replaced(old(pods), pod, AbsentAfter(old(pods)[pod], node, finalizer))
    {
      var p := pods[pod];
      if hasFinalizer {
        FirstIndexIs(p.finalizers, finalizer, j);
      }
      if Released(p, node) && hasFinalizer {
        RemoveFinalizer(pod, j);
      }
      assert pods[pod := p] == pods || Released(p, node);
      if p.node == node && pod in pods {
        if pods[pod].finalizers == [] {
          pods := pods - {pod};
        } else {
          pods := pods[pod := pods[pod].(terminating := true)];
        }
      }
    }
  }

  /** One pod changes or goes. */
  function Replaced(pods: map<Key, Pod>, pod: Key, p: Option<Pod>): map<Key, Pod> {
    if p.Some? then pods[pod := p.value] else pods - {pod}
  }

  lemma Singleton(l: set<Key>, k: Key)
    requires |l| <= 1 && k in l
    ensures l == {k}
  {
    assert |l - {k}| == 0;
  }

  // ---- Orphans ----

  /** The branch for a missing pod deletes exactly the chaperons recorded for that pod from this cluster:
      those in the pod's namespace that were given its reference. */
  lemma OrphansAreRecorded(chaperons: map<Key, Chaperon>, cluster: string, pod: Key, k: Key, parent: Key,
                           source: string)
    requires k in chaperons && RecordedFor(Child(k, chaperons[k].labels, chaperons[k].annotations), parent, source)
    requires parent.ns != "" && parent.name != "" && '/' !in parent.ns && pod.ns != "" && '/' !in pod.ns
    ensures k in Orphans(chaperons, cluster, pod) <==> (pod == parent && cluster == source)
  {
    IndexAgreesWithScan(Child(k, chaperons[k].labels, chaperons[k].annotations), parent, source, pod, cluster);
  }

  /** The controller and the election agree on what is visible of the pod and of the target. */
  ghost predicate SameView(s: ElectionModel.State, c: string, pod: Key, pods: map<Key, Pod>,
                           chaperons: map<Key, Chaperon>)
    requires c in s.clusters
  {
    var objs := s.clusters[c].api.objs;
    && chaperons.Keys == objs.Keys
    && (forall k :: k in objs ==>
          chaperons[k].labels == objs[k].labels && chaperons[k].annotations == objs[k].annotations)
    && (pod in pods <==> pod in s.pods)
    && (pod in pods ==>
          pods[pod].uid == s.pods[pod].uid && pods[pod].node == s.pods[pod].node
              && pods[pod].terminating == s.pods[pod].terminating)
  }

  /** A run deletes what the election's feedback step decides to delete, so that results about whole runs
      are about this controller. */
  lemma DoomedIsDecided(cfg: ElectionModel.Config, s: ElectionModel.State, c: string, pod: Key, pods: map<Key, Pod>,
                        chaperons: map<Key, Chaperon>)
    requires c in s.clusters && SameView(s, c, pod, pods, chaperons)
    ensures Doomed(pods, chaperons, cfg.clusterName, c, pod) == ElectionModel.FeedbackDecision(cfg, s, c, pod)
  {
    if pod in pods {
      var l := Candidates(chaperons, pod.ns, pods[pod].uid);
      assert l == ChaperonServer.ListByParent(s.clusters[c].api, pod.ns, pods[pod].uid);
    } else {
      var l := Orphans(chaperons, cfg.clusterName, pod);
      assert l == set k | k in s.clusters[c].api.objs
          && IsRemoteControlled(s.clusters[c].api.objs[k].labels, cfg.clusterName)
                         && ParentKey(k, s.clusters[c].api.objs[k].annotations) == QueueKey(pod);
    }
  }
}
