/** Once a proxy pod is bound, its delegate stays: neither PostBind, nor any target's feedback
    controller, nor their orphan branches take it away. */
module ElectionStability {
  import opened Kube
  import opened RemoteControl
  import opened ChaperonServer
  import opened ElectionModel
  import opened ElectionInvariant
  import opened ElectionHistory
  import opened ElectionGate

  /** The pod is alive and not bound elsewhere than in n, and `k` is its chaperon there. */
  ghost predicate Owned(s: State, pod: Key, n: string, k: Key) {
    && pod in s.pods && !s.pods[pod].terminating && (s.pods[pod].node == "" || s.pods[pod].node == n)
    && n in s.clusters && k in s.clusters[n].api.objs
    && Parent(s.clusters[n].api.objs[k]) == s.pods[pod].uid
  }

  /** The pod is bound to n and alive, and `k` is its chaperon there, not marked missing. */
  ghost predicate LiveDelegate(s: State, pod: Key, n: string, k: Key) {
    && Owned(s, pod, n, k) && s.pods[pod].node == n && n != ""
    && ANNOTATION_MISSING_SINCE !in s.clusters[n].api.objs[k].annotations
  }

  /** And no feedback run in flight has decided to delete it. */
  ghost predicate IsDelegate(s: State, pod: Key, n: string, k: Key) {
    LiveDelegate(s, pod, n, k) && k !in s.clusters[n].deciding
  }

  /** What may legitimately end it: the pod goes away, a user deletes the chaperon, or the chaperon
      controller finds the delegate pod missing. */
  ghost predicate Hostile(step: Step, pod: Key, n: string, k: Key) {
    || step == PodStep(pod, Terminating)
    || step == PodStep(pod, Gone)
    || step == Target(n, ChaperonDeleted(k))
    || (step.Target? && step.c == n && step.act.SyncStampMissing? && step.act.k == k)
  }

  // ---- The target's server ----

  lemma TargetKeeps(cfg: Config, s: State, c: string, act: TargetCall, k: Key)
    requires c in s.clusters && TargetEnabled(cfg, s, c, act)
    requires k in s.clusters[c].api.objs && k !in s.clusters[c].deciding
    requires !(act.ChaperonDeleted? && act.k == k)
    ensures k in ApplyTarget(cfg, s, c, act).api.objs
  {
  }

  lemma StampElsewhere(api: Server, k: Key, k': Key, stamp: string)
    requires Valid(api) && k in api.objs && k != k'
    ensures var b := After(api, PatchAnnotations(api, k', StampMissing(stamp))); k in b.objs && b.objs[k] == api.objs[k]
  {
  }

  lemma TargetUnmarked(cfg: Config, s: State, c: string, act: TargetCall, k: Key)
    requires Inv(cfg, s) && c in s.clusters && TargetEnabled(cfg, s, c, act)
    requires k in s.clusters[c].api.objs && k !in s.clusters[c].deciding
    requires Parent(s.clusters[c].api.objs[k]) in s.issued
    requires ANNOTATION_MISSING_SINCE !in s.clusters[c].api.objs[k].annotations
    requires !((act.ChaperonDeleted? || act.SyncStampMissing?) && act.k == k)
    ensures var objs' := ApplyTarget(cfg, s, c, act).api.objs;
      && k in objs' && Parent(objs'[k]) == Parent(s.clusters[c].api.objs[k])
      && ANNOTATION_MISSING_SINCE !in objs'[k].annotations
  {
    var a := s.clusters[c].api;
    var b := ApplyTarget(cfg, s, c, act).api;
    assert ClusterOk(s.clusters[c]);
    TargetKeeps(cfg, s, c, act, k);
    if act.SyncStampMissing? {
      StampElsewhere(a, k, act.k, act.stamp);
    } else {
      TargetChange(cfg, s, c, act);
      ChangeParent(cfg, s.issued, a, b, k);
      ChangeMarks(cfg, s.issued, a, b, false, k);
    }
  }

  lemma ChangeParent(cfg: Config, issued: map<string, Key>, a: Server, b: Server, k: Key)
    requires Valid(a) && Change(cfg, issued, a, b, false) && k in a.objs && k in b.objs
    ensures Parent(b.objs[k]) == Parent(a.objs[k])
  {
    if o :| WritesOne(cfg, issued, a, b, o, false) {
      assert Parent(o.(rv := a.rev + 1)) == Reference(o).uid;
    } else if o :| CreatesForeign(cfg, issued, a, b, o) {
      assert a.objs[k] in a.served;
    }
  }

  // ---- Feedback decisions ----

  /** A feedback run that decides to delete the chaperon of a pod alive and not bound elsewhere is a run for
      that very pod, and found the chaperon marked: neither the orphan branch nor a run for another pod does. */
  lemma CondemnedOnlyIfMarked(cfg: Config, s: State, pod: Key, n: string, k: Key, other: Key)
    requires Inv(cfg, s) && NamingInv(cfg, s) && Owned(s, pod, n, k)
    requires other.ns != "" && '/' !in other.ns && k in FeedbackDecision(cfg, s, n, other)
    ensures other == pod && ANNOTATION_MISSING_SINCE in s.clusters[n].api.objs[k].annotations
  {
    var api := s.clusters[n].api;
    assert ClusterOk(s.clusters[n]) && ReferencesOk(cfg, s.issued, n, api);
    if other !in s.pods {
      var k' :| k' in api.objs && IsRemoteControlled(api.objs[k'].labels, cfg.clusterName)
                && ParentKey(k', api.objs[k'].annotations) == QueueKey(other) && Key(other.ns, k'.name) == k;
      OrphanParent(cfg, s, n, k', other);
    }
  }

  /** So no feedback run, for this pod or another, found or missing, decides to delete an unmarked delegate. */
  lemma NotCondemned(cfg: Config, s: State, pod: Key, n: string, k: Key, other: Key)
    requires Inv(cfg, s) && NamingInv(cfg, s) && LiveDelegate(s, pod, n, k)
    requires other.ns != "" && '/' !in other.ns
    ensures k !in FeedbackDecision(cfg, s, n, other)
  {
    if k in FeedbackDecision(cfg, s, n, other) {
      CondemnedOnlyIfMarked(cfg, s, pod, n, k, other);
    }
  }

  /** The orphan branch reaches only chaperons recorded for the missing pod, in its namespace. */
  lemma OrphanParent(cfg: Config, s: State, n: string, k: Key, pod: Key)
    requires Inv(cfg, s) && NamingInv(cfg, s) && n in s.clusters && k in s.clusters[n].api.objs
    requires IsRemoteControlled(s.clusters[n].api.objs[k].labels, cfg.clusterName)
    requires ParentKey(k, s.clusters[n].api.objs[k].annotations) == QueueKey(pod)
    requires pod.ns != "" && '/' !in pod.ns
    ensures k.ns == pod.ns && Parent(s.clusters[n].api.objs[k]) in s.issued
    ensures s.issued[Parent(s.clusters[n].api.objs[k])] == pod
  {
    var api := s.clusters[n].api;
    var o := api.objs[k];
    assert ClusterOk(s.clusters[n]) && LabelsOk(cfg, s.issued, api) && o in api.served;
    assert ReferencesOk(cfg, s.issued, n, api) && ReferenceOk(cfg, s.issued, n, o);
    QueueKeyInjective(s.issued[Parent(o)], pod);
  }

  // ---- The proxy scheduler ----

  lemma PostBindSpares(cfg: Config, s: State, u: string, c: string, pod: Key, n: string, k: Key)
    requires Inv(cfg, s) && IsDelegate(s, pod, n, k) && ProxyEnabled(cfg, s, u, PostBindDelete(c, true))
    ensures c == n ==> k !in Candidates(s, c, u)
  {
    assert CycleOk(cfg, s, u);
    if u == s.pods[pod].uid {
      assert s.cycles[u].key == pod;
    }
  }

  lemma AllowKeeps(a: Server, candidate: Key, k: Key)
    requires Valid(a) && k in a.objs
    ensures var b := After(a, PatchAnnotations(a, candidate, ALLOW));
      && k in b.objs && Parent(b.objs[k]) == Parent(a.objs[k])
      && (ANNOTATION_MISSING_SINCE in b.objs[k].annotations ==> ANNOTATION_MISSING_SINCE in a.objs[k].annotations)
  {
    OurKeys();
  }

  /** The delegate's cluster may change elsewhere, and other pods may change. */
  lemma SameDelegate(s: State, s': State, pod: Key, n: string, k: Key)
    requires IsDelegate(s, pod, n, k) && pod in s'.pods && s'.pods[pod] == s.pods[pod]
    requires n in s'.clusters && s'.clusters[n].deciding == s.clusters[n].deciding
    requires k in s'.clusters[n].api.objs && s'.clusters[n].api.objs[k] == s.clusters[n].api.objs[k]
    ensures IsDelegate(s', pod, n, k)
  {
  }

  lemma WriteElsewhere(api: Server, k: Key, o: Chaperon)
    requires Valid(api) && k in api.objs && Fresh(api, o.key)
    ensures k in Write(api, o).objs && Write(api, o).objs[k] == api.objs[k]
  {
    assert api.objs[k] in api.served;
  }

  lemma CreateKeepsDelegate(cfg: Config, s: State, u: string, call: ProxyCall, s': State, pod: Key, n: string, k: Key)
    requires n in s.clusters && ClusterOk(s.clusters[n]) && IsDelegate(s, pod, n, k)
    requires ProxyEnabled(cfg, s, u, call) && s' == ApplyProxy(cfg, s, u, call)
    requires call.FilterCreate? || call.ReserveCreate?
    ensures IsDelegate(s', pod, n, k)
  {
    if n == (if call.FilterCreate? then call.n else s.cycles[u].node) {
      WriteElsewhere(s.clusters[n].api, k, call.obj);
    }
    SameDelegate(s, s', pod, n, k);
  }

  lemma LocalKeepsDelegate(cfg: Config, s: State, u: string, call: ProxyCall, s': State, pod: Key, n: string, k: Key)
    requires IsDelegate(s, pod, n, k) && ProxyEnabled(cfg, s, u, call) && s' == ApplyProxy(cfg, s, u, call)
    requires IsLocal(call) || call.Bind?
    ensures IsDelegate(s', pod, n, k)
  {
    if IsLocal(call) {
      LocalFrame(cfg, s, u, call, s');
    }
    SameDelegate(s, s', pod, n, k);
  }

  lemma PostBindKeepsDelegate(cfg: Config, s: State, u: string, c: string, ok: bool, pod: Key, n: string, k: Key)
    requires Inv(cfg, s) && IsDelegate(s, pod, n, k) && ProxyEnabled(cfg, s, u, PostBindDelete(c, ok))
    ensures IsDelegate(ApplyProxy(cfg, s, u, PostBindDelete(c, ok)), pod, n, k)
  {
    if ok {
      PostBindSpares(cfg, s, u, c, pod, n, k);
    }
  }

  lemma ReserveAllowKeepsDelegate(cfg: Config, s: State, u: string, pod: Key, n: string, k: Key)
    requires Inv(cfg, s) && IsDelegate(s, pod, n, k) && ProxyEnabled(cfg, s, u, ReserveAllow)
    ensures IsDelegate(ApplyProxy(cfg, s, u, ReserveAllow), pod, n, k)
  {
    assert ClusterOk(s.clusters[n]);
    AllowKeeps(s.clusters[n].api, s.cycles[u].stage.candidate, k);
  }

  lemma ProxyKeepsDelegate(cfg: Config, s: State, u: string, call: ProxyCall, s': State, pod: Key, n: string, k: Key)
    requires Inv(cfg, s) && IsDelegate(s, pod, n, k) && ProxyEnabled(cfg, s, u, call)
    requires s' == ApplyProxy(cfg, s, u, call)
    ensures IsDelegate(s', pod, n, k)
  {
    assert ClusterOk(s.clusters[n]);
    if IsLocal(call) || call.Bind? {
      LocalKeepsDelegate(cfg, s, u, call, s', pod, n, k);
    } else if call.PostBindDelete? {
      PostBindKeepsDelegate(cfg, s, u, call.c, call.ok, pod, n, k);
    } else if call.ReserveAllow? {
      ReserveAllowKeepsDelegate(cfg, s, u, pod, n, k);
    } else {
      CreateKeepsDelegate(cfg, s, u, call, s', pod, n, k);
    }
  }

  // ---- Runs ----

  lemma TargetKeepsDelegate(cfg: Config, s: State, act: TargetCall, pod: Key, n: string, k: Key)
    requires Inv(cfg, s) && NamingInv(cfg, s) && IsDelegate(s, pod, n, k) && TargetEnabled(cfg, s, n, act)
    requires !((act.ChaperonDeleted? || act.SyncStampMissing?) && act.k == k)
    ensures IsDelegate(Apply(cfg, s, Target(n, act)), pod, n, k)
  {
    TargetUnmarked(cfg, s, n, act, k);
    if act.FeedbackRead? {
      NotCondemned(cfg, s, pod, n, k, act.pod);
    }
  }

  lemma PodKeepsDelegate(s: State, p: Key, event: PodEvent, pod: Key, n: string, k: Key)
    requires IsDelegate(s, pod, n, k) && PodEnabled(s, p, event) && !Hostile(PodStep(p, event), pod, n, k)
    ensures IsDelegate(ApplyPod(s, p, event), pod, n, k)
  {
    SameDelegate(s, ApplyPod(s, p, event), pod, n, k);
  }

  lemma StepKeepsDelegate(cfg: Config, s: State, step: Step, s': State, pod: Key, n: string, k: Key)
    requires Inv(cfg, s) && NamingInv(cfg, s) && IsDelegate(s, pod, n, k)
    requires Enabled(cfg, s, step) && s' == Apply(cfg, s, step) && !Hostile(step, pod, n, k)
    ensures IsDelegate(s', pod, n, k)
  {
    match step
    case Proxy(u, call) => ProxyKeepsDelegate(cfg, s, u, call, s', pod, n, k);
    case PodStep(p, event) => PodKeepsDelegate(s, p, event, pod, n, k);
    case Target(c, act) =>
      if c == n {
        TargetKeepsDelegate(cfg, s, act, pod, n, k);
      } else {
        SameDelegate(s, s', pod, n, k);
      }
  }

  lemma {:induction false} DelegateIsStable(cfg: Config, run: seq<Step>, s: State, more: seq<Step>, s': State, pod: Key,
                                            n: string, k: Key)
    requires Reaches(cfg, run, s) && IsDelegate(s, pod, n, k) && Reaches(cfg, run + more, s')
    requires forall i :: 0 <= i < |more| ==> !Hostile(more[i], pod, n, k)
    ensures IsDelegate(s', pod, n, k)
    decreases |more|
  {
    if more == [] {
      assert run + more == run;
    } else {
      var init := more[..|more| - 1];
      assert (run + more)[..|run + more| - 1] == run + init;
      var before := Exec(cfg, run + init).value;
      DelegateIsStable(cfg, run, s, init, before, pod, n, k);
      ReachablePast(cfg, run + init, before);
      StepKeepsDelegate(cfg, before, more[|more| - 1], s', pod, n, k);
    }
  }
}
