/** Exactly when a bound pod's delegate is safe: the deletion of a feedback run that found the chaperon
    marked may still be on its way after the mark was cleared, and nothing else can take the delegate. */
module ElectionRace {
  import opened Kube
  import opened RemoteControl
  import opened ChaperonServer
  import opened ElectionModel
  import opened ElectionInvariant
  import opened ElectionTheorems
  import opened ElectionHistory
  import opened ElectionGate
  import opened ElectionStability

  // ---- What an observer of the run can tell ----

  /** At position i of the run the feedback controller of n, running for the pod, found its chaperon k marked. */
  ghost predicate FoundMarked(cfg: Config, run: seq<Step>, i: int, pod: Key, n: string, k: Key) {
    && 0 <= i < |run| && run[i] == Target(n, FeedbackRead(pod)) && Exec(cfg, run[..i]).Some?
    && var s := Exec(cfg, run[..i]).value;
       && pod in s.pods && n in s.clusters && k in s.clusters[n].api.objs
       && LABEL_PARENT_UID in s.clusters[n].api.objs[k].labels && Parent(s.clusters[n].api.objs[k]) == s.pods[pod].uid
       && ANNOTATION_MISSING_SINCE in s.clusters[n].api.objs[k].annotations
  }

  predicate IsDeletion(step: Step, n: string, k: Key) {
    step.Target? && step.c == n && step.act.FeedbackDelete? && step.act.k == k
  }

  /** A feedback run found the chaperon marked and has not sent its deletion yet. */
  ghost predicate Pending(cfg: Config, run: seq<Step>, pod: Key, n: string, k: Key) {
    exists i :: FoundMarked(cfg, run, i, pod, n, k) && forall j :: i < j < |run| ==> !IsDeletion(run[j], n, k)
  }

  // ---- How decisions come and go ----

  lemma ProxyKeepsDecisions(cfg: Config, s: State, u: string, call: ProxyCall, s': State)
    requires ProxyEnabled(cfg, s, u, call) && s' == ApplyProxy(cfg, s, u, call)
    ensures forall c :: c in s.clusters ==> c in s'.clusters && s'.clusters[c].deciding == s.clusters[c].deciding
  {
    if IsLocal(call) {
      LocalFrame(cfg, s, u, call, s');
    }
  }

  ghost function Decides(cfg: Config, s: State, step: Step, n: string): set<Key>
    requires n in s.clusters
  {
    if step.Target? && step.c == n && step.act.FeedbackRead? then FeedbackDecision(cfg, s, n, step.act.pod) else {}
  }

  lemma DecisionStep(cfg: Config, s: State, step: Step, s': State, n: string, k: Key)
    requires Enabled(cfg, s, step) && s' == Apply(cfg, s, step) && n in s.clusters
    ensures n in s'.clusters
    ensures k in s'.clusters[n].deciding <==>
      (k in s.clusters[n].deciding || k in Decides(cfg, s, step, n)) && !IsDeletion(step, n, k)
  {
    if step.Proxy? {
      ProxyKeepsDecisions(cfg, s, step.u, step.call, s');
    }
  }

  // ---- Decisions are about chaperons that were there ----

  lemma DecisionIsStored(cfg: Config, s: State, n: string, pod: Key, k: Key)
    requires Inv(cfg, s) && NamingInv(cfg, s) && n in s.clusters && pod.ns != "" && '/' !in pod.ns
    requires k in FeedbackDecision(cfg, s, n, pod)
    ensures k in s.clusters[n].api.objs
  {
    if pod !in s.pods {
      var api := s.clusters[n].api;
      var k' :| k' in api.objs && IsRemoteControlled(api.objs[k'].labels, cfg.clusterName)
                && ParentKey(k', api.objs[k'].annotations) == QueueKey(pod) && Key(pod.ns, k'.name) == k;
      OrphanParent(cfg, s, n, k', pod);
    }
  }

  ghost predicate WasStored(s: State, n: string, k: Key)
    requires n in s.clusters
  {
    exists o :: o in s.clusters[n].api.served && o.key == k
  }

  lemma WasStoredLater(cfg: Config, s: State, step: Step, s': State, n: string, k: Key)
    requires Inv(cfg, s) && NamingInv(cfg, s) && Enabled(cfg, s, step) && s' == Apply(cfg, s, step)
    requires n in s.clusters && WasStored(s, n, k)
    ensures n in s'.clusters && WasStored(s', n, k)
  {
    Evolution(cfg, s, step);
    ServerNaming(cfg, s, s', step, n);
    var o :| o in s.clusters[n].api.served && o.key == k;
    assert o in s'.clusters[n].api.served;
  }

  lemma {:induction false} DecidedWasStored(cfg: Config, run: seq<Step>, s: State, n: string, k: Key)
    requires Reaches(cfg, run, s) && n in s.clusters && k in s.clusters[n].deciding
    ensures WasStored(s, n, k)
    decreases |run|
  {
    if run != [] {
      var pre, step := run[..|run| - 1], run[|run| - 1];
      var before := Exec(cfg, pre).value;
      ReachablePast(cfg, pre, before);
      Evolution(cfg, before, step);
      DecisionStep(cfg, before, step, s, n, k);
      if k in before.clusters[n].deciding {
        DecidedWasStored(cfg, pre, before, n, k);
      } else {
        DecisionIsStored(cfg, before, n, step.act.pod, k);
        assert ClusterOk(before.clusters[n]);
        assert before.clusters[n].api.objs[k] in before.clusters[n].api.served;
      }
      WasStoredLater(cfg, before, step, s, n, k);
    }
  }

  // ---- A pod and its chaperon, one step earlier ----

  lemma ChangeCreatesNothing(cfg: Config, issued: map<string, Key>, a: Server, b: Server, stamped: bool, k: Key,
                             o: Chaperon)
    requires Change(cfg, issued, a, b, stamped) && o in a.served && o.key == k && k in b.objs
    ensures k in a.objs
  {
  }

  lemma PatchCreatesNothing(a: Server, k: Key, patch: Patch)
    requires Valid(a)
    ensures After(a, PatchAnnotations(a, k, patch)).objs.Keys == a.objs.Keys
  {
  }

  /** A chaperon whose name is known is not new. */
  lemma NotNew(cfg: Config, s: State, step: Step, s': State, n: string, k: Key)
    requires ServersEvolve(cfg, s, s', step) && n in s.clusters && WasStored(s, n, k) && k in s'.clusters[n].api.objs
    requires Valid(s.clusters[n].api)
    ensures k in s.clusters[n].api.objs
  {
    var a, b, stamped := s.clusters[n].api, s'.clusters[n].api, step.Target? && step.act.SyncStampMissing?;
    var o :| o in a.served && o.key == k;
    if Change(cfg, s.issued, a, b, stamped) {
      ChangeCreatesNothing(cfg, s.issued, a, b, stamped, k, o);
    } else if a != b && !Creates(cfg, s, s', step, n) {
      PatchCreatesNothing(a, s.cycles[step.u].stage.candidate, ALLOW);
    }
  }

  lemma StoredBefore(cfg: Config, s: State, step: Step, s': State, n: string, k: Key)
    requires Inv(cfg, s) && NamingInv(cfg, s) && ServersEvolve(cfg, s, s', step) && n in s.clusters
    requires WasStored(s, n, k) && k in s'.clusters[n].api.objs && Valid(s'.clusters[n].api)
    ensures k in s.clusters[n].api.objs && Parent(s.clusters[n].api.objs[k]) == Parent(s'.clusters[n].api.objs[k])
  {
    assert ClusterOk(s.clusters[n]);
    NotNew(cfg, s, step, s', n, k);
    ServerNaming(cfg, s, s', step, n);
    SameName(s.clusters[n].api, s'.clusters[n].api, k);
  }

  lemma SameName(a: Server, b: Server, k: Key)
    requires Valid(a) && Valid(b) && NamesOk(b) && a.served <= b.served && k in a.objs && k in b.objs
    ensures Parent(a.objs[k]) == Parent(b.objs[k])
  {
    assert a.objs[k] in b.served && b.objs[k] in b.served && a.objs[k].key == k == b.objs[k].key;
  }

  ghost predicate PodFollows(s: State, s': State, pod: Key)
    requires pod in s'.pods
  {
    && pod in s.pods && s.pods[pod].uid == s'.pods[pod].uid && (s.pods[pod].terminating ==> s'.pods[pod].terminating)
    && (s.pods[pod].node == "" || s.pods[pod].node == s'.pods[pod].node)
  }

  lemma ProxyPods(cfg: Config, s: State, u: string, call: ProxyCall, s': State)
    requires ProxyEnabled(cfg, s, u, call) && s' == ApplyProxy(cfg, s, u, call)
    ensures if call.Bind? then u in s.cycles && s.cycles[u].key in s.pods && s.pods[s.cycles[u].key].node == ""
                               && s'.pods ==
                                   s.pods[s.cycles[u].key := s.pods[s.cycles[u].key].(node := s.cycles[u].node)]
            else s'.pods == s.pods
  {
    if IsLocal(call) {
      LocalFrame(cfg, s, u, call, s');
    }
  }

  lemma PodBefore(cfg: Config, s: State, step: Step, s': State, pod: Key)
    requires Enabled(cfg, s, step) && s' == Apply(cfg, s, step) && pod in s'.pods
    ensures PodFollows(s, s', pod) || (step == PodStep(pod, Created(s'.pods[pod].uid)) && pod !in s.pods)
  {
    if step.Proxy? {
      ProxyPods(cfg, s, step.u, step.call, s');
    }
  }

  lemma OwnedBefore(cfg: Config, s: State, step: Step, s': State, pod: Key, n: string, k: Key)
    requires Inv(cfg, s) && NamingInv(cfg, s) && Enabled(cfg, s, step) && s' == Apply(cfg, s, step)
    requires n in s.clusters && WasStored(s, n, k) && Owned(s', pod, n, k) && Valid(s'.clusters[n].api)
    ensures Owned(s, pod, n, k)
  {
    Evolution(cfg, s, step);
    StoredBefore(cfg, s, step, s', n, k);
    PodBefore(cfg, s, step, s', pod);
    assert ClusterOk(s.clusters[n]);
    assert s.clusters[n].api.objs[k] in s.clusters[n].api.served;
  }

  // ---- Decided and pending are the same ----

  lemma PendingCarries(cfg: Config, pre: seq<Step>, step: Step, pod: Key, n: string, k: Key)
    requires Pending(cfg, pre, pod, n, k) && !IsDeletion(step, n, k)
    ensures Pending(cfg, pre + [step], pod, n, k)
  {
    var i :| FoundMarked(cfg, pre, i, pod, n, k) && forall j :: i < j < |pre| ==> !IsDeletion(pre[j], n, k);
    var run := pre + [step];
    assert run[..i] == pre[..i];
    assert FoundMarked(cfg, run, i, pod, n, k);
  }

  lemma FoundNow(cfg: Config, pre: seq<Step>, s: State, pod: Key, n: string, k: Key)
    requires Reaches(cfg, pre, s) && Inv(cfg, s) && Owned(s, pod, n, k)
    requires ANNOTATION_MISSING_SINCE in s.clusters[n].api.objs[k].annotations
    ensures Pending(cfg, pre + [Target(n, FeedbackRead(pod))], pod, n, k)
  {
    var run := pre + [Target(n, FeedbackRead(pod))];
    assert run[..|pre|] == pre;
    var o := s.clusters[n].api.objs[k];
    assert ClusterOk(s.clusters[n]) && o in s.clusters[n].api.served
        && ReferencesOk(cfg, s.issued, n, s.clusters[n].api);
    assert ReferenceOk(cfg, s.issued, n, o);
    assert FoundMarked(cfg, run, |pre|, pod, n, k);
  }

  lemma {:induction false} DecidedIsPending(cfg: Config, run: seq<Step>, s: State, pod: Key, n: string, k: Key)
    requires Reaches(cfg, run, s) && Owned(s, pod, n, k) && k in s.clusters[n].deciding
    ensures Pending(cfg, run, pod, n, k)
    decreases |run|
  {
    if run != [] {
      var pre, step := run[..|run| - 1], run[|run| - 1];
      var before := Exec(cfg, pre).value;
      assert run == pre + [step];
      ReachablePast(cfg, pre, before);
      ReachableInv(cfg, run, s);
      assert ClusterOk(s.clusters[n]);
      Evolution(cfg, before, step);
      DecisionStep(cfg, before, step, s, n, k);
      if k in before.clusters[n].deciding {
        DecidedWasStored(cfg, pre, before, n, k);
        OwnedBefore(cfg, before, step, s, pod, n, k);
        DecidedIsPending(cfg, pre, before, pod, n, k);
        PendingCarries(cfg, pre, step, pod, n, k);
      } else {
        CondemnedOnlyIfMarked(cfg, before, pod, n, k, step.act.pod);
        FoundNow(cfg, pre, before, pod, n, k);
      }
    }
  }

  lemma MarkedIsCondemned(cfg: Config, run: seq<Step>, s: State, pod: Key, n: string, k: Key)
    requires Reaches(cfg, run, s) && pod in s.pods && n in s.clusters && k in s.clusters[n].api.objs
    requires LABEL_PARENT_UID in s.clusters[n].api.objs[k].labels
    requires Parent(s.clusters[n].api.objs[k]) == s.pods[pod].uid
    requires ANNOTATION_MISSING_SINCE in s.clusters[n].api.objs[k].annotations
    ensures k in FeedbackDecision(cfg, s, n, pod)
  {
    ReachableInv(cfg, run, s);
    var u, o := s.pods[pod].uid, s.clusters[n].api.objs[k];
    assert ClusterOk(s.clusters[n]) && ReferencesOk(cfg, s.issued, n, s.clusters[n].api)
        && o in s.clusters[n].api.served;
    assert ReferenceOk(cfg, s.issued, n, o);
    AtMostOne(cfg, s, n, pod.ns, u);
  }

  lemma {:induction false} PendingIsDecided(cfg: Config, run: seq<Step>, s: State, pod: Key, n: string, k: Key)
    requires Reaches(cfg, run, s) && n in s.clusters && Pending(cfg, run, pod, n, k)
    ensures k in s.clusters[n].deciding
    decreases |run|
  {
    var i :| FoundMarked(cfg, run, i, pod, n, k) && forall j :: i < j < |run| ==> !IsDeletion(run[j], n, k);
    var pre, step := run[..|run| - 1], run[|run| - 1];
    var before := Exec(cfg, pre).value;
    ClustersStay(cfg, run, s, pre, before);
    DecisionStep(cfg, before, step, s, n, k);
    if i == |run| - 1 {
      MarkedIsCondemned(cfg, pre, before, pod, n, k);
    } else {
      assert pre[..i] == run[..i] && FoundMarked(cfg, pre, i, pod, n, k);
      PendingIsDecided(cfg, pre, before, pod, n, k);
    }
  }

  lemma ClustersStay(cfg: Config, run: seq<Step>, s: State, run': seq<Step>, s': State)
    requires Reaches(cfg, run, s) && Reaches(cfg, run', s')
    ensures s.clusters.Keys == s'.clusters.Keys
  {
    ReachableInv(cfg, run, s);
    ReachableInv(cfg, run', s');
  }

  // ---- The theorem ----

  ghost predicate Leads(cfg: Config, run: seq<Step>, more: seq<Step>, s': State) {
    Reaches(cfg, run + more, s')
  }

  ghost predicate Calm(more: seq<Step>, pod: Key, n: string, k: Key) {
    forall i :: 0 <= i < |more| ==> !Hostile(more[i], pod, n, k)
  }

  /** Whatever the others do from here on, short of deleting the pod or the chaperon themselves or finding
      the delegate pod missing again, the delegate stays. */
  ghost predicate Survives(cfg: Config, run: seq<Step>, pod: Key, n: string, k: Key) {
    forall more, s' :: Leads(cfg, run, more, s') && Calm(more, pod, n, k) ==> LiveDelegate(s', pod, n, k)
  }

  lemma UndecidedSurvives(cfg: Config, run: seq<Step>, s: State, pod: Key, n: string, k: Key)
    requires Reaches(cfg, run, s) && IsDelegate(s, pod, n, k)
    ensures Survives(cfg, run, pod, n, k)
  {
    forall more, s' | Leads(cfg, run, more, s') && Calm(more, pod, n, k)
      ensures LiveDelegate(s', pod, n, k)
    {
      DelegateIsStable(cfg, run, s, more, s', pod, n, k);
    }
  }

  /** An observer of the run knows whether a deletion has been decided on. */
  lemma DecidedIffPending(cfg: Config, run: seq<Step>, s: State, pod: Key, n: string, k: Key)
    requires Reaches(cfg, run, s) && Owned(s, pod, n, k)
    ensures k in s.clusters[n].deciding <==> Pending(cfg, run, pod, n, k)
  {
    if k in s.clusters[n].deciding {
      DecidedIsPending(cfg, run, s, pod, n, k);
    } else if Pending(cfg, run, pod, n, k) {
      PendingIsDecided(cfg, run, s, pod, n, k);
    }
  }

  /** A bound, alive and unmarked delegate survives every continuation if and only if no feedback run that
      once found it marked still has its deletion to send. */
  lemma SurvivalIffNotPending(cfg: Config, run: seq<Step>, s: State, pod: Key, n: string, k: Key)
    requires Reaches(cfg, run, s) && LiveDelegate(s, pod, n, k)
    ensures Survives(cfg, run, pod, n, k) <==> !Pending(cfg, run, pod, n, k)
    ensures Survives(cfg, run, pod, n, k) <==> k !in s.clusters[n].deciding
  {
    DecidedIffPending(cfg, run, s, pod, n, k);
    if k in s.clusters[n].deciding {
      DeletionStrikes(cfg, run, s, pod, n, k);
    } else {
      UndecidedSurvives(cfg, run, s, pod, n, k);
    }
  }

  lemma DeletionStrikes(cfg: Config, run: seq<Step>, s: State, pod: Key, n: string, k: Key)
    requires Reaches(cfg, run, s) && LiveDelegate(s, pod, n, k) && k in s.clusters[n].deciding
    ensures !Survives(cfg, run, pod, n, k)
  {
    var step := Target(n, FeedbackDelete(k, true));
    var s' := Apply(cfg, s, step);
    ReachesMore(cfg, run, s, step);
    assert Leads(cfg, run, [step], s') && Calm([step], pod, n, k) && !LiveDelegate(s', pod, n, k);
  }
}
