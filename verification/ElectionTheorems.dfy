/** Whole-run results about the election: uniqueness of candidates, no lost update, and cleanup after
    binding. */
module ElectionTheorems {
  import opened Kube
  import opened ChaperonServer
  import opened ElectionModel
  import opened ElectionInvariant

  // ---- Uniqueness ----

  lemma AtMostOne(cfg: Config, s: State, c: string, ns: string, u: string)
    requires Inv(cfg, s) && c in s.clusters && u in s.issued
    ensures |ListByParent(s.clusters[c].api, ns, u)| <= 1
  {
    var api := s.clusters[c].api;
    var l := ListByParent(api, ns, u);
    assert UniqueParents(s.issued, api);
    if l != {} {
      var k :| k in l;
      forall k' | k' in l ensures k' == k {
        assert Parent(api.objs[k']) == u == Parent(api.objs[k]);
      }
      assert l == {k};
    }
  }

  lemma NeverSeesMany(cfg: Config, s: State, c: string, u: string)
    requires c in s.clusters && (u in s.cycles ==> |ListByParent(s.clusters[c].api, s.cycles[u].key.ns, u)| <= 1)
    ensures !Enabled(cfg, s, Proxy(u, FilterPoll(c, SeenMany)))
  {
  }

  /** In every reachable state each pod has at most one chaperon per target, so no poll, no Reserve and
      no feedback run can report more than one candidate. */
  lemma UniqueCandidate(cfg: Config, run: seq<Step>, s: State, c: string, ns: string, u: string)
    requires Reaches(cfg, run, s) && c in s.clusters && u in s.issued
    ensures |ListByParent(s.clusters[c].api, ns, u)| <= 1
    ensures !Enabled(cfg, s, Proxy(u, FilterPoll(c, SeenMany)))
    ensures var objs := s.clusters[c].api.objs;
      forall k, k' :: k in objs && k' in objs && Parent(objs[k]) == u == Parent(objs[k']) ==> k == k'
  {
    ReachableInv(cfg, run, s);
    AtMostOne(cfg, s, c, ns, u);
    assert UniqueParents(s.issued, s.clusters[c].api);
    if u in s.cycles {
      AtMostOne(cfg, s, c, s.cycles[u].key.ns, u);
    }
    NeverSeesMany(cfg, s, c, u);
  }

  // ---- No lost update ----

  /** Prefixed annotations agree everywhere, and only `k` may have changed at all. */
  ghost predicate KeepsOurs(objs: map<Key, Chaperon>, objs': map<Key, Chaperon>, k: Key) {
    && objs'.Keys == objs.Keys
    && (forall k' :: k' in objs ==> Ours(objs'[k'].annotations) == Ours(objs[k'].annotations))
    && (forall k' :: k' in objs && k' != k ==> objs'[k'] == objs[k'])
  }

  lemma OneWriteKeepsOurs(objs: map<Key, Chaperon>, k: Key, o: Chaperon)
    requires k in objs && Ours(o.annotations) == Ours(objs[k].annotations)
    ensures KeepsOurs(objs, objs[k := o], k)
  {
  }

  lemma SyncStatusKeepsOurs(cl: Cluster, k: Key, status: Status)
    requires ClusterOk(cl) && k in cl.syncs
    ensures KeepsOurs(cl.api.objs, After(cl.api, UpdateStatus(cl.api, cl.syncs[k].current.(status := status))).objs, k)
  {
    assert SyncOk(cl, k);
    var r := UpdateStatus(cl.api, cl.syncs[k].current.(status := status));
    if r.Stored? {
      LockedStatus(cl.api, cl.syncs[k].current, status);
      OneWriteKeepsOurs(cl.api.objs, k, r.obj);
    }
  }

  lemma SyncAnnotateKeepsOurs(cl: Cluster, k: Key, a: map<string, string>)
    requires ClusterOk(cl) && k in cl.syncs
    ensures var y := cl.syncs[k];
      KeepsOurs(cl.api.objs,
                After(cl.api, Update(cl.api, y.current.(annotations := Ours(y.cached.annotations) + Others(a)))).objs,
                    k)
  {
    assert SyncOk(cl, k);
    var y := cl.syncs[k];
    var r := Update(cl.api, y.current.(annotations := Ours(y.cached.annotations) + Others(a)));
    if r.Stored? {
      LockedAnnotations(cl.api, y.current, Ours(y.cached.annotations) + Others(a));
      SplitAndMerge(y.cached.annotations, a);
      OneWriteKeepsOurs(cl.api.objs, k, r.obj);
    }
  }

  /** Whatever was cached and however many writes came in between, a successful write of the chaperon
      controller leaves every prefixed annotation of every chaperon as it was on the server just before. */
  lemma NoLostUpdate(cfg: Config, run: seq<Step>, s: State, c: string, act: TargetCall)
    requires Reaches(cfg, run, s) && Enabled(cfg, s, Target(c, act)) && (act.SyncStatus? || act.SyncAnnotate?)
    ensures KeepsOurs(s.clusters[c].api.objs, Apply(cfg, s, Target(c, act)).clusters[c].api.objs, act.k)
  {
    ReachableInv(cfg, run, s);
    if act.SyncStatus? {
      SyncStatusKeepsOurs(s.clusters[c], act.k, act.status);
    } else {
      SyncAnnotateKeepsOurs(s.clusters[c], act.k, act.podAnnotations);
    }
  }

  /** A run whose cached copy disagrees with the server on any prefixed annotation, for instance because
      it has just cleared the missing mark itself, can no longer write: both calls come back as conflicts. */
  lemma DisagreeingRunConflicts(cfg: Config, run: seq<Step>, s: State, c: string, k: Key, status: Status,
                                a: map<string, string>)
    requires Reaches(cfg, run, s) && c in s.clusters && k in s.clusters[c].syncs && k in s.clusters[c].api.objs
    requires Ours(s.clusters[c].syncs[k].cached.annotations) != Ours(s.clusters[c].api.objs[k].annotations)
    ensures UpdateStatus(s.clusters[c].api, s.clusters[c].syncs[k].current.(status := status)).Conflict?
    ensures Update(s.clusters[c].api, s.clusters[c].syncs[k].current.(annotations := a)).Conflict?
  {
    ReachableInv(cfg, run, s);
    var cl := s.clusters[c];
    assert ClusterOk(cl) && SyncOk(cl, k);
    assert cl.api.objs[k] in cl.api.served;
  }

  lemma {:induction false} ReachesMore(cfg: Config, run: seq<Step>, s: State, step: Step)
    requires Reaches(cfg, run, s) && Enabled(cfg, s, step)
    ensures Reaches(cfg, run + [step], Apply(cfg, s, step))
  {
    assert (run + [step])[..|run|] == run;
  }

  lemma ClearRemovesMark(cl: Cluster, k: Key)
    requires ClusterOk(cl) && k in cl.api.objs
    ensures var api' := After(cl.api, PatchAnnotations(cl.api, k, CLEAR_MISSING));
      k in api'.objs && ANNOTATION_MISSING_SINCE !in api'.objs[k].annotations
  {
  }

  /** So the mark a run has cleared is not brought back by the rest of that run. */
  lemma ClearedMarkIsNotResurrected(cfg: Config, run: seq<Step>, s: State, c: string, k: Key, status: Status,
                                    a: map<string, string>)
    requires Reaches(cfg, run, s) && Enabled(cfg, s, Target(c, SyncClearMissing(k))) && k in s.clusters[c].api.objs
    ensures var cl' := ApplyTarget(cfg, s, c, SyncClearMissing(k));
      && k in cl'.syncs && k in cl'.api.objs && ANNOTATION_MISSING_SINCE !in cl'.api.objs[k].annotations
      && UpdateStatus(cl'.api, cl'.syncs[k].current.(status := status)).Conflict?
      && Update(cl'.api, cl'.syncs[k].current.(annotations := a)).Conflict?
  {
    OurKeys();
    var step := Target(c, SyncClearMissing(k));
    var s' := Apply(cfg, s, step);
    ReachableInv(cfg, run, s);
    ClearRemovesMark(s.clusters[c], k);
    ReachesMore(cfg, run, s, step);
    assert ANNOTATION_MISSING_SINCE in Ours(s'.clusters[c].syncs[k].cached.annotations);
    assert ANNOTATION_MISSING_SINCE !in Ours(s'.clusters[c].api.objs[k].annotations);
    DisagreeingRunConflicts(cfg, run + [step], s', c, k, status, a);
  }

  // ---- Cleanup after binding ----

  /** Wherever Filter may create a candidate, PostBind looks, apart from the chosen node. */
  ghost predicate LabelsMatchTargets(cfg: Config) {
    forall n :: n in cfg.nodes && n in cfg.targets && cfg.nodes[n].isVirtual ==> cfg.nodes[n].ns == cfg.targets[n]
  }

  /** When every deletion of PostBind succeeds, all chaperons left for the pod are in the chosen cluster. */
  lemma ElectionCleanup(cfg: Config, run: seq<Step>, s: State, u: string)
    requires LabelsMatchTargets(cfg) && Reaches(cfg, run, s) && Enabled(cfg, s, Proxy(u, PostBindDone))
    requires s.cycles[u].visited == s.cycles[u].cleaned
    ensures var s' := Apply(cfg, s, Proxy(u, PostBindDone));
      forall c, k :: c in s'.clusters && k in s'.clusters[c].api.objs && Parent(s'.clusters[c].api.objs[k]) == u ==>
        c == s.cycles[u].node
  {
    ReachableInv(cfg, run, s);
    var cy := s.cycles[u];
    assert CycleOk(cfg, s, u);
    forall c, k | c in s.clusters && k in s.clusters[c].api.objs && Parent(s.clusters[c].api.objs[k]) == u
      ensures c == cy.node
    {
      var api := s.clusters[c].api;
      assert ClusterOk(s.clusters[c]) && ReferencesOk(cfg, s.issued, c, api);
      assert ReferenceOk(cfg, s.issued, c, api.objs[k]);
      if c != cy.node {
        assert PostBindScope(cfg, c, cy.key.ns, cy.node);
      }
    }
  }
}
