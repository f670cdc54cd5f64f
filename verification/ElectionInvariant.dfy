/** What every call of the election keeps, whoever makes it. */
module ElectionInvariant {
  import opened Kube
  import opened RemoteControl
  import opened ChaperonServer
  import opened ElectionModel

  // ---- The invariant ----

  /** A chaperon controller run never mixes versions: the copy it writes next was served, and agrees
      with the copy it started from on every entry that belongs to this system. */
  ghost predicate SyncOk(cl: Cluster, k: Key)
    requires k in cl.syncs
  {
    var y := cl.syncs[k];
    y.cached.key == k && y.current.key == k && y.current in cl.api.served
    && Ours(y.current.annotations) == Ours(y.cached.annotations)
  }

  ghost predicate ClusterOk(cl: Cluster) {
    Valid(cl.api) && forall k :: k in cl.syncs ==> SyncOk(cl, k)
  }

  /** A chaperon that names one of our pods lies in the pod's namespace, in a cluster that Filter could
      have offered the pod to, and records the pod's name. */
  ghost predicate ReferenceOk(cfg: Config, issued: map<string, Key>, c: string, o: Chaperon) {
    Parent(o) in issued ==>
      var pod := issued[Parent(o)];
      o.key.ns == pod.ns && Reference(o) == Ref(true, Parent(o), pod.ns, pod.name) && FilterScope(cfg, c, pod.ns)
  }

  ghost predicate ReferencesOk(cfg: Config, issued: map<string, Key>, c: string, api: Server) {
    forall o :: o in api.served ==> ReferenceOk(cfg, issued, c, o)
  }

  ghost predicate UniqueParents(issued: map<string, Key>, api: Server) {
    forall k, k' ::
      (k in api.objs && k' in api.objs && Parent(api.objs[k]) == Parent(api.objs[k'])
       && Parent(api.objs[k]) in issued) ==>
        k == k'
  }

  ghost predicate NoChild(api: Server, u: string) {
    forall k :: k in api.objs ==> Parent(api.objs[k]) != u
  }

  /** The cycle relies on cluster n holding no chaperon of its pod. */
  ghost predicate Clear(cy: Cycle, n: string) {
    n in cy.absent || (cy.stage.Creating? && cy.node == n) || n in cy.cleaned
  }

  ghost predicate ShapeOk(cfg: Config, pods: map<Key, ProxyPod>, issued: map<string, Key>, u: string, cy: Cycle) {
    && u in issued && cy.key == issued[u]
    && (forall n :: n in cy.passed ==> FilterScope(cfg, n, cy.key.ns))
    && (forall n :: n in cy.absent ==> FilterScope(cfg, n, cy.key.ns))
    && (!cy.stage.Filtering? ==> cy.absent == {} && FilterScope(cfg, cy.node, cy.key.ns))
    && (!cy.stage.Bound? ==> cy.cleaned == {} && cy.visited == {})
    && (cy.stage.Bound? && cy.key in pods && pods[cy.key].uid == u ==> pods[cy.key].node == cy.node)
    && (forall n :: n in cy.cleaned ==> PostBindScope(cfg, n, cy.key.ns, cy.node))
  }

  ghost predicate ClearOk(clusters: map<string, Cluster>, u: string, cy: Cycle) {
    forall n :: n in clusters && Clear(cy, n) ==> NoChild(clusters[n].api, u)
  }

  ghost predicate CycleOk(cfg: Config, s: State, u: string)
    requires u in s.cycles
  {
    ShapeOk(cfg, s.pods, s.issued, u, s.cycles[u]) && ClearOk(s.clusters, u, s.cycles[u])
  }

  ghost predicate PodsOk(s: State) {
    && (forall u :: u in s.issued ==>
          u != "" && s.issued[u].ns != "" && s.issued[u].name != "" && '/' !in s.issued[u].ns)
    && (forall k :: k in s.pods ==> s.pods[k].uid in s.issued && s.issued[s.pods[k].uid] == k)
  }

  ghost predicate Inv(cfg: Config, s: State) {
    && s.clusters.Keys == cfg.targets.Keys
    && PodsOk(s)
    && (forall c :: c in s.clusters ==> ClusterOk(s.clusters[c]))
    && (forall c :: c in s.clusters ==> ReferencesOk(cfg, s.issued, c, s.clusters[c].api))
    && (forall c :: c in s.clusters ==> UniqueParents(s.issued, s.clusters[c].api))
    && (forall u :: u in s.cycles ==> CycleOk(cfg, s, u))
  }

  // ---- Changes to one server that create nothing ----

  /** Objects may be rewritten or removed, but every reference stays where it was. */
  ghost predicate Tame(a: Server, b: Server) {
    && Valid(b) && b.objs.Keys <= a.objs.Keys && a.served <= b.served
    && (forall k :: k in b.objs ==> Reference(b.objs[k]) == Reference(a.objs[k]))
    && (forall o :: o in b.served ==> o in a.served || (o.key in a.objs && Reference(o) == Reference(a.objs[o.key])))
  }

  lemma TameReferences(cfg: Config, issued: map<string, Key>, c: string, a: Server, b: Server)
    requires Valid(a) && Tame(a, b) && ReferencesOk(cfg, issued, c, a) && UniqueParents(issued, a)
    ensures ReferencesOk(cfg, issued, c, b) && UniqueParents(issued, b)
    ensures forall u :: NoChild(a, u) ==> NoChild(b, u)
  {
    forall o | o in b.served ensures ReferenceOk(cfg, issued, c, o) {
      var p := if o in a.served then o else a.objs[o.key];
      assert p in a.served && p.key == o.key && Reference(p) == Reference(o);
      assert ReferenceOk(cfg, issued, c, p);
    }
    forall k | k in b.objs ensures Parent(b.objs[k]) == Parent(a.objs[k]) {
      assert Reference(b.objs[k]) == Reference(a.objs[k]);
    }
  }

  lemma TamePatch(api: Server, k: Key, patch: Patch)
    requires Valid(api) && ANNOTATION_PARENT_NAME !in patch && ANNOTATION_PARENT_NAMESPACE !in patch
    ensures Tame(api, After(api, PatchAnnotations(api, k, patch)))
  {
    PatchRewrites(api, k, patch);
  }

  lemma PatchesAreTame()
    ensures forall p: Patch :: p in {ALLOW, RESERVE, UNRESERVE, CLEAR_MISSING} ==>
              ANNOTATION_PARENT_NAME !in p && ANNOTATION_PARENT_NAMESPACE !in p
    ensures forall v :: ANNOTATION_PARENT_NAME !in StampMissing(v) && ANNOTATION_PARENT_NAMESPACE !in StampMissing(v)
  {
    var n := |KEY_PREFIX|;
    assert ANNOTATION_PARENT_NAME[n] == 'p' && ANNOTATION_PARENT_NAMESPACE[n] == 'p';
    assert ANNOTATION_IS_ALLOWED[n] == 'i' && ANNOTATION_IS_RESERVED[n] == 'i';
    assert ANNOTATION_MISSING_SINCE[n + 1] == 'o' && ANNOTATION_PARENT_NAME[n + 1] == 'a'
        && ANNOTATION_PARENT_NAMESPACE[n + 1] == 'a';
  }

  lemma TameDelete(api: Server, ks: set<Key>)
    requires Valid(api)
    ensures Tame(api, Delete(api, ks))
  {
  }

  /** Overwriting a stored object with one that carries the same reference. */
  lemma TameWrite(api: Server, o: Chaperon)
    requires Valid(api) && o.key in api.objs && Reference(o) == Reference(api.objs[o.key])
    ensures Tame(api, Write(api, o)) && Tame(api, WriteIfChanged(api, o).server)
    ensures WriteIfChanged(api, o).obj in WriteIfChanged(api, o).server.served
  {
    WriteRewrites(api, o);
    WriteValid(api, o);
  }

  /** References are made of prefixed entries only. */
  lemma SameOursSameReference(o: Chaperon, p: Chaperon)
    requires Ours(o.labels) == Ours(p.labels) && Ours(o.annotations) == Ours(p.annotations)
    ensures Reference(o) == Reference(p)
  {
    OurKeys();
    forall k | k in {ANNOTATION_PARENT_NAME, ANNOTATION_PARENT_NAMESPACE}
      ensures Lookup(o.annotations, k) == Lookup(p.annotations, k)
    {
      assert k in o.annotations <==> k in Ours(o.annotations);
      assert k in p.annotations <==> k in Ours(p.annotations);
    }
    assert LABEL_PARENT_UID in o.labels <==> LABEL_PARENT_UID in Ours(o.labels);
    assert LABEL_PARENT_UID in p.labels <==> LABEL_PARENT_UID in Ours(p.labels);
  }

  // ---- The chaperon controller's writes ----

  lemma SyncStatusOk(cl: Cluster, k: Key, status: Status)
    requires ClusterOk(cl) && k in cl.syncs
    ensures var r := UpdateStatus(cl.api, cl.syncs[k].current.(status := status));
      r.Stored? ==>
        && k in cl.api.objs && cl.api.objs[k] == cl.syncs[k].current
        && Tame(cl.api, r.server) && r.obj in r.server.served && r.server.objs[k] == r.obj
        && r.obj.key == k && r.obj.annotations == cl.api.objs[k].annotations && r.obj.labels == cl.api.objs[k].labels
  {
    assert SyncOk(cl, k);
    var r := UpdateStatus(cl.api, cl.syncs[k].current.(status := status));
    if r.Stored? {
      MatchingVersionIsCurrent(cl.api, cl.syncs[k].current);
      var o := cl.api.objs[k].(status := status);
      assert Reference(o) == Reference(cl.api.objs[k]);
      TameWrite(cl.api, o);
    }
  }

  lemma SyncAnnotateOk(cl: Cluster, k: Key, podAnnotations: map<string, string>)
    requires ClusterOk(cl) && k in cl.syncs
    ensures var y := cl.syncs[k];
      var r := Update(cl.api, y.current.(annotations := Ours(y.cached.annotations) + Others(podAnnotations)));
      r.Stored? ==>
        && k in cl.api.objs && cl.api.objs[k] == y.current
        && Tame(cl.api, r.server) && r.server.objs[k] == r.obj && r.obj.key == k
        && Ours(r.obj.annotations) == Ours(cl.api.objs[k].annotations)
        && r.obj.labels == cl.api.objs[k].labels
  {
    assert SyncOk(cl, k);
    var y := cl.syncs[k];
    var o := y.current.(annotations := Ours(y.cached.annotations) + Others(podAnnotations));
    var r := Update(cl.api, o);
    if r.Stored? {
      MatchingVersionIsCurrent(cl.api, y.current);
      SplitAndMerge(y.cached.annotations, podAnnotations);
      SameOursSameReference(o, cl.api.objs[k]);
      TameWrite(cl.api, o.(status := cl.api.objs[k].status));
    }
  }

  lemma RelabelOk(cfg: Config, api: Server, o: Chaperon)
    requires Valid(api) && o in api.served
    ensures var r := Update(api, o.(labels := o.labels[LABEL_PARENT_CLUSTER := cfg.clusterName]));
      r.Stored? ==>
        Tame(api, r.server) && o.key in api.objs && r.server.objs.Keys == api.objs.Keys
        && r.server.objs[o.key].annotations == api.objs[o.key].annotations
        && (forall k :: k in api.objs && k != o.key ==> r.server.objs[k] == api.objs[k])
  {
    OurKeys();
    var p := o.(labels := o.labels[LABEL_PARENT_CLUSTER := cfg.clusterName]);
    var r := Update(api, p);
    if r.Stored? {
      MatchingVersionIsCurrent(api, o);
      assert Reference(p) == Reference(o);
      TameWrite(api, p.(status := api.objs[o.key].status));
    }
  }

  /** Only another source's pod can make a chaperon appear in a target without the proxy scheduler. */
  lemma TargetTame(cfg: Config, s: State, c: string, act: TargetCall)
    requires c in s.clusters && ClusterOk(s.clusters[c]) && TargetEnabled(cfg, s, c, act) && !act.ForeignCreated?
    ensures Tame(s.clusters[c].api, ApplyTarget(cfg, s, c, act).api)
  {
    var cl := s.clusters[c];
    assert Tame(cl.api, cl.api);
    match act {
      case CandidatePreFilter(k) => PatchesAreTame(); TamePatch(cl.api, k, UNRESERVE);
      case CandidateReserve(k) => PatchesAreTame(); TamePatch(cl.api, k, RESERVE);
      case SyncStampMissing(k, stamp) => PatchesAreTame(); TamePatch(cl.api, k, StampMissing(stamp));
      case SyncClearMissing(k) => PatchesAreTame(); TamePatch(cl.api, k, CLEAR_MISSING);
      case SyncStatus(k, status) => SyncStatusOk(cl, k, status);
      case SyncAnnotate(k, a) => SyncAnnotateOk(cl, k, a);
      case FeedbackRelabel(o) => RelabelOk(cfg, cl.api, o);
      case FeedbackDelete(k, _) => TameDelete(cl.api, {k});
      case ChaperonDeleted(k) => TameDelete(cl.api, {k});
      case ChaperonEdited(o) => SameOursSameReference(o, cl.api.objs[o.key]); TameWrite(cl.api, o);
      case ForeignWritten(o) => TameWrite(cl.api, o);
      case _ =>
    }
  }

  /** Runs in flight survive any growth of the set of served versions. */
  lemma SyncsSurvive(cl: Cluster, cl': Cluster)
    requires ClusterOk(cl) && Valid(cl'.api) && cl.api.served <= cl'.api.served
    requires forall k :: k in cl'.syncs ==> (k in cl.syncs && cl'.syncs[k] == cl.syncs[k]) || SyncOk(cl', k)
    ensures ClusterOk(cl')
  {
    forall k | k in cl'.syncs ensures SyncOk(cl', k) {
      if k in cl.syncs {
        assert SyncOk(cl, k);
      }
    }
  }

  lemma TargetClusterOk(cfg: Config, s: State, c: string, act: TargetCall)
    requires c in s.clusters && ClusterOk(s.clusters[c]) && TargetEnabled(cfg, s, c, act)
    ensures ClusterOk(ApplyTarget(cfg, s, c, act))
  {
    var cl := s.clusters[c];
    var cl' := ApplyTarget(cfg, s, c, act);
    if act.ForeignCreated? {
      WriteValid(cl.api, act.obj);
    } else {
      TargetTame(cfg, s, c, act);
    }
    if act.SyncStatus? {
      SyncStatusOk(cl, act.k, act.status);
      assert SyncOk(cl, act.k);
    }
    SyncsSurvive(cl, cl');
  }

  // ---- Every step keeps the invariant ----

  lemma InitInv(cfg: Config)
    ensures Inv(cfg, Init(cfg))
  {
  }

  /** One cluster changes without gaining a reference to one of our pods. */
  lemma ClusterChangeInv(cfg: Config, s: State, c: string, cl': Cluster)
    requires Inv(cfg, s) && c in s.clusters && ClusterOk(cl')
    requires ReferencesOk(cfg, s.issued, c, cl'.api) && UniqueParents(s.issued, cl'.api)
    requires forall u :: u in s.issued && NoChild(s.clusters[c].api, u) ==> NoChild(cl'.api, u)
    ensures Inv(cfg, s.(clusters := s.clusters[c := cl']))
  {
    var s' := s.(clusters := s.clusters[c := cl']);
    forall u | u in s'.cycles ensures CycleOk(cfg, s', u) {
      assert CycleOk(cfg, s, u);
    }
  }

  lemma ForeignReferences(cfg: Config, issued: map<string, Key>, c: string, api: Server, o: Chaperon)
    requires Valid(api) && ReferencesOk(cfg, issued, c, api) && UniqueParents(issued, api) && Parent(o) !in issued
    ensures ReferencesOk(cfg, issued, c, Write(api, o)) && UniqueParents(issued, Write(api, o))
    ensures forall u :: u in issued && NoChild(api, u) ==> NoChild(Write(api, o), u)
  {
    var o' := o.(rv := api.rev + 1);
    assert Parent(o') == Parent(o);
    assert ReferenceOk(cfg, issued, c, o');
  }

  lemma TargetReferences(cfg: Config, s: State, c: string, act: TargetCall, api': Server)
    requires c in s.clusters && ClusterOk(s.clusters[c]) && TargetEnabled(cfg, s, c, act)
    requires api' == ApplyTarget(cfg, s, c, act).api
    requires ReferencesOk(cfg, s.issued, c, s.clusters[c].api) && UniqueParents(s.issued, s.clusters[c].api)
    ensures ReferencesOk(cfg, s.issued, c, api') && UniqueParents(s.issued, api')
    ensures forall u :: u in s.issued && NoChild(s.clusters[c].api, u) ==> NoChild(api', u)
  {
    if act.ForeignCreated? {
      ForeignReferences(cfg, s.issued, c, s.clusters[c].api, act.obj);
    } else {
      TargetTame(cfg, s, c, act);
      TameReferences(cfg, s.issued, c, s.clusters[c].api, api');
    }
  }

  lemma TargetInv(cfg: Config, s: State, c: string, act: TargetCall)
    requires Inv(cfg, s) && c in s.clusters && TargetEnabled(cfg, s, c, act)
    ensures Inv(cfg, Apply(cfg, s, Target(c, act)))
  {
    var cl' := ApplyTarget(cfg, s, c, act);
    TargetClusterOk(cfg, s, c, act);
    TargetReferences(cfg, s, c, act, cl'.api);
    ClusterChangeInv(cfg, s, c, cl');
  }

  lemma PodInv(cfg: Config, s: State, pod: Key, event: PodEvent)
    requires Inv(cfg, s) && PodEnabled(s, pod, event)
    ensures Inv(cfg, ApplyPod(s, pod, event))
  {
    var s' := ApplyPod(s, pod, event);
    forall u | u in s'.cycles ensures CycleOk(cfg, s', u) {
      assert CycleOk(cfg, s, u);
    }
    forall c | c in s'.clusters
      ensures ReferencesOk(cfg, s'.issued, c, s'.clusters[c].api) && UniqueParents(s'.issued, s'.clusters[c].api)
    {
      var api := s.clusters[c].api;
      assert ReferencesOk(cfg, s.issued, c, api) && UniqueParents(s.issued, api) && Valid(api);
      forall o | o in api.served ensures ReferenceOk(cfg, s'.issued, c, o) {
        assert ReferenceOk(cfg, s.issued, c, o);
      }
    }
  }

  /** Only the pod's own cycle changes. */
  lemma CycleChangeInv(cfg: Config, s: State, u: string, s': State)
    requires Inv(cfg, s)
    requires s'.issued == s.issued && s'.pods == s.pods && s'.clusters == s.clusters
    requires forall v :: v in s'.cycles && v != u ==> v in s.cycles && s'.cycles[v] == s.cycles[v]
    requires u in s'.cycles ==> CycleOk(cfg, s', u)
    ensures Inv(cfg, s')
  {
    forall v | v in s'.cycles ensures CycleOk(cfg, s', v) {
      if v != u {
        assert CycleOk(cfg, s, v);
      }
    }
  }

  /** A list that comes back empty means no chaperon anywhere in the cluster names the pod. */
  lemma EmptyListNoChild(cfg: Config, s: State, u: string, n: string)
    requires Inv(cfg, s) && u in s.cycles && n in s.clusters && Candidates(s, n, u) == {}
    ensures NoChild(s.clusters[n].api, u)
  {
    var api := s.clusters[n].api;
    assert CycleOk(cfg, s, u) && Valid(api);
    forall k | k in api.objs ensures Parent(api.objs[k]) != u {
      assert ReferencesOk(cfg, s.issued, n, api);
      assert ReferenceOk(cfg, s.issued, n, api.objs[k]);
      assert k !in Candidates(s, n, u);
    }
  }

  /** The cycle-local calls: nothing is written to any server. */
  predicate IsLocal(call: ProxyCall) {
    !call.FilterCreate? && !call.ReserveCreate? && !call.ReserveAllow? && !call.PostBindDelete? && !call.Bind?
  }

  lemma LocalShape(cfg: Config, s: State, u: string, call: ProxyCall)
    requires ProxyEnabled(cfg, s, u, call) && IsLocal(call)
    requires u in s.cycles ==> ShapeOk(cfg, s.pods, s.issued, u, s.cycles[u])
    ensures var s' := ApplyProxy(cfg, s, u, call);
      u in s'.cycles ==> ShapeOk(cfg, s'.pods, s'.issued, u, s'.cycles[u])
  {
  }

  /** A cycle-local call changes nothing but the pod's cycle and memory, and relies on a cluster being
      clear only where it did before or where it has just listed nothing. */
  lemma LocalFrame(cfg: Config, s: State, u: string, call: ProxyCall, s': State)
    requires ProxyEnabled(cfg, s, u, call) && IsLocal(call) && s' == ApplyProxy(cfg, s, u, call)
    ensures s'.issued == s.issued && s'.pods == s.pods && s'.clusters == s.clusters
    ensures forall v :: v in s'.cycles && v != u ==> v in s.cycles && s'.cycles[v] == s.cycles[v]
    ensures forall n :: u in s'.cycles && n in s.clusters && Clear(s'.cycles[u], n) ==>
              u in s.cycles && (Clear(s.cycles[u], n) || Candidates(s, n, u) == {})
  {
  }

  lemma LocalClear(cfg: Config, s: State, u: string, s': State)
    requires Inv(cfg, s) && s'.clusters == s.clusters && u in s'.cycles
    requires forall n :: n in s.clusters && Clear(s'.cycles[u], n) ==>
              u in s.cycles && (Clear(s.cycles[u], n) || Candidates(s, n, u) == {})
    ensures ClearOk(s'.clusters, u, s'.cycles[u])
  {
    forall n | n in s.clusters && Clear(s'.cycles[u], n) ensures NoChild(s.clusters[n].api, u) {
      assert CycleOk(cfg, s, u);
      if !Clear(s.cycles[u], n) {
        EmptyListNoChild(cfg, s, u, n);
      }
    }
  }

  lemma LocalInv(cfg: Config, s: State, u: string, call: ProxyCall, s': State)
    requires Inv(cfg, s) && ProxyEnabled(cfg, s, u, call) && IsLocal(call) && s' == ApplyProxy(cfg, s, u, call)
    ensures Inv(cfg, s')
  {
    assert u in s.cycles ==> CycleOk(cfg, s, u);
    LocalShape(cfg, s, u, call);
    LocalFrame(cfg, s, u, call, s');
    if u in s'.cycles {
      LocalClear(cfg, s, u, s');
    }
    CycleChangeInv(cfg, s, u, s');
  }

  lemma BindInv(cfg: Config, s: State, u: string)
    requires Inv(cfg, s) && ProxyEnabled(cfg, s, u, Bind)
    ensures Inv(cfg, ApplyProxy(cfg, s, u, Bind))
  {
    var s' := ApplyProxy(cfg, s, u, Bind);
    forall v | v in s'.cycles ensures CycleOk(cfg, s', v) {
      assert CycleOk(cfg, s, v);
    }
  }

  /** A server that gains one chaperon of a pod which had none there. */
  lemma CreateReferences(cfg: Config, issued: map<string, Key>, n: string, api: Server, u: string, o: Chaperon)
    requires Valid(api) && ReferencesOk(cfg, issued, n, api) && UniqueParents(issued, api) && NoChild(api, u)
    requires u in issued && o.key.ns == issued[u].ns && FilterScope(cfg, n, issued[u].ns)
    requires Reference(o) == Ref(true, u, issued[u].ns, issued[u].name) && Fresh(api, o.key)
    ensures var api' := Write(api, o);
      && Valid(api') && ReferencesOk(cfg, issued, n, api') && UniqueParents(issued, api') && api.served <= api'.served
      && (forall v :: v != u && NoChild(api, v) ==> NoChild(api', v))
  {
    WriteValid(api, o);
    var o' := o.(rv := api.rev + 1);
    assert Reference(o') == Reference(o);
    assert ReferenceOk(cfg, issued, n, o');
  }

  /** One cluster gains a chaperon of one pod, whose cycle does not rely on there being none. */
  lemma CreateCycles(cfg: Config, s: State, s': State, u: string, n: string, cy': Cycle)
    requires forall v :: v in s.cycles ==> CycleOk(cfg, s, v)
    requires n in s.clusters && n in s'.clusters && s'.clusters == s.clusters[n := s'.clusters[n]]
    requires s'.pods == s.pods && s'.issued == s.issued && s'.cycles == s.cycles[u := cy']
    requires forall v :: v != u && NoChild(s.clusters[n].api, v) ==> NoChild(s'.clusters[n].api, v)
    requires ShapeOk(cfg, s.pods, s.issued, u, cy') && ClearOk(s.clusters, u, cy') && !Clear(cy', n)
    ensures forall v :: v in s'.cycles ==> CycleOk(cfg, s', v)
  {
    forall v | v in s'.cycles ensures CycleOk(cfg, s', v) {
      if v != u {
        assert CycleOk(cfg, s, v);
      }
    }
  }

  lemma CreateCluster(cfg: Config, s: State, u: string, n: string, o: Chaperon, cl': Cluster)
    requires u in s.cycles && n in s.clusters && ClusterOk(s.clusters[n]) && u in s.issued
    requires s.cycles[u].key == s.issued[u]
    requires ReferencesOk(cfg, s.issued, n, s.clusters[n].api) && UniqueParents(s.issued, s.clusters[n].api)
    requires NoChild(s.clusters[n].api, u) && FilterScope(cfg, n, s.cycles[u].key.ns)
    requires IsNewCandidate(cfg, s, u, o) && Fresh(s.clusters[n].api, o.key)
    requires cl' == s.clusters[n].(api := Write(s.clusters[n].api, o))
    ensures ClusterOk(cl') && ReferencesOk(cfg, s.issued, n, cl'.api) && UniqueParents(s.issued, cl'.api)
    ensures forall v :: v != u && NoChild(s.clusters[n].api, v) ==> NoChild(cl'.api, v)
  {
    NewCandidateReference(cfg, s, u, o);
    CreateReferences(cfg, s.issued, n, s.clusters[n].api, u, o);
    SyncsSurvive(s.clusters[n], cl');
  }

  /** Creating the pod's candidate in a cluster where it has none. */
  lemma CreateInv(cfg: Config, s: State, u: string, n: string, o: Chaperon, cy': Cycle, s': State)
    requires Inv(cfg, s) && u in s.cycles && n in s.clusters && NoChild(s.clusters[n].api, u)
    requires FilterScope(cfg, n, s.cycles[u].key.ns)
    requires IsNewCandidate(cfg, s, u, o) && Fresh(s.clusters[n].api, o.key)
    requires ShapeOk(cfg, s.pods, s.issued, u, cy') && ClearOk(s.clusters, u, cy') && !Clear(cy', n)
    requires s' == SetApi(SetCycle(s, u, cy'), n, Write(s.clusters[n].api, o))
    ensures Inv(cfg, s')
  {
    assert CycleOk(cfg, s, u);
    CreateCluster(cfg, s, u, n, o, s'.clusters[n]);
    CreateCycles(cfg, s, s', u, n, cy');
  }

  lemma NewCandidateReference(cfg: Config, s: State, u: string, o: Chaperon)
    requires u in s.cycles && IsNewCandidate(cfg, s, u, o)
    ensures Reference(o) == Ref(true, u, s.cycles[u].key.ns, s.cycles[u].key.name)
    ensures ANNOTATION_IS_ALLOWED !in o.annotations
    ensures ANNOTATION_IS_RESERVED !in o.annotations
    ensures ANNOTATION_MISSING_SINCE !in o.annotations
  {
    OurKeys();
    PatchesAreTame();
    var a :| o.annotations == ReferenceAnnotations(Others(a), s.cycles[u].key);
    var l :| o.labels == ReferenceLabels(l, u, cfg.clusterName);
    assert ANNOTATION_IS_ALLOWED in ALLOW && ANNOTATION_IS_RESERVED in RESERVE;
    assert ANNOTATION_MISSING_SINCE in CLEAR_MISSING;
  }

  lemma ProxyCreateInv(cfg: Config, s: State, u: string, call: ProxyCall)
    requires Inv(cfg, s) && ProxyEnabled(cfg, s, u, call) && (call.FilterCreate? || call.ReserveCreate?)
    ensures Inv(cfg, ApplyProxy(cfg, s, u, call))
  {
    assert CycleOk(cfg, s, u);
    var cy := s.cycles[u];
    if call.FilterCreate? {
      assert Clear(cy, call.n);
      CreateInv(cfg, s, u, call.n, call.obj, cy.(absent := cy.absent - {call.n}), ApplyProxy(cfg, s, u, call));
    } else {
      assert Clear(cy, cy.node);
      CreateInv(cfg, s, u, cy.node, call.obj, cy.(stage := Waiting), ApplyProxy(cfg, s, u, call));
    }
  }

  lemma TameChangeInv(cfg: Config, s: State, c: string, api': Server)
    requires Inv(cfg, s) && c in s.clusters && Tame(s.clusters[c].api, api')
    ensures Inv(cfg, SetApi(s, c, api'))
  {
    var cl := s.clusters[c];
    assert ClusterOk(cl) && ReferencesOk(cfg, s.issued, c, cl.api) && UniqueParents(s.issued, cl.api);
    SyncsSurvive(cl, cl.(api := api'));
    TameReferences(cfg, s.issued, c, cl.api, api');
    ClusterChangeInv(cfg, s, c, cl.(api := api'));
  }

  /** One server changes tamely and then the pod's own cycle moves on. */
  lemma TameCycleInv(cfg: Config, s: State, c: string, api': Server, u: string, cy': Cycle)
    requires Inv(cfg, s) && c in s.clusters && Tame(s.clusters[c].api, api')
    requires u in s.cycles && ShapeOk(cfg, s.pods, s.issued, u, cy')
    requires forall n :: n in s.clusters && Clear(cy', n) ==> Clear(s.cycles[u], n) || (n == c && NoChild(api', u))
    ensures Inv(cfg, SetApi(SetCycle(s, u, cy'), c, api'))
  {
    TameChangeInv(cfg, s, c, api');
    var s1 := SetApi(s, c, api');
    var s' := SetApi(SetCycle(s, u, cy'), c, api');
    assert CycleOk(cfg, s1, u);
    assert ClearOk(s1.clusters, u, s.cycles[u]);
    assert CycleOk(cfg, s', u);
    CycleChangeInv(cfg, s1, u, s');
  }

  lemma ReserveAllowInv(cfg: Config, s: State, u: string)
    requires Inv(cfg, s) && ProxyEnabled(cfg, s, u, ReserveAllow)
    ensures Inv(cfg, ApplyProxy(cfg, s, u, ReserveAllow))
  {
    var cy := s.cycles[u];
    var api := s.clusters[cy.node].api;
    var r := PatchAnnotations(api, cy.stage.candidate, ALLOW);
    assert ClusterOk(s.clusters[cy.node]) && CycleOk(cfg, s, u);
    PatchesAreTame();
    TamePatch(api, cy.stage.candidate, ALLOW);
    TameCycleInv(cfg, s, cy.node, After(api, r), u, cy.(stage := if r.Stored? then Waiting else Failed));
  }

  lemma DeleteClears(cfg: Config, s: State, u: string, c: string)
    requires Inv(cfg, s) && u in s.cycles && c in s.clusters
    ensures NoChild(Delete(s.clusters[c].api, Candidates(s, c, u)), u)
  {
    var api := s.clusters[c].api;
    TameDelete(api, Candidates(s, c, u));
    TameChangeInv(cfg, s, c, Delete(api, Candidates(s, c, u)));
    EmptyListNoChild(cfg, SetApi(s, c, Delete(api, Candidates(s, c, u))), u, c);
  }

  lemma PostBindDeleteInv(cfg: Config, s: State, u: string, c: string, ok: bool, s': State)
    requires Inv(cfg, s) && ProxyEnabled(cfg, s, u, PostBindDelete(c, ok))
    requires s' == ApplyProxy(cfg, s, u, PostBindDelete(c, ok))
    ensures Inv(cfg, s')
  {
    var cy := s.cycles[u];
    var api := s.clusters[c].api;
    assert CycleOk(cfg, s, u) && ClusterOk(s.clusters[c]);
    if ok {
      DeleteClears(cfg, s, u, c);
      TameDelete(api, Candidates(s, c, u));
      TameCycleInv(cfg, s, c, Delete(api, Candidates(s, c, u)), u,
                   cy.(visited := cy.visited + {c}, cleaned := cy.cleaned + {c}));
    } else {
      CycleChangeInv(cfg, s, u, s');
    }
  }

  lemma StepInv(cfg: Config, s: State, step: Step)
    requires Inv(cfg, s) && Enabled(cfg, s, step)
    ensures Inv(cfg, Apply(cfg, s, step))
  {
    match step
    case Target(c, act) => TargetInv(cfg, s, c, act);
    case PodStep(pod, event) => PodInv(cfg, s, pod, event);
    case Proxy(u, call) =>
      if call.FilterCreate? || call.ReserveCreate? {
        ProxyCreateInv(cfg, s, u, call);
      } else if call.ReserveAllow? {
        ReserveAllowInv(cfg, s, u);
      } else if call.PostBindDelete? {
        PostBindDeleteInv(cfg, s, u, call.c, call.ok, Apply(cfg, s, step));
      } else if call.Bind? {
        BindInv(cfg, s, u);
      } else {
        LocalInv(cfg, s, u, call, Apply(cfg, s, step));
      }
  }

  lemma {:induction false} ReachableInv(cfg: Config, run: seq<Step>, s: State)
    requires Reaches(cfg, run, s)
    ensures Inv(cfg, s)
    decreases |run|
  {
    if run == [] {
      InitInv(cfg);
    } else {
      var before := Exec(cfg, run[..|run| - 1]).value;
      ReachableInv(cfg, run[..|run| - 1], before);
      StepInv(cfg, before, run[|run| - 1]);
    }
  }
}
