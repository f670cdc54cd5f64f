/** A run in which a bound pod loses an unmarked delegate: the feedback controller found the chaperon marked,
    the mark was cleared and the pod was bound before the deletion was sent. */
module ElectionRaceRun {
  import opened Kube
  import opened RemoteControl
  import opened ChaperonServer
  import opened ElectionModel
  import opened ElectionTheorems
  import opened ElectionStability
  import opened ElectionRace

  const CFG := Config("source", map["n" := Node(true, "")], map["n" := ""])
  const POD := Key("ns", "pod")
  const K := Key("ns", "pod-x")
  const BOUND := Status("Running", [Condition("PodScheduled", "True", "")])

  /** The states of the run: one pod, one cycle without reservations, one target. */
  function At(stage: Stage, passed: set<string>, node: string, podNode: string, cl: Cluster): State {
    State(map[POD := ProxyPod("u", podNode, false)], map["u" := POD], map["n" := cl],
          map["u" := Cycle(POD, true, passed, {}, stage, node, {}, {})], map[])
  }

  const NEW := Chaperon(K, 0, ReferenceLabels(map[], "u", "source"), ReferenceAnnotations(Others(map[]), POD), true,
                        Status("", []))

  /** The target holds the pod's chaperon and nothing else. */
  ghost predicate Holds(api: Server, marked: bool, status: Status) {
    && Valid(api) && api.objs.Keys == {K}
    && LABEL_PARENT_UID in api.objs[K].labels && Parent(api.objs[K]) == "u" && api.objs[K].status == status
    && (ANNOTATION_MISSING_SINCE in api.objs[K].annotations <==> marked)
  }

  lemma Listed(api: Server, marked: bool, status: Status)
    requires Holds(api, marked, status)
    ensures ListByParent(api, "ns", "u") == {K} && |ListByParent(api, "ns", "u")| == 1
  {
  }

  lemma Patched(api: Server, marked: bool, status: Status, patch: Patch, marks: bool)
    requires Holds(api, marked, status) && patch.Keys == {ANNOTATION_MISSING_SINCE}
    requires (patch[ANNOTATION_MISSING_SINCE].Some? <==> marks)
    ensures Holds(After(api, PatchAnnotations(api, K, patch)), marks, status)
  {
    PatchRewrites(api, K, patch);
  }

  lemma Edited(api: Server, marked: bool, status: Status, status': Status)
    requires Holds(api, marked, status)
    ensures Holds(Write(api, api.objs[K].(status := status')), marked, status')
  {
    WriteValid(api, api.objs[K].(status := status'));
  }

  const UNTOUCHED := Cluster(EMPTY, map[], {})

  /** The pod is created and a cycle without reservations starts. */
  lemma Started() returns (run: seq<Step>)
    ensures Reaches(CFG, run, At(Filtering, {}, "", "", UNTOUCHED))
  {
    var s0 := Init(CFG);
    var created := PodStep(POD, Created("u"));
    assert Exec(CFG, []) == Some(s0);
    assert s0.clusters == map["n" := UNTOUCHED];
    ReachesMore(CFG, [], s0, created);
    var s1 := Apply(CFG, s0, created);
    ReachesMore(CFG, [] + [created], s1, Proxy("u", StartCycle(true)));
    assert Apply(CFG, s1, Proxy("u", StartCycle(true))) == At(Filtering, {}, "", "", UNTOUCHED);
    run := [] + [created] + [Proxy("u", StartCycle(true))];
  }

  lemma Passed() returns (run: seq<Step>)
    ensures Reaches(CFG, run, At(Filtering, {"n"}, "", "", UNTOUCHED))
  {
    var r := Started();
    var s := At(Filtering, {}, "", "", UNTOUCHED);
    ReachesMore(CFG, r, s, Proxy("u", FilterSkip("n")));
    var s' := Apply(CFG, s, Proxy("u", FilterSkip("n")));
    assert s'.cycles["u"].passed == {"n"};
    assert s' == At(Filtering, {"n"}, "", "", UNTOUCHED);
    run := r + [Proxy("u", FilterSkip("n"))];
  }

  /** It gets as far as creating the candidate. */
  lemma Offered() returns (run: seq<Step>, s: State)
    ensures Reaches(CFG, run, s) && s == At(Creating, {"n"}, "n", "", UNTOUCHED)
  {
    var r := Passed();
    var s0 := At(Filtering, {"n"}, "", "", UNTOUCHED);
    assert ListByParent(EMPTY, "ns", "u") == {};
    ReachesMore(CFG, r, s0, Proxy("u", Reserve("n")));
    run, s := r + [Proxy("u", Reserve("n"))], Apply(CFG, s0, Proxy("u", Reserve("n")));
  }

  lemma Stored()
    ensures Holds(Write(EMPTY, NEW), false, Status("", []))
    ensures IsNewCandidate(CFG, At(Creating, {"n"}, "n", "", UNTOUCHED), "u", NEW)
  {
    OurKeys();
    WriteValid(EMPTY, NEW);
    var n := |KEY_PREFIX|;
    assert ANNOTATION_MISSING_SINCE[n + 1] == 'o' && ANNOTATION_PARENT_NAME[n + 1] == 'a'
        && ANNOTATION_PARENT_NAMESPACE[n + 1] == 'a';
  }

  /** The candidate is stored. */
  lemma CandidateStored() returns (run: seq<Step>, api: Server)
    ensures Reaches(CFG, run, At(Waiting, {"n"}, "n", "", Cluster(api, map[], {}))) && Holds(api, false, Status("", []))
  {
    var r, s := Offered();
    Stored();
    api := Write(EMPTY, NEW);
    ReachesMore(CFG, r, s, Proxy("u", ReserveCreate(NEW)));
    run := r + [Proxy("u", ReserveCreate(NEW))];
    assert Apply(CFG, s, Proxy("u", ReserveCreate(NEW))) == At(Waiting, {"n"}, "n", "", Cluster(api, map[], {}));
  }

  /** A step on the target. */
  lemma OnTarget(run: seq<Step>, stage: Stage, cl: Cluster, act: TargetCall, cl': Cluster)
    requires var s := At(stage, {"n"}, "n", "", cl);
      Reaches(CFG, run, s) && TargetEnabled(CFG, s, "n", act) && cl' == ApplyTarget(CFG, s, "n", act)
    ensures Reaches(CFG, run + [Target("n", act)], At(stage, {"n"}, "n", "", cl'))
  {
    var s := At(stage, {"n"}, "n", "", cl);
    ReachesMore(CFG, run, s, Target("n", act));
    assert s.clusters["n" := cl'] == map["n" := cl'];
  }

  /** The chaperon controller finds no pod and marks the chaperon. */
  lemma Marked() returns (run: seq<Step>, api: Server)
    ensures Reaches(CFG, run, At(Waiting, {"n"}, "n", "", Cluster(api, map[], {}))) && Holds(api, true, Status("", []))
  {
    var r, a := CandidateStored();
    var o := a.objs[K];
    OnTarget(r, Waiting, Cluster(a, map[], {}), SyncRead(o), Cluster(a, map[K := Sync(o, o)], {}));
    api := After(a, PatchAnnotations(a, K, StampMissing("t")));
    Patched(a, false, Status("", []), StampMissing("t"), true);
    assert map[K := Sync(o, o)] - {K} == map[];
    OnTarget(r + [Target("n", SyncRead(o))], Waiting, Cluster(a, map[K := Sync(o, o)], {}), SyncStampMissing(K, "t"),
             Cluster(api, map[], {}));
    run := r + [Target("n", SyncRead(o))] + [Target("n", SyncStampMissing(K, "t"))];
  }

  /** The feedback controller decides to delete it. */
  lemma Condemned() returns (run: seq<Step>, api: Server)
    ensures Reaches(CFG, run, At(Waiting, {"n"}, "n", "", Cluster(api, map[], {K}))) && Holds(api, true, Status("", []))
  {
    var r, a := Marked();
    api := a;
    Listed(api, true, Status("", []));
    var s := At(Waiting, {"n"}, "n", "", Cluster(api, map[], {}));
    assert FeedbackDecision(CFG, s, "n", POD) == {K};
    OnTarget(r, Waiting, Cluster(api, map[], {}), FeedbackRead(POD), Cluster(api, map[], {K}));
    run := r + [Target("n", FeedbackRead(POD))];
  }

  /** The chaperon controller finds the pod and clears the mark; the pod is reported scheduled. */
  lemma Recovered() returns (run: seq<Step>, cl: Cluster)
    ensures Reaches(CFG, run, At(Waiting, {"n"}, "n", "", cl)) && Holds(cl.api, false, BOUND) && K in cl.deciding
  {
    var r, a := Condemned();
    var o := a.objs[K];
    var syncs := map[K := Sync(o, o)];
    OnTarget(r, Waiting, Cluster(a, map[], {K}), SyncRead(o), Cluster(a, syncs, {K}));
    var r1 := r + [Target("n", SyncRead(o))];
    var b := After(a, PatchAnnotations(a, K, CLEAR_MISSING));
    Patched(a, true, Status("", []), CLEAR_MISSING, false);
    OnTarget(r1, Waiting, Cluster(a, syncs, {K}), SyncClearMissing(K), Cluster(b, syncs, {K}));
    var r2 := r1 + [Target("n", SyncClearMissing(K))];
    var p := b.objs[K].(status := BOUND);
    Edited(b, false, Status("", []), BOUND);
    cl := Cluster(Write(b, p), syncs, {K});
    OnTarget(r2, Waiting, Cluster(b, syncs, {K}), ChaperonEdited(p), cl);
    run := r2 + [Target("n", ChaperonEdited(p))];
  }

  lemma SeenBound() returns (run: seq<Step>, cl: Cluster)
    ensures Reaches(CFG, run, At(Ready, {"n"}, "n", "", cl)) && Holds(cl.api, false, BOUND) && K in cl.deciding
  {
    var r, c := Recovered();
    cl := c;
    var s := At(Waiting, {"n"}, "n", "", cl);
    Listed(cl.api, false, BOUND);
    assert K in Candidates(s, "n", "u") && ScheduledStatus(BOUND.conditions) == Some("True");
    ReachesMore(CFG, r, s, Proxy("u", PreBind));
    run := r + [Proxy("u", PreBind)];
    assert Apply(CFG, s, Proxy("u", PreBind)) == At(Ready, {"n"}, "n", "", cl);
  }

  lemma BoundRun() returns (run: seq<Step>, cl: Cluster)
    ensures Reaches(CFG, run, At(Bound, {"n"}, "n", "n", cl)) && Holds(cl.api, false, BOUND) && K in cl.deciding
  {
    var r, c := SeenBound();
    cl := c;
    var s := At(Ready, {"n"}, "n", "", cl);
    ReachesMore(CFG, r, s, Proxy("u", Bind));
    run := r + [Proxy("u", Bind)];
    assert Apply(CFG, s, Proxy("u", Bind)) == At(Bound, {"n"}, "n", "n", cl);
  }

  /** The pod is bound; the deletion decided on before takes its unmarked delegate. */
  lemma BoundDelegateIsLost() returns (run: seq<Step>, s: State)
    ensures Reaches(CFG, run, s) && LiveDelegate(s, POD, "n", K)
    ensures Pending(CFG, run, POD, "n", K) && !Survives(CFG, run, POD, "n", K)
  {
    var r, cl := BoundRun();
    run, s := r, At(Bound, {"n"}, "n", "n", cl);
    SurvivalIffNotPending(CFG, run, s, POD, "n", K);
  }
}
