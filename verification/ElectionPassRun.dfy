/** A run in which the election succeeds: the candidate is created, reserved, seen, chosen and allowed, and passes
    the candidate scheduler's gate.  What the gate theorem says is said of runs that exist. */
module ElectionPassRun {
  import opened Kube
  import opened ChaperonServer
  import opened ElectionModel
  import opened ElectionTheorems
  import opened ElectionGate
  import opened ElectionRaceRun

  /** The states of the run: one pod with reservations and one target. */
  function In(stage: Stage, passed: set<string>, absent: set<string>, node: string, api: Server): State {
    State(map[POD := ProxyPod("u", "", false)], map["u" := POD], map["n" := Cluster(api, map[], {})],
          map["u" := Cycle(POD, false, passed, absent, stage, node, {}, {})], map[])
  }

  /** The target holds the pod's chaperon, reserved and allowed as stated, and nothing else. */
  ghost predicate Offers(api: Server, reserved: bool, allowed: bool) {
    && Valid(api) && api.objs.Keys == {K}
    && LABEL_PARENT_UID in api.objs[K].labels && Parent(api.objs[K]) == "u" && api.objs[K].status == Status("", [])
    && (ANNOTATION_IS_RESERVED in api.objs[K].annotations <==> reserved)
    && (ANNOTATION_IS_ALLOWED in api.objs[K].annotations <==> allowed)
  }

  lemma Started() returns (run: seq<Step>)
    ensures Reaches(CFG, run, In(Filtering, {}, {}, "", EMPTY))
  {
    var s0 := Init(CFG);
    var created := PodStep(POD, Created("u"));
    assert Exec(CFG, []) == Some(s0);
    assert s0.clusters == map["n" := UNTOUCHED];
    ReachesMore(CFG, [], s0, created);
    var s1 := Apply(CFG, s0, created);
    ReachesMore(CFG, [] + [created], s1, Proxy("u", StartCycle(false)));
    assert Apply(CFG, s1, Proxy("u", StartCycle(false))) == In(Filtering, {}, {}, "", EMPTY);
    run := [] + [created] + [Proxy("u", StartCycle(false))];
  }

  /** A poll finds no candidate. */
  lemma FoundNone() returns (run: seq<Step>)
    ensures Reaches(CFG, run, In(Filtering, {}, {"n"}, "", EMPTY))
  {
    var r := Started();
    var s, step := In(Filtering, {}, {}, "", EMPTY), Proxy("u", FilterPoll("n", SeenNone));
    assert ListByParent(EMPTY, "ns", "u") == {};
    ReachesMore(CFG, r, s, step);
    var s' := Apply(CFG, s, step);
    assert s'.cycles["u"].absent == {"n"};
    assert s' == In(Filtering, {}, {"n"}, "", EMPTY);
    run := r + [step];
  }

  lemma NewIsUnmarked()
    ensures Offers(Write(EMPTY, NEW), false, false)
  {
    OurKeys();
    WriteValid(EMPTY, NEW);
    var n := |KEY_PREFIX|;
    assert ANNOTATION_IS_RESERVED[n] == 'i' && ANNOTATION_IS_ALLOWED[n] == 'i';
    assert ANNOTATION_PARENT_NAME[n] == 'p' && ANNOTATION_PARENT_NAMESPACE[n] == 'p';
  }

  lemma NewIsCandidate(s: State)
    requires s == In(Filtering, {}, {"n"}, "", EMPTY)
    ensures Enabled(CFG, s, Proxy("u", FilterCreate("n", NEW)))
  {
    assert IsNewCandidate(CFG, s, "u", NEW);
  }

  lemma AfterCreation(s: State)
    requires s == In(Filtering, {}, {"n"}, "", EMPTY) && Enabled(CFG, s, Proxy("u", FilterCreate("n", NEW)))
    ensures Apply(CFG, s, Proxy("u", FilterCreate("n", NEW))) == In(Filtering, {}, {}, "", Write(EMPTY, NEW))
  {
    var s' := Apply(CFG, s, Proxy("u", FilterCreate("n", NEW)));
    assert s'.cycles["u"].absent == {};
  }

  /** So Filter creates it. */
  lemma CreatedIt() returns (run: seq<Step>, api: Server)
    ensures Reaches(CFG, run, In(Filtering, {}, {}, "", api)) && Offers(api, false, false)
  {
    var r := FoundNone();
    NewIsUnmarked();
    api := Write(EMPTY, NEW);
    var s, step := In(Filtering, {}, {"n"}, "", EMPTY), Proxy("u", FilterCreate("n", NEW));
    NewIsCandidate(s);
    AfterCreation(s);
    ReachesMore(CFG, r, s, step);
    run := r + [step];
  }

  lemma MarkedBy(api: Server, reserved: bool, allowed: bool, patch: Patch, reserved': bool, allowed': bool)
    requires Offers(api, reserved, allowed) && patch.Keys <= {ANNOTATION_IS_RESERVED, ANNOTATION_IS_ALLOWED}
    requires reserved' == if ANNOTATION_IS_RESERVED in patch then patch[ANNOTATION_IS_RESERVED].Some? else reserved
    requires allowed' == if ANNOTATION_IS_ALLOWED in patch then patch[ANNOTATION_IS_ALLOWED].Some? else allowed
    ensures Offers(After(api, PatchAnnotations(api, K, patch)), reserved', allowed')
  {
    OurKeys();
    var n := |KEY_PREFIX|;
    assert ANNOTATION_IS_RESERVED[n] == 'i' && ANNOTATION_IS_ALLOWED[n] == 'i';
    assert ANNOTATION_PARENT_NAME[n] == 'p' && ANNOTATION_PARENT_NAMESPACE[n] == 'p';
    PatchRewrites(api, K, patch);
  }

  /** The candidate scheduler reserves a node for it. */
  lemma ReservedIt() returns (run: seq<Step>, api: Server)
    ensures Reaches(CFG, run, In(Filtering, {}, {}, "", api)) && Offers(api, true, false)
  {
    var r, a := CreatedIt();
    OurKeys();
    MarkedBy(a, false, false, RESERVE, true, false);
    var s, step := In(Filtering, {}, {}, "", a), Target("n", CandidateReserve(K));
    api := After(a, PatchAnnotations(a, K, RESERVE));
    ReachesMore(CFG, r, s, step);
    assert s.clusters["n" := Cluster(api, map[], {})] == map["n" := Cluster(api, map[], {})];
    assert Apply(CFG, s, step) == In(Filtering, {}, {}, "", api);
    run := r + [step];
  }

  lemma Lists(api: Server, reserved: bool, allowed: bool)
    requires Offers(api, reserved, allowed)
    ensures ListByParent(api, "ns", "u") == {K} && |ListByParent(api, "ns", "u")| == 1
  {
  }

  /** The next poll sees that. */
  lemma SawIt() returns (run: seq<Step>, api: Server)
    ensures Reaches(CFG, run, In(Filtering, {"n"}, {}, "", api)) && Offers(api, true, false)
  {
    var r, a := ReservedIt();
    api := a;
    Lists(api, true, false);
    var s, step := In(Filtering, {}, {}, "", api), Proxy("u", FilterPoll("n", SeenReserved));
    assert Observes(s, "u", "n", SeenReserved) by {
      assert K in Candidates(s, "n", "u");
    }
    ReachesMore(CFG, r, s, step);
    var s' := Apply(CFG, s, step);
    assert s'.cycles["u"].passed == {"n"};
    assert s' == In(Filtering, {"n"}, {}, "", api);
    run := r + [step];
  }

  /** Reserve chooses the node. */
  lemma ChoseIt() returns (run: seq<Step>, api: Server)
    ensures Reaches(CFG, run, In(Allowing(K), {"n"}, {}, "n", api)) && Offers(api, true, false)
  {
    var r, a := SawIt();
    api := a;
    Lists(api, true, false);
    var s, step := In(Filtering, {"n"}, {}, "", api), Proxy("u", Reserve("n"));
    ReachesMore(CFG, r, s, step);
    assert TheOne(Candidates(s, "n", "u")) == K;
    assert Apply(CFG, s, step) == In(Allowing(K), {"n"}, {}, "n", api);
    run := r + [step];
  }

  /** And allows the candidate. */
  lemma AllowedIt() returns (run: seq<Step>, api: Server)
    ensures Reaches(CFG, run, In(Waiting, {"n"}, {}, "n", api)) && Offers(api, true, true)
  {
    var r, a := ChoseIt();
    OurKeys();
    MarkedBy(a, true, false, ALLOW, true, true);
    var s, step := In(Allowing(K), {"n"}, {}, "n", a), Proxy("u", ReserveAllow);
    api := After(a, PatchAnnotations(a, K, ALLOW));
    ReachesMore(CFG, r, s, step);
    assert Apply(CFG, s, step).clusters == map["n" := Cluster(api, map[], {})];
    assert Apply(CFG, s, step) == In(Waiting, {"n"}, {}, "n", api);
    run := r + [step];
  }

  /** A candidate of ours gets through the gate in some run, with reservations. */
  lemma GateIsPassed() returns (run: seq<Step>, s: State)
    ensures Reaches(CFG, run, s) && Enabled(CFG, s, Target("n", CandidatePreBind(K)))
    ensures Parent(s.clusters["n"].api.objs[K]) in s.issued
    ensures Chose(run, "u", "n") && "u" in s.cycles && !s.cycles["u"].noReservation
  {
    var r, api := AllowedIt();
    run, s := r, In(Waiting, {"n"}, {}, "n", api);
    GateIsSafe(CFG, run, s, "n", K);
  }
}
