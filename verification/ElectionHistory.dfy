/** What the marks on chaperons prove about the past: a candidate that passes the candidate scheduler's
    gate was chosen by the proxy scheduler, and the delegate of a bound pod stays. */
module ElectionHistory {
  import opened Kube
  import opened RemoteControl
  import opened ChaperonServer
  import opened ElectionModel
  import opened ElectionInvariant

  // ---- What a call on a target can write ----

  /** The new version of a chaperon follows the old one: same reference, no new mark on a chaperon of
      ours except a missing stamp when the chaperon controller writes one. */
  ghost predicate Follows(cfg: Config, issued: map<string, Key>, prior: Chaperon, next: Chaperon, stamped: bool) {
    && Reference(next) == Reference(prior)
    && (IsRemoteControlled(next.labels, cfg.clusterName) ==>
          IsRemoteControlled(prior.labels, cfg.clusterName) || Parent(next) in issued)
    && (Parent(next) in issued ==>
          && (ANNOTATION_IS_ALLOWED in next.annotations ==> ANNOTATION_IS_ALLOWED in prior.annotations)
          && (ANNOTATION_MISSING_SINCE in next.annotations ==>
                ANNOTATION_MISSING_SINCE in prior.annotations || stamped))
  }

  /** Nothing written: objects can only have been removed. */
  ghost predicate OnlyRemoves(a: Server, b: Server) {
    b.served == a.served && forall k :: k in b.objs ==> k in a.objs && b.objs[k] == a.objs[k]
  }

  ghost predicate WritesOne(cfg: Config, issued: map<string, Key>, a: Server, b: Server, o: Chaperon, stamped: bool) {
    && b == Write(a, o)
    && o.key in a.objs && Follows(cfg, issued, a.objs[o.key], o, stamped)
  }

  ghost predicate CreatesForeign(cfg: Config, issued: map<string, Key>, a: Server, b: Server, o: Chaperon) {
    b == Write(a, o) && Fresh(a, o.key) && Parent(o) !in issued && !IsRemoteControlled(o.labels, cfg.clusterName)
  }

  ghost predicate Change(cfg: Config, issued: map<string, Key>, a: Server, b: Server, stamped: bool) {
    || OnlyRemoves(a, b)
    || (exists o :: WritesOne(cfg, issued, a, b, o, stamped))
    || (exists o :: CreatesForeign(cfg, issued, a, b, o))
  }

  /** A merge patch changes no mark but its own. */
  lemma PatchChange(cfg: Config, issued: map<string, Key>, api: Server, k: Key, patch: Patch, stamped: bool)
    requires Valid(api) && ANNOTATION_PARENT_NAME !in patch && ANNOTATION_PARENT_NAMESPACE !in patch
    requires ANNOTATION_IS_ALLOWED !in patch
    requires ANNOTATION_MISSING_SINCE in patch && patch[ANNOTATION_MISSING_SINCE].Some? ==> stamped
    ensures Change(cfg, issued, api, After(api, PatchAnnotations(api, k, patch)), stamped)
  {
    if k in api.objs {
      var o := api.objs[k].(annotations := MergePatch(api.objs[k].annotations, patch));
      if o != api.objs[k] {
        assert WritesOne(cfg, issued, api, Write(api, o), o, stamped);
      }
    }
  }

  lemma PatchKeys()
    ensures ANNOTATION_IS_ALLOWED !in RESERVE && ANNOTATION_IS_ALLOWED !in UNRESERVE
    ensures ANNOTATION_IS_ALLOWED !in CLEAR_MISSING
    ensures forall v :: ANNOTATION_IS_ALLOWED !in StampMissing(v)
    ensures ANNOTATION_MISSING_SINCE !in RESERVE && ANNOTATION_MISSING_SINCE !in UNRESERVE
    ensures ANNOTATION_MISSING_SINCE !in ALLOW
    ensures ANNOTATION_MISSING_SINCE in CLEAR_MISSING ==> CLEAR_MISSING[ANNOTATION_MISSING_SINCE].None?
  {
    OurKeys();
  }

  lemma SyncStatusChange(cfg: Config, issued: map<string, Key>, cl: Cluster, k: Key, status: Status)
    requires ClusterOk(cl) && k in cl.syncs
    ensures Change(cfg, issued, cl.api, After(cl.api, UpdateStatus(cl.api, cl.syncs[k].current.(status := status))),
                   false)
  {
    assert SyncOk(cl, k);
    var base := cl.syncs[k].current;
    LockedStatus(cl.api, base, status);
    var r := UpdateStatus(cl.api, base.(status := status));
    if r.Stored? && r.server != cl.api {
      var o := cl.api.objs[k].(status := status);
      assert WritesOne(cfg, issued, cl.api, r.server, o, false);
    }
  }

  lemma SameOursFollows(cfg: Config, issued: map<string, Key>, prior: Chaperon, next: Chaperon)
    requires Ours(next.labels) == Ours(prior.labels) && Ours(next.annotations) == Ours(prior.annotations)
    ensures Follows(cfg, issued, prior, next, false)
  {
    OurKeys();
    SameOursSameReference(next, prior);
    forall k | k in {ANNOTATION_IS_ALLOWED, ANNOTATION_MISSING_SINCE} && k in next.annotations
      ensures k in prior.annotations {
      assert k in Ours(next.annotations);
    }
    if LABEL_PARENT_CLUSTER in next.labels {
      assert LABEL_PARENT_CLUSTER in Ours(next.labels);
      assert Ours(next.labels)[LABEL_PARENT_CLUSTER] == Ours(prior.labels)[LABEL_PARENT_CLUSTER];
    }
  }

  lemma SyncAnnotateChange(cfg: Config, issued: map<string, Key>, cl: Cluster, k: Key, a: map<string, string>)
    requires ClusterOk(cl) && k in cl.syncs
    ensures var y := cl.syncs[k];
      Change(cfg, issued, cl.api,
             After(cl.api, Update(cl.api, y.current.(annotations := Ours(y.cached.annotations) + Others(a)))), false)
  {
    assert SyncOk(cl, k);
    var y := cl.syncs[k];
    var annotations := Ours(y.cached.annotations) + Others(a);
    LockedAnnotations(cl.api, y.current, annotations);
    var r := Update(cl.api, y.current.(annotations := annotations));
    if r.Stored? && r.server != cl.api {
      var o := y.current.(annotations := annotations);
      SplitAndMerge(y.cached.annotations, a);
      SameOursFollows(cfg, issued, y.current, o);
      assert WritesOne(cfg, issued, cl.api, r.server, o, false);
    }
  }

  lemma RelabelChange(cfg: Config, issued: map<string, Key>, api: Server, base: Chaperon)
    requires Valid(api) && base in api.served && Parent(base) in issued
    ensures Change(cfg, issued, api,
                   After(api, Update(api, base.(labels := base.labels[LABEL_PARENT_CLUSTER := cfg.clusterName]))),
                       false)
  {
    OurKeys();
    var o := base.(labels := base.labels[LABEL_PARENT_CLUSTER := cfg.clusterName]);
    var r := Update(api, o);
    if r.Stored? && r.server != api {
      MatchingVersionIsCurrent(api, base);
      assert WritesOne(cfg, issued, api, r.server, o, false);
    }
  }

  lemma TargetChange(cfg: Config, s: State, c: string, act: TargetCall)
    requires c in s.clusters && ClusterOk(s.clusters[c]) && TargetEnabled(cfg, s, c, act)
    ensures Change(cfg, s.issued, s.clusters[c].api, ApplyTarget(cfg, s, c, act).api, act.SyncStampMissing?)
  {
    var cl := s.clusters[c];
    var api := cl.api;
    assert OnlyRemoves(api, api);
    match act {
      case CandidatePreFilter(k) => PatchKeys(); PatchesAreTame(); PatchChange(cfg, s.issued, api, k, UNRESERVE, false);
      case CandidateReserve(k) => PatchKeys(); PatchesAreTame(); PatchChange(cfg, s.issued, api, k, RESERVE, false);
      case SyncStampMissing(k, v) => PatchKeys(); PatchesAreTame(); PatchChange(cfg, s.issued, api, k, StampMissing(v),
                                                                                true);
      case SyncClearMissing(k) => PatchKeys(); PatchesAreTame(); PatchChange(cfg, s.issued, api, k, CLEAR_MISSING,
                                                                             false);
      case SyncStatus(k, status) => SyncStatusChange(cfg, s.issued, cl, k, status);
      case SyncAnnotate(k, a) => SyncAnnotateChange(cfg, s.issued, cl, k, a);
      case FeedbackRelabel(o) => RelabelChange(cfg, s.issued, api, o);
      case ChaperonEdited(o) =>
        SameOursFollows(cfg, s.issued, api.objs[o.key], o);
        assert WritesOne(cfg, s.issued, api, Write(api, o), o, false);
      case ForeignCreated(o) => assert CreatesForeign(cfg, s.issued, api, Write(api, o), o);
      case ForeignWritten(o) => assert WritesOne(cfg, s.issued, api, Write(api, o), o, false);
      case _ =>
    }
  }

  // ---- Names and cluster labels ----

  /** A name denotes chaperons of one parent only, for as long as the cluster lives. */
  ghost predicate NamesOk(api: Server) {
    forall o, o' :: o in api.served && o' in api.served && o.key == o'.key ==> Parent(o) == Parent(o')
  }

  /** Our cluster name appears on chaperons of our pods only. */
  ghost predicate LabelsOk(cfg: Config, issued: map<string, Key>, api: Server) {
    forall o :: o in api.served && IsRemoteControlled(o.labels, cfg.clusterName) ==> Parent(o) in issued
  }

  ghost predicate Known(api: Server, k: Key, u: string) {
    exists o :: o in api.served && o.key == k && Parent(o) == u
  }

  ghost predicate AllowingOk(s: State, u: string)
    requires u in s.cycles
  {
    s.cycles[u].stage.Allowing? && s.cycles[u].node in s.clusters ==>
      Known(s.clusters[s.cycles[u].node].api, s.cycles[u].stage.candidate, u)
  }

  ghost predicate NamingInv(cfg: Config, s: State) {
    && (forall c :: c in s.clusters ==> NamesOk(s.clusters[c].api) && LabelsOk(cfg, s.issued, s.clusters[c].api))
    && (forall u :: u in s.cycles ==> AllowingOk(s, u))
  }

  lemma ChangeNaming(cfg: Config, issued: map<string, Key>, a: Server, b: Server, stamped: bool)
    requires Valid(a) && NamesOk(a) && LabelsOk(cfg, issued, a) && Change(cfg, issued, a, b, stamped)
    ensures NamesOk(b) && LabelsOk(cfg, issued, b) && a.served <= b.served
  {
    if o :| WritesOne(cfg, issued, a, b, o, stamped) {
      assert a.objs[o.key] in a.served;
      assert Parent(o.(rv := a.rev + 1)) == Reference(o).uid == Parent(a.objs[o.key]);
    }
  }

  lemma CreateNaming(cfg: Config, s: State, u: string, n: string, o: Chaperon)
    requires u in s.cycles && u in s.issued && n in s.clusters && IsNewCandidate(cfg, s, u, o)
    requires Fresh(s.clusters[n].api, o.key)
    requires NamesOk(s.clusters[n].api) && LabelsOk(cfg, s.issued, s.clusters[n].api)
    ensures var b := Write(s.clusters[n].api, o); NamesOk(b) && LabelsOk(cfg, s.issued, b)
  {
    NewCandidateReference(cfg, s, u, o);
    assert Parent(o.(rv := s.clusters[n].api.rev + 1)) == Reference(o).uid == u;
  }

  /** How one step may change the state, as far as names, marks and history are concerned. */
  ghost predicate ServersEvolve(cfg: Config, s: State, s': State, step: Step) {
    && s'.clusters.Keys == s.clusters.Keys
    && (forall u :: u in s.issued ==> u in s'.issued)
    && (forall c :: c in s.clusters ==>
          || s'.clusters[c].api == s.clusters[c].api
          || Change(cfg, s.issued, s.clusters[c].api, s'.clusters[c].api, step.Target? && step.act.SyncStampMissing?)
          || Creates(cfg, s, s', step, c)
          || Allows(s, s', step, c))
  }

  ghost predicate Creates(cfg: Config, s: State, s': State, step: Step, c: string)
    requires c in s.clusters && c in s'.clusters
  {
    && step.Proxy? && step.u in s.cycles && (step.call.FilterCreate? || step.call.ReserveCreate?)
    && IsNewCandidate(cfg, s, step.u, step.call.obj) && Fresh(s.clusters[c].api, step.call.obj.key)
    && s'.clusters[c].api == Write(s.clusters[c].api, step.call.obj)
  }

  ghost predicate Allows(s: State, s': State, step: Step, c: string)
    requires c in s.clusters && c in s'.clusters
  {
    && step.Proxy? && step.call.ReserveAllow? && step.u in s.cycles
    && s.cycles[step.u].stage.Allowing? && s.cycles[step.u].node == c
    && s'.clusters[c].api ==
        After(s.clusters[c].api, PatchAnnotations(s.clusters[c].api, s.cycles[step.u].stage.candidate, ALLOW))
  }

  lemma CreateEvolution(cfg: Config, s: State, u: string, call: ProxyCall, s': State)
    requires ProxyEnabled(cfg, s, u, call) && (call.FilterCreate? || call.ReserveCreate?)
    requires s' == ApplyProxy(cfg, s, u, call)
    ensures ServersEvolve(cfg, s, s', Proxy(u, call))
  {
    var n := if call.FilterCreate? then call.n else s.cycles[u].node;
    assert Creates(cfg, s, s', Proxy(u, call), n);
  }

  lemma ProxyEvolution(cfg: Config, s: State, u: string, call: ProxyCall, s': State)
    requires ProxyEnabled(cfg, s, u, call) && s' == ApplyProxy(cfg, s, u, call)
    ensures ServersEvolve(cfg, s, s', Proxy(u, call))
  {
    if call.FilterCreate? || call.ReserveCreate? {
      CreateEvolution(cfg, s, u, call, s');
    } else if call.PostBindDelete? {
      assert OnlyRemoves(s.clusters[call.c].api, s'.clusters[call.c].api);
    } else if call.ReserveAllow? {
      assert Allows(s, s', Proxy(u, call), s.cycles[u].node);
    } else if IsLocal(call) {
      LocalFrame(cfg, s, u, call, s');
    }
  }

  lemma Evolution(cfg: Config, s: State, step: Step)
    requires Inv(cfg, s) && Enabled(cfg, s, step)
    ensures ServersEvolve(cfg, s, Apply(cfg, s, step), step)
  {
    match step
    case Target(c, act) =>
      assert ClusterOk(s.clusters[c]);
      TargetChange(cfg, s, c, act);
    case PodStep(pod, event) =>
    case Proxy(u, call) =>
      ProxyEvolution(cfg, s, u, call, ApplyProxy(cfg, s, u, call));
  }

  // ---- How a cycle moves ----

  /** A call that starts or ends the pod's cycle. */
  predicate Boundary(call: ProxyCall) {
    call.StartCycle? || call.PostFilter? || call.AbortCycle? || call.Unreserve? || call.PostBindDone?
  }

  ghost predicate PassedMoves(cy: Cycle, cy': Cycle, call: ProxyCall) {
    && !Boundary(call) && cy'.noReservation == cy.noReservation && cy'.key == cy.key
    && (forall n :: n in cy'.passed ==>
          n in cy.passed || (call == FilterSkip(n) && cy.noReservation) || call == FilterPoll(n, SeenReserved))
  }

  ghost predicate AllowingMoves(s: State, u: string, cy': Cycle, call: ProxyCall)
    requires u in s.cycles
  {
    var cy := s.cycles[u];
    cy'.stage.Allowing? ==>
      || (cy.stage == cy'.stage && cy.node == cy'.node)
      || (call == Reserve(cy'.node) && cy'.node in cy.passed && cy'.node in s.clusters
          && cy'.stage.candidate in Candidates(s, cy'.node, u))
  }

  lemma OtherCycles(cfg: Config, s: State, u: string, call: ProxyCall, s': State)
    requires ProxyEnabled(cfg, s, u, call) && s' == ApplyProxy(cfg, s, u, call)
    ensures forall v :: v != u ==>
      (v in s'.cycles <==> v in s.cycles) && (v in s.cycles ==> s'.cycles[v] == s.cycles[v])
  {
  }

  lemma OwnPassed(cfg: Config, s: State, u: string, call: ProxyCall, s': State)
    requires ProxyEnabled(cfg, s, u, call) && s' == ApplyProxy(cfg, s, u, call) && u in s'.cycles
    ensures call.StartCycle? ==> s'.cycles[u].passed == {} && s'.cycles[u].noReservation == call.noReservation
    ensures !call.StartCycle? ==> u in s.cycles && PassedMoves(s.cycles[u], s'.cycles[u], call)
  {
  }

  lemma OwnAllowing(cfg: Config, s: State, u: string, call: ProxyCall, s': State)
    requires ProxyEnabled(cfg, s, u, call) && s' == ApplyProxy(cfg, s, u, call) && u in s'.cycles
    ensures call.StartCycle? ==> s'.cycles[u].stage.Filtering?
    ensures !call.StartCycle? ==> u in s.cycles && AllowingMoves(s, u, s'.cycles[u], call)
  {
  }

  // ---- Names stay with their parent ----

  lemma ServerNaming(cfg: Config, s: State, s': State, step: Step, c: string)
    requires Inv(cfg, s) && NamingInv(cfg, s) && ServersEvolve(cfg, s, s', step) && c in s.clusters
    ensures NamesOk(s'.clusters[c].api) && LabelsOk(cfg, s'.issued, s'.clusters[c].api)
    ensures s.clusters[c].api.served <= s'.clusters[c].api.served
  {
    var a, b := s.clusters[c].api, s'.clusters[c].api;
    assert ClusterOk(s.clusters[c]) && NamesOk(a) && LabelsOk(cfg, s.issued, a);
    if a == b {
    } else if Change(cfg, s.issued, a, b, step.Target? && step.act.SyncStampMissing?) {
      ChangeNaming(cfg, s.issued, a, b, step.Target? && step.act.SyncStampMissing?);
    } else if Creates(cfg, s, s', step, c) {
      assert CycleOk(cfg, s, step.u);
      CreateNaming(cfg, s, step.u, c, step.call.obj);
    } else {
      AllowNaming(cfg, s.issued, a, s.cycles[step.u].stage.candidate);
    }
  }

  lemma AllowNaming(cfg: Config, issued: map<string, Key>, a: Server, k: Key)
    requires Valid(a) && NamesOk(a) && LabelsOk(cfg, issued, a)
    ensures var b := After(a, PatchAnnotations(a, k, ALLOW));
      NamesOk(b) && LabelsOk(cfg, issued, b) && a.served <= b.served
  {
    if k in a.objs {
      var o := a.objs[k].(annotations := MergePatch(a.objs[k].annotations, ALLOW));
      assert Parent(o.(rv := a.rev + 1)) == Parent(a.objs[k]);
    }
  }

  lemma StillKnown(a: Server, b: Server, k: Key, u: string)
    requires Known(a, k, u) && a.served <= b.served
    ensures Known(b, k, u)
  {
    var o :| o in a.served && o.key == k && Parent(o) == u;
    assert o in b.served;
  }

  /** A cycle that is about to allow a candidate was about to do so before, or has just found it. */
  ghost predicate Found(s: State, u: string, cy': Cycle)
    requires cy'.stage.Allowing?
  {
    && u in s.cycles
    && (|| (s.cycles[u].stage == cy'.stage && s.cycles[u].node == cy'.node)
        || (cy'.node in s.clusters && cy'.stage.candidate in Candidates(s, cy'.node, u)))
  }

  lemma StepFinds(cfg: Config, s: State, step: Step, s': State, u: string)
    requires Enabled(cfg, s, step) && s' == Apply(cfg, s, step) && u in s'.cycles && s'.cycles[u].stage.Allowing?
    ensures Found(s, u, s'.cycles[u])
  {
    if step.Proxy? {
      OtherCycles(cfg, s, step.u, step.call, s');
      if step.u == u {
        OwnAllowing(cfg, s, u, step.call, s');
      }
    }
  }

  lemma StepAllowing(s: State, s': State, u: string)
    requires u in s'.cycles && (s'.cycles[u].stage.Allowing? ==> Found(s, u, s'.cycles[u]))
    requires forall v :: v in s.cycles ==> AllowingOk(s, v)
    requires s'.clusters.Keys == s.clusters.Keys
    requires forall c :: c in s.clusters ==>
      Valid(s.clusters[c].api) && s.clusters[c].api.served <= s'.clusters[c].api.served
    ensures AllowingOk(s', u)
  {
    var cy' := s'.cycles[u];
    if cy'.stage.Allowing? && cy'.node in s'.clusters {
      var a, b := s.clusters[cy'.node].api, s'.clusters[cy'.node].api;
      if s.cycles[u].stage == cy'.stage && s.cycles[u].node == cy'.node {
        assert AllowingOk(s, u);
      } else {
        assert a.objs[cy'.stage.candidate] in a.served;
        assert Known(a, cy'.stage.candidate, u);
      }
      StillKnown(a, b, cy'.stage.candidate, u);
    }
  }

  lemma StepNaming(cfg: Config, s: State, step: Step)
    requires Inv(cfg, s) && NamingInv(cfg, s) && Enabled(cfg, s, step)
    ensures NamingInv(cfg, Apply(cfg, s, step))
  {
    var s' := Apply(cfg, s, step);
    Evolution(cfg, s, step);
    forall c | c in s.clusters
      ensures NamesOk(s'.clusters[c].api) && LabelsOk(cfg, s'.issued, s'.clusters[c].api)
      ensures s.clusters[c].api.served <= s'.clusters[c].api.served
    {
      ServerNaming(cfg, s, s', step, c);
    }
    forall c | c in s.clusters ensures Valid(s.clusters[c].api) {
      assert ClusterOk(s.clusters[c]);
    }
    forall u | u in s'.cycles ensures AllowingOk(s', u) {
      if s'.cycles[u].stage.Allowing? {
        StepFinds(cfg, s, step, s', u);
      }
      StepAllowing(s, s', u);
    }
  }

  // ---- Marks ----

  /** Every allowed chaperon of ours was allowed before, except the one Reserve has just allowed. */
  lemma StepMarks(cfg: Config, s: State, step: Step, s': State, c: string, k: Key)
    requires Inv(cfg, s) && NamingInv(cfg, s) && ServersEvolve(cfg, s, s', step)
    requires c in s.clusters && k in s'.clusters[c].api.objs
    requires Parent(s'.clusters[c].api.objs[k]) in s.issued
    requires ANNOTATION_IS_ALLOWED in s'.clusters[c].api.objs[k].annotations
    ensures || (k in s.clusters[c].api.objs && ANNOTATION_IS_ALLOWED in s.clusters[c].api.objs[k].annotations
                && Parent(s.clusters[c].api.objs[k]) == Parent(s'.clusters[c].api.objs[k]))
            || (step == Proxy(Parent(s'.clusters[c].api.objs[k]), ReserveAllow)
                && step.u in s.cycles && s.cycles[step.u].stage.Allowing? && s.cycles[step.u].node == c)
  {
    var a, b := s.clusters[c].api, s'.clusters[c].api;
    assert ClusterOk(s.clusters[c]);
    if a != b {
      if Change(cfg, s.issued, a, b, step.Target? && step.act.SyncStampMissing?) {
        ChangeMarks(cfg, s.issued, a, b, step.Target? && step.act.SyncStampMissing?, k);
      } else if Creates(cfg, s, s', step, c) {
        NewCandidateReference(cfg, s, step.u, step.call.obj);
      } else {
        assert AllowingOk(s, step.u);
        AllowMarks(a, s.cycles[step.u].stage.candidate, step.u, k);
      }
    }
  }

  lemma AllowMarks(a: Server, candidate: Key, u: string, k: Key)
    requires Valid(a) && NamesOk(a) && Known(a, candidate, u)
    requires k in After(a, PatchAnnotations(a, candidate, ALLOW)).objs
    ensures var b := After(a, PatchAnnotations(a, candidate, ALLOW));
      k in a.objs && Parent(b.objs[k]) == Parent(a.objs[k]) && (b.objs[k] == a.objs[k] || Parent(b.objs[k]) == u)
  {
    var o :| o in a.served && o.key == candidate && Parent(o) == u;
    if candidate in a.objs {
      assert a.objs[candidate] in a.served;
    }
  }

  lemma ChangeMarks(cfg: Config, issued: map<string, Key>, a: Server, b: Server, stamped: bool, k: Key)
    requires Valid(a) && Change(cfg, issued, a, b, stamped) && k in b.objs && Parent(b.objs[k]) in issued
    ensures k in a.objs && Reference(b.objs[k]) == Reference(a.objs[k])
    ensures ANNOTATION_IS_ALLOWED in b.objs[k].annotations ==> ANNOTATION_IS_ALLOWED in a.objs[k].annotations
    ensures ANNOTATION_MISSING_SINCE in b.objs[k].annotations ==>
      ANNOTATION_MISSING_SINCE in a.objs[k].annotations || stamped
  {
    if o :| WritesOne(cfg, issued, a, b, o, stamped) {
      assert Reference(o.(rv := a.rev + 1)) == Reference(o);
      assert Parent(o) == Parent(o.(rv := a.rev + 1));
    } else if o :| CreatesForeign(cfg, issued, a, b, o) {
      assert Parent(o) == Parent(o.(rv := a.rev + 1));
    }
  }
}
