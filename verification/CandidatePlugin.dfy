/** The candidate scheduler plugin of a target cluster: it marks candidates as reserved and holds them
    back until the proxy scheduler has allowed them. */
module CandidatePlugin {
  import opened Kube
  import opened ChaperonServer
  import opened ElectionModel
  import opened ElectionGate
  import opened World

  /** A new scheduling attempt withdraws the reservation and nothing else. */
  method PreFilter(w: World, c: string, k: Key) returns (ok: bool)
    requires w.Valid() && c in w.clusters
    modifies w`clusters, w`run
    ensures w.Valid() && (ok <==> k in old(w.clusters)[c].api.objs)
    ensures w.run == old(w.run) + if ok then [Target(c, CandidatePreFilter(k))] else []
    ensures !ok ==> w.clusters == old(w.clusters)
    ensures ok ==> OnlyAnnotates(old(w.clusters), w.clusters, c, k,
                                 old(w.clusters)[c].api.objs[k].annotations - {ANNOTATION_IS_RESERVED})
  {
    if k !in w.clusters[c].api.objs {
      return false;
    }
    ghost var s := w.Now();
    ServerValid(w, c);
    var api := w.clusters[c].api;
    PatchOneEffect(api, k, UNRESERVE);
    assert MergePatch(api.objs[k].annotations, UNRESERVE) == api.objs[k].annotations - {ANNOTATION_IS_RESERVED};
    w.clusters := w.clusters[c := w.clusters[c].(api := After(api, PatchAnnotations(api, k, UNRESERVE)))];
    w.Record(s, Target(c, CandidatePreFilter(k)));
    return true;
  }

  /** A node was reserved for the candidate. */
  method Reserve(w: World, c: string, k: Key) returns (ok: bool)
    requires w.Valid() && c in w.clusters
    modifies w`clusters, w`run
    ensures w.Valid() && (ok <==> k in old(w.clusters)[c].api.objs)
    ensures w.run == old(w.run) + if ok then [Target(c, CandidateReserve(k))] else []
    ensures !ok ==> w.clusters == old(w.clusters)
    ensures ok ==> OnlyAnnotates(old(w.clusters), w.clusters, c, k,
                                 old(w.clusters)[c].api.objs[k].annotations[ANNOTATION_IS_RESERVED := "true"])
  {
    if k !in w.clusters[c].api.objs {
      return false;
    }
    ghost var s := w.Now();
    ServerValid(w, c);
    var api := w.clusters[c].api;
    PatchOneEffect(api, k, RESERVE);
    assert MergePatch(api.objs[k].annotations, RESERVE) == api.objs[k].annotations[ANNOTATION_IS_RESERVED := "true"];
    w.clusters := w.clusters[c := w.clusters[c].(api := After(api, PatchAnnotations(api, k, RESERVE)))];
    w.Record(s, Target(c, CandidateReserve(k)));
    return true;
  }

  /** The mark is missing in this state. */
  ghost predicate NotAllowed(s: State, c: string, k: Key) {
    c in s.clusters && (k in s.clusters[c].api.objs ==> ANNOTATION_IS_ALLOWED !in s.clusters[c].api.objs[k].annotations)
  }

  /** A poll that finds the mark lets the candidate through. */
  method Pass(w: World, c: string, k: Key)
    requires w.Valid() && c in w.clusters && k in w.clusters[c].api.objs
    requires ANNOTATION_IS_ALLOWED in w.clusters[c].api.objs[k].annotations
    modifies w`run
    ensures w.Valid() && w.run == old(w.run) + [Target(c, CandidatePreBind(k))]
    ensures Parent(w.clusters[c].api.objs[k]) in w.issued ==> Chose(w.run, Parent(w.clusters[c].api.objs[k]), c)
  {
    ghost var s, u := w.Now(), Parent(w.clusters[c].api.objs[k]);
    if u in w.issued {
      GateIsSafe(w.cfg, w.run, s, c, k);
      ChoseLater(w.run, Target(c, CandidatePreBind(k)), u, c);
    }
    assert s.clusters[c := s.clusters[c]] == s.clusters;
    w.Record(s, Target(c, CandidatePreBind(k)));
  }

  /** Others move, and then one poll looks for the mark, unless it fails. */
  method Glance(w: World, c: string, k: Key, env: Environment, i: nat, fault: bool) returns (ok: bool, ghost s: State)
    requires w.Valid() && c in w.cfg.targets && IsEnvironment(w.cfg, CandidateIn(c), env)
    modifies w
    ensures w.Valid() && old(w.run) <= w.run && w.Now() == s == env(i, old(w.Now()))
    ensures fault ==> !ok
    ensures !fault ==> (ok <==> !NotAllowed(s, c, k))
    ensures ok ==> Passed(w.run, w.Now(), c, k)
  {
    w.Interfere(CandidateIn(c), i, env);
    ClustersAreTargets(w.cfg, w.run, w.Now());
    s := w.Now();
    ok := !fault && k in w.clusters[c].api.objs && ANNOTATION_IS_ALLOWED in w.clusters[c].api.objs[k].annotations;
    if ok {
      Pass(w, c, k);
    }
  }

  /** The candidate has just got through: it carries the mark, and if it is one of our pods' the proxy scheduler
      had chosen this cluster for that pod. */
  ghost predicate Passed(run: seq<Step>, s: State, c: string, k: Key) {
    && run != [] && run[|run| - 1] == Target(c, CandidatePreBind(k))
    && c in s.clusters && k in s.clusters[c].api.objs && ANNOTATION_IS_ALLOWED in s.clusters[c].api.objs[k].annotations
    && (Parent(s.clusters[c].api.objs[k]) in s.issued ==> Chose(run, Parent(s.clusters[c].api.objs[k]), c))
  }

  /** Waits until the candidate is allowed; polls in `faults` fail and are repeated.  `states` are the states found by
      the polls: the candidate gets through if and only if some poll that does not fail finds the mark. */
  method PreBind(w: World, c: string, k: Key, env: Environment, polls: nat, faults: set<nat>)
    returns (ok: bool, ghost states: seq<State>)
    requires w.Valid() && c in w.cfg.targets && IsEnvironment(w.cfg, CandidateIn(c), env)
    modifies w
    ensures w.Valid() && old(w.run) <= w.run
    ensures Trace(env, old(w.Now()), states) && |states| <= polls && (!ok ==> |states| == polls)
    ensures forall i :: 0 <= i < |states| - (if ok then 1 else 0) ==> i in faults || NotAllowed(states[i], c, k)
    ensures ok ==>
      |states| > 0 && |states| - 1 !in faults && w.Now() == states[|states| - 1] && Passed(w.run, w.Now(), c, k)
  {
    states := [];
    for i := 0 to polls
      invariant w.Valid() && old(w.run) <= w.run
      invariant |states| == i && Trace(env, old(w.Now()), states)
      invariant w.Now() == LastOf(old(w.Now()), states)
      invariant forall j :: 0 <= j < i ==> j in faults || NotAllowed(states[j], c, k)
    {
      ghost var s;
      ok, s := Glance(w, c, k, env, i, i in faults);
      TraceMore(env, old(w.Now()), states, s);
      states := states + [s];
      if ok {
        return;
      }
    }
    return false, states;
  }
}
