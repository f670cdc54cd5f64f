/** The writing half of the chaperon controller: it copies the status and the user's annotations of the
    delegate pod onto the pod chaperon, under optimistic locking, while the schedulers patch their marks. */
module ChaperonSync {
  import opened Kube
  import opened ChaperonServer
  import opened ElectionModel
  import opened ElectionInvariant
  import opened ElectionTheorems
  import opened ElectionHistory
  import opened World

  /** What the controller sees of the delegate pod. */
  datatype PodView = PodView(controlled: bool, status: Status, annotations: map<string, string>)

  datatype Outcome = Done | Requeue | Error

  // ---- A stale run stays stale ----

  /** The copy the run would write next is not what the server holds. */
  ghost predicate Stale(cl: Cluster, k: Key) {
    k in cl.syncs && (k in cl.api.objs ==> cl.api.objs[k].rv != cl.syncs[k].current.rv)
  }

  lemma StaleServer(cfg: Config, s: State, step: Step, s': State, c: string, k: Key)
    requires Inv(cfg, s) && ServersEvolve(cfg, s, s', step) && c in s.clusters && Stale(s.clusters[c], k)
    requires k in s'.clusters[c].syncs && s'.clusters[c].syncs[k] == s.clusters[c].syncs[k]
    ensures Stale(s'.clusters[c], k)
  {
    var a, b := s.clusters[c].api, s'.clusters[c].api;
    assert ClusterOk(s.clusters[c]) && SyncOk(s.clusters[c], k);
    if k in b.objs && a != b {
      NewVersion(cfg, s, step, s', c, k);
    }
  }

  lemma ChangeVersion(cfg: Config, issued: map<string, Key>, a: Server, b: Server, stamped: bool, k: Key)
    requires Change(cfg, issued, a, b, stamped) && k in b.objs
    ensures (k in a.objs && b.objs[k] == a.objs[k]) || b.objs[k].rv == a.rev + 1
  {
  }

  /** Whatever a step does to a server, an object it leaves there is unchanged or has a new version. */
  lemma NewVersion(cfg: Config, s: State, step: Step, s': State, c: string, k: Key)
    requires ServersEvolve(cfg, s, s', step) && c in s.clusters && k in s'.clusters[c].api.objs
    requires Valid(s.clusters[c].api)
    ensures var a, b := s.clusters[c].api, s'.clusters[c].api;
      (k in a.objs && b.objs[k] == a.objs[k]) || b.objs[k].rv == a.rev + 1
  {
    var a, b, stamped := s.clusters[c].api, s'.clusters[c].api, step.Target? && step.act.SyncStampMissing?;
    if Change(cfg, s.issued, a, b, stamped) {
      ChangeVersion(cfg, s.issued, a, b, stamped, k);
    }
  }

  lemma {:induction false} StaleStays(cfg: Config, run: seq<Step>, c: string, k: Key, s: State, more: seq<Step>,
                                      s': State)
    requires Reaches(cfg, run, s) && Elsewhere(cfg, SyncFor(c, k), s, more, s')
    requires c in s.clusters && Stale(s.clusters[c], k)
    ensures c in s'.clusters && Stale(s'.clusters[c], k)
    decreases |more|
  {
    if more != [] {
      var mid := Apply(cfg, s, more[0]);
      ReachableInv(cfg, run, s);
      Evolution(cfg, s, more[0]);
      OtherActors(cfg, SyncFor(c, k), s, more[0], mid);
      StaleServer(cfg, s, more[0], mid, c, k);
      ReachesMore(cfg, run, s, more[0]);
      StaleStays(cfg, run + [more[0]], c, k, mid, more[1..], s');
    }
  }

  // ---- The calls ----

  method Read(w: World, c: string, cached: Chaperon)
    requires w.Valid() && c in w.clusters && cached in w.clusters[c].api.served && cached.key !in w.clusters[c].syncs
    modifies w`clusters, w`run
    ensures w.Valid() && old(w.run) <= w.run && c in w.clusters && w.clusters[c].api == old(w.clusters)[c].api
    ensures cached.key in w.clusters[c].syncs && w.clusters[c].syncs[cached.key] == Sync(cached, cached)
  {
    ghost var s := w.Now();
    w.clusters := w.clusters[c := w.clusters[c].(syncs := w.clusters[c].syncs[cached.key := Sync(cached, cached)])];
    w.Record(s, Target(c, SyncRead(cached)));
  }

  method End(w: World, c: string, k: Key)
    requires w.Valid() && c in w.clusters && k in w.clusters[c].syncs
    modifies w`clusters, w`run
    ensures w.Valid() && w.run == old(w.run) + [Target(c, SyncEnd(k))] && c in w.clusters
    ensures w.clusters[c].api == old(w.clusters)[c].api
  {
    ghost var s := w.Now();
    w.clusters := w.clusters[c := w.clusters[c].(syncs := w.clusters[c].syncs - {k})];
    w.Record(s, Target(c, SyncEnd(k)));
  }

  lemma Cleared(cfg: Config, run: seq<Step>, s: State, c: string, k: Key, cl': Cluster)
    requires Reaches(cfg, run, s) && Enabled(cfg, s, Target(c, SyncClearMissing(k)))
    requires cl' == ApplyTarget(cfg, s, c, SyncClearMissing(k))
    ensures k in cl'.syncs && Stale(cl', k)
    ensures k in s.clusters[c].api.objs ==>
      k in cl'.api.objs && ANNOTATION_MISSING_SINCE !in cl'.api.objs[k].annotations
  {
    if k in s.clusters[c].api.objs {
      ClearedMarkIsNotResurrected(cfg, run, s, c, k, cl'.syncs[k].current.status, map[]);
      ReachableInv(cfg, run, s);
      CurrentServed(s.clusters[c], k);
    }
  }

  /** Removes the missing mark.  From here on the run is stale. */
  method ClearMissing(w: World, c: string, k: Key) returns (ok: bool)
    requires w.Valid() && c in w.clusters && k in w.clusters[c].syncs
    requires ANNOTATION_MISSING_SINCE in w.clusters[c].syncs[k].cached.annotations
    modifies w`clusters, w`run
    ensures w.Valid() && old(w.run) <= w.run && c in w.clusters && w.clusters[c].syncs == old(w.clusters)[c].syncs
    ensures ok <==> k in old(w.clusters)[c].api.objs
    ensures ok ==> k in w.clusters[c].api.objs && ANNOTATION_MISSING_SINCE !in w.clusters[c].api.objs[k].annotations
    ensures !ok ==> k !in w.clusters[c].api.objs
    ensures Stale(w.clusters[c], k)
  {
    ghost var s := w.Now();
    var api := w.clusters[c].api;
    ok := k in api.objs;
    Cleared(w.cfg, w.run, s, c, k, ApplyTarget(w.cfg, s, c, SyncClearMissing(k)));
    w.clusters := w.clusters[c := w.clusters[c].(api := After(api, PatchAnnotations(api, k, CLEAR_MISSING)))];
    w.Record(s, Target(c, SyncClearMissing(k)));
  }

  method WriteStatus(w: World, c: string, k: Key, status: Status) returns (ok: bool)
    requires w.Valid() && c in w.clusters && k in w.clusters[c].syncs
    modifies w`clusters, w`run
    ensures w.Valid() && w.run == old(w.run) + [Target(c, SyncStatus(k, status))] && c in w.clusters
    ensures ok <==> !old(Stale(w.clusters[c], k))
    ensures KeepsOurs(old(w.clusters)[c].api.objs, w.clusters[c].api.objs, k)
    ensures ok ==> k in w.clusters[c].syncs && w.clusters[c].syncs[k].cached == old(w.clusters)[c].syncs[k].cached
                   && k in w.clusters[c].api.objs && w.clusters[c].api.objs[k].status == status
  {
    ghost var s := w.Now();
    var cl := w.clusters[c];
    var base := cl.syncs[k].current;
    var r := UpdateStatus(cl.api, base.(status := status));
    ReachableInv(w.cfg, w.run, s);
    CurrentServed(cl, k);
    LockedStatus(cl.api, base, status);
    CurrentUnlessStale(cl, k);
    NoLostUpdate(w.cfg, w.run, s, c, SyncStatus(k, status));
    ok := r.Stored?;
    if ok {
      w.clusters := w.clusters[c := cl.(api := r.server, syncs := cl.syncs[k := Sync(cl.syncs[k].cached, r.obj)])];
    } else {
      w.clusters := w.clusters[c := cl.(syncs := cl.syncs - {k})];
    }
    w.Record(s, Target(c, SyncStatus(k, status)));
  }

  lemma CurrentUnlessStale(cl: Cluster, k: Key)
    requires ClusterOk(cl) && k in cl.syncs
    ensures !Stale(cl, k) <==> k in cl.api.objs && cl.api.objs[k] == cl.syncs[k].current
  {
    CurrentServed(cl, k);
    if !Stale(cl, k) {
      MatchingVersionIsCurrent(cl.api, cl.syncs[k].current);
    }
  }

  lemma CurrentServed(cl: Cluster, k: Key)
    requires ClusterOk(cl) && k in cl.syncs
    ensures Valid(cl.api) && cl.syncs[k].current in cl.api.served && cl.syncs[k].current.key == k
    ensures Ours(cl.syncs[k].current.annotations) == Ours(cl.syncs[k].cached.annotations)
  {
    assert SyncOk(cl, k);
  }

  method WriteAnnotations(w: World, c: string, k: Key, podAnnotations: map<string, string>) returns (ok: bool)
    requires w.Valid() && c in w.clusters && k in w.clusters[c].syncs
    modifies w`clusters, w`run
    ensures w.Valid() && w.run == old(w.run) + [Target(c, SyncAnnotate(k, podAnnotations))] && c in w.clusters
    ensures ok <==> !old(Stale(w.clusters[c], k))
    ensures KeepsOurs(old(w.clusters)[c].api.objs, w.clusters[c].api.objs, k)
    ensures ok ==>
      k in w.clusters[c].api.objs && Others(w.clusters[c].api.objs[k].annotations) == Others(podAnnotations)
  {
    ghost var s := w.Now();
    var cl := w.clusters[c];
    var y := cl.syncs[k];
    var mc, _ := SplitLabelsOrAnnotations(y.cached.annotations);
    var _, other := SplitLabelsOrAnnotations(podAnnotations);
    var annotations := mc + other;
    var r := Update(cl.api, y.current.(annotations := annotations));
    ReachableInv(w.cfg, w.run, s);
    CurrentServed(cl, k);
    LockedAnnotations(cl.api, y.current, annotations);
    CurrentUnlessStale(cl, k);
    SplitAndMerge(y.cached.annotations, podAnnotations);
    NoLostUpdate(w.cfg, w.run, s, c, SyncAnnotate(k, podAnnotations));
    ok := r.Stored?;
    w.clusters := w.clusters[c := cl.(api := After(cl.api, r), syncs := cl.syncs - {k})];
    w.Record(s, Target(c, SyncAnnotate(k, podAnnotations)));
  }

  // ---- The run ----

  /** Others act, then the mark is cleared; the run ends here if the chaperon is gone. */
  method ClearFirst(w: World, c: string, k: Key, env: Environment) returns (ok: bool)
    requires w.Valid() && c in w.clusters && k in w.clusters[c].syncs && IsEnvironment(w.cfg, SyncFor(c, k), env)
    requires ANNOTATION_MISSING_SINCE in w.clusters[c].syncs[k].cached.annotations
    modifies w
    ensures w.Valid() && old(w.run) <= w.run && c in w.clusters
    ensures if ok then k in w.clusters[c].syncs && Stale(w.clusters[c], k) else k !in w.clusters[c].api.objs
  {
    w.Interfere(SyncFor(c, k), 0, env);
    ok := ClearMissing(w, c, k);
    if !ok {
      assert k !in w.clusters[c].api.objs;
      End(w, c, k);
    }
  }

  /** From a cached copy to the last write, with others acting before every call.  Annotations and status
      reach the server only if the cached copy is still current; in particular a run that had to clear the
      missing mark never writes anything else, and asks to be called again if there is more to write. */
  method Handle(w: World, c: string, cached: Chaperon, pod: PodView, env: Environment) returns (outcome: Outcome)
    requires w.Valid() && c in w.clusters && cached in w.clusters[c].api.served && cached.key !in w.clusters[c].syncs
    requires IsEnvironment(w.cfg, SyncFor(c, cached.key), env)
    modifies w
    ensures w.Valid() && old(w.run) <= w.run
    ensures outcome.Done? ==> pod.controlled
    ensures outcome.Error? && pod.controlled ==>
      && ANNOTATION_MISSING_SINCE in cached.annotations
      && c in w.clusters && cached.key !in w.clusters[c].api.objs
    ensures outcome.Done? ==> Pushed(w.cfg, w.run, |old(w.run)|, c, cached, pod)
    ensures outcome.Requeue? ==> Rejected(w.cfg, w.run, c, cached, pod)
    ensures outcome.Done? && ANNOTATION_MISSING_SINCE in cached.annotations ==>
              cached.status == pod.status && Others(cached.annotations) == Others(pod.annotations)
  {
    var k := cached.key;
    Read(w, c, cached);
    if !pod.controlled {
      End(w, c, k);
      return Error;
    }
    if ANNOTATION_MISSING_SINCE in cached.annotations {
      var cleared := ClearFirst(w, c, k, env);
      if !cleared {
        return Error;
      }
    }
    outcome := Push(w, c, cached, pod, env);
  }

  /** The i-th step of the run wrote the status, and the server stored it: the state after it has it. */
  ghost predicate StatusWritten(cfg: Config, run: seq<Step>, i: int, c: string, k: Key, status: Status) {
    && 0 <= i < |run| && run[i] == Target(c, SyncStatus(k, status))
    && forall s :: Reaches(cfg, run[..i + 1], s) ==>
         c in s.clusters && k in s.clusters[c].api.objs && s.clusters[c].api.objs[k].status == status
  }

  ghost predicate AnnotationsWritten(cfg: Config, run: seq<Step>, i: int, c: string, k: Key, a: map<string, string>) {
    && 0 <= i < |run| && run[i] == Target(c, SyncAnnotate(k, a))
    && forall s :: Reaches(cfg, run[..i + 1], s) ==>
         c in s.clusters && k in s.clusters[c].api.objs && Others(s.clusters[c].api.objs[k].annotations) == Others(a)
  }

  ghost predicate HasStatus(cfg: Config, run: seq<Step>, n: nat, c: string, k: Key, status: Status) {
    exists i :: n <= i < |run| && StatusWritten(cfg, run, i, c, k, status)
  }

  ghost predicate EndsWithAnnotations(cfg: Config, run: seq<Step>, c: string, k: Key, a: map<string, string>) {
    exists i :: i == |run| - 1 && AnnotationsWritten(cfg, run, i, c, k, a)
  }

  /** The step at position p tried to write, and the copy it was based on was no longer current. */
  ghost predicate RejectedAt(cfg: Config, run: seq<Step>, p: int, c: string, k: Key, act: TargetCall) {
    && 0 <= p < |run| && run[p] == Target(c, act)
    && forall s :: Reaches(cfg, run[..p], s) ==> c in s.clusters && Stale(s.clusters[c], k)
  }

  ghost predicate EndsRejected(cfg: Config, run: seq<Step>, c: string, k: Key, act: TargetCall) {
    exists p :: p == |run| - 1 && RejectedAt(cfg, run, p, c, k, act)
  }

  /** The run ended because a write that was needed came from an outdated copy. */
  ghost predicate Rejected(cfg: Config, run: seq<Step>, c: string, cached: Chaperon, pod: PodView) {
    || (cached.status != pod.status && EndsRejected(cfg, run, c, cached.key, SyncStatus(cached.key, pod.status)))
    || (&& Others(cached.annotations) != Others(pod.annotations)
        && EndsRejected(cfg, run, c, cached.key, SyncAnnotate(cached.key, pod.annotations)))
  }

  /** Others act, then the status is written. */
  method PushStatus(w: World, c: string, k: Key, status: Status, env: Environment) returns (ok: bool)
    requires w.Valid() && c in w.clusters && k in w.clusters[c].syncs && IsEnvironment(w.cfg, SyncFor(c, k), env)
    modifies w
    ensures w.Valid() && old(w.run) <= w.run && |w.run| > |old(w.run)| && c in w.clusters
    ensures (ok ==> k in w.clusters[c].syncs)
    ensures ok ==> HasStatus(w.cfg, w.run, |old(w.run)|, c, k, status)
    ensures !ok ==> EndsRejected(w.cfg, w.run, c, k, SyncStatus(k, status))
    ensures old(Stale(w.clusters[c], k)) ==> !ok
  {
    Pause(w, c, k, 1, env);
    ghost var before := w.run;
    ok := WriteStatus(w, c, k, status);
    assert w.run[..|w.run|] == w.run;
    assert ok ==> StatusWritten(w.cfg, w.run, |w.run| - 1, c, k, status);
    assert w.run[..|w.run| - 1] == before;
    assert !ok ==> RejectedAt(w.cfg, w.run, |w.run| - 1, c, k, SyncStatus(k, status));
  }

  method PushAnnotations(w: World, c: string, k: Key, annotations: map<string, string>, env: Environment)
    returns (ok: bool)
    requires w.Valid() && c in w.clusters && k in w.clusters[c].syncs && IsEnvironment(w.cfg, SyncFor(c, k), env)
    modifies w
    ensures w.Valid() && old(w.run) <= w.run && |w.run| > |old(w.run)|
    ensures ok ==> EndsWithAnnotations(w.cfg, w.run, c, k, annotations)
    ensures !ok ==> EndsRejected(w.cfg, w.run, c, k, SyncAnnotate(k, annotations))
    ensures old(Stale(w.clusters[c], k)) ==> !ok
  {
    Pause(w, c, k, 2, env);
    ghost var before := w.run;
    ok := WriteAnnotations(w, c, k, annotations);
    assert w.run[..|w.run|] == w.run;
    assert ok ==> AnnotationsWritten(w.cfg, w.run, |w.run| - 1, c, k, annotations);
    assert w.run[..|w.run| - 1] == before;
    assert !ok ==> RejectedAt(w.cfg, w.run, |w.run| - 1, c, k, SyncAnnotate(k, annotations));
  }

  /** The second half of the run: the annotations are written, or there is nothing left to do. */
  method PushRest(w: World, c: string, k: Key, needUpdate: bool, annotations: map<string, string>, env: Environment)
    returns (ok: bool)
    requires w.Valid() && c in w.clusters && k in w.clusters[c].syncs && IsEnvironment(w.cfg, SyncFor(c, k), env)
    modifies w
    ensures w.Valid() && old(w.run) <= w.run && |w.run| > |old(w.run)|
    ensures ok && needUpdate ==> EndsWithAnnotations(w.cfg, w.run, c, k, annotations)
    ensures !ok ==> needUpdate && EndsRejected(w.cfg, w.run, c, k, SyncAnnotate(k, annotations))
    ensures needUpdate && old(Stale(w.clusters[c], k)) ==> !ok
  {
    if needUpdate {
      ok := PushAnnotations(w, c, k, annotations, env);
    } else {
      End(w, c, k);
      ok := true;
    }
  }

  /** What a finished run has written since position n: the status, if it differed, and then, as its last step,
      the annotations, if they differed. */
  ghost predicate Pushed(cfg: Config, run: seq<Step>, n: nat, c: string, cached: Chaperon, pod: PodView) {
    && (cached.status != pod.status ==> HasStatus(cfg, run, n, c, cached.key, pod.status))
    && (Others(cached.annotations) != Others(pod.annotations) ==>
          |run| > n && EndsWithAnnotations(cfg, run, c, cached.key, pod.annotations))
  }

  lemma HasStatusLater(cfg: Config, run: seq<Step>, run': seq<Step>, n: nat, c: string, k: Key, status: Status)
    requires HasStatus(cfg, run, n, c, k, status) && run <= run'
    ensures HasStatus(cfg, run', n, c, k, status)
  {
    var i :| n <= i < |run| && StatusWritten(cfg, run, i, c, k, status);
    assert run'[..i + 1] == run[..i + 1];
    assert StatusWritten(cfg, run', i, c, k, status);
  }

  /** The status differs: it is written first, then the rest. */
  method PushBoth(w: World, c: string, cached: Chaperon, pod: PodView, env: Environment) returns (ok: bool)
    requires w.Valid() && c in w.clusters && cached.key in w.clusters[c].syncs && cached.status != pod.status
    requires IsEnvironment(w.cfg, SyncFor(c, cached.key), env)
    modifies w
    ensures w.Valid() && old(w.run) <= w.run
    ensures ok ==> Pushed(w.cfg, w.run, |old(w.run)|, c, cached, pod)
    ensures !ok ==> Rejected(w.cfg, w.run, c, cached, pod)
    ensures old(Stale(w.clusters[c], cached.key)) ==> !ok
  {
    ok := PushStatus(w, c, cached.key, pod.status, env);
    if ok {
      ghost var before := w.run;
      var needUpdate := Others(cached.annotations) != Others(pod.annotations);
      ok := PushRest(w, c, cached.key, needUpdate, pod.annotations, env);
      if ok {
        HasStatusLater(w.cfg, before, w.run, |old(w.run)|, c, cached.key, pod.status);
      }
    }
  }

  /** Writes what differs from the cached copy: the status first, then the annotations. */
  method Push(w: World, c: string, cached: Chaperon, pod: PodView, env: Environment) returns (outcome: Outcome)
    requires w.Valid() && c in w.clusters && cached.key in w.clusters[c].syncs
    requires IsEnvironment(w.cfg, SyncFor(c, cached.key), env)
    modifies w
    ensures w.Valid() && old(w.run) <= w.run && !outcome.Error?
    ensures outcome.Done? ==> Pushed(w.cfg, w.run, |old(w.run)|, c, cached, pod)
    ensures outcome.Requeue? ==> Rejected(w.cfg, w.run, c, cached, pod)
    ensures outcome.Done? && old(Stale(w.clusters[c], cached.key)) ==>
              cached.status == pod.status && Others(cached.annotations) == Others(pod.annotations)
  {
    var needStatusUpdate := cached.status != pod.status;
    var needUpdate := Others(cached.annotations) != Others(pod.annotations);
    var ok;
    if needStatusUpdate {
      ok := PushBoth(w, c, cached, pod, env);
    } else {
      ok := PushRest(w, c, cached.key, needUpdate, pod.annotations, env);
    }
    return if ok then Done else Requeue;
  }

  /** The others act; a stale run stays stale. */
  method Pause(w: World, c: string, k: Key, i: nat, env: Environment)
    requires w.Valid() && c in w.clusters && k in w.clusters[c].syncs && IsEnvironment(w.cfg, SyncFor(c, k), env)
    modifies w
    ensures w.Valid() && old(w.run) <= w.run && c in w.clusters && k in w.clusters[c].syncs
    ensures w.clusters[c].syncs[k] == old(w.clusters)[c].syncs[k]
    ensures old(Stale(w.clusters[c], k)) ==> Stale(w.clusters[c], k)
  {
    ghost var s, run := w.Now(), w.run;
    w.Interfere(SyncFor(c, k), i, env);
    if Stale(s.clusters[c], k) {
      StaleStays(w.cfg, run, c, k, s, w.run[|run|..], w.Now());
    }
  }
}
