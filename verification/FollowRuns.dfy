/** A run of the follow protocol on an object that is not terminating, from its start to its last call, does what
    one run is specified to do: the protocol whose safety is proved does follow. */
module FollowRuns {
  import opened Kube
  import opened FollowModel
  import FollowSafety
  import opened FollowDeletionRuns

  /** The state after calls that all succeed, until the run ends. */
  ghost function Finish(cfg: FollowSafety.Config, s: FollowSafety.State, job: FollowSafety.Job, calls: nat)
    : FollowSafety.State
    requires job.target in cfg.targets && s.remote.Keys == cfg.targets.Keys
    decreases calls
  {
    if calls == 0 || job !in s.runs then s
    else Finish(cfg, FollowSafety.Apply(cfg, s, FollowSafety.Call(job, true)), job, calls - 1)
  }

  lemma {:induction false} FinishReaches(cfg: FollowSafety.Config, run: seq<FollowSafety.Step>, s: FollowSafety.State,
                                         job: FollowSafety.Job, calls: nat)
    returns (more: seq<FollowSafety.Step>)
    requires FollowSafety.Exec(cfg, run) == Some(s) && job.target in cfg.targets && s.remote.Keys == cfg.targets.Keys
    ensures Leads(cfg, run, s, more, Finish(cfg, s, job, calls))
    decreases calls
  {
    if calls == 0 || job !in s.runs {
      more := [];
      assert run + [] == run;
    } else {
      var step := FollowSafety.Call(job, true);
      var mid := FollowSafety.Apply(cfg, s, step);
      Extend(cfg, run, s, step);
      var rest := FinishReaches(cfg, run + [step], mid, job, calls - 1);
      more := [step] + rest;
      assert Leads(cfg, run, s, [step], mid);
      LeadsFurther(cfg, run, s, [step], mid, rest, Finish(cfg, s, job, calls));
    }
  }

  /** The objects of one name in the source and in one target. */
  function Pair(s: FollowSafety.State, k: Key, t: string): (Option<Obj>, Option<Obj>)
    requires t in s.remote
  {
    (Unversioned(FollowSafety.Get(s.local, k)), Unversioned(FollowSafety.Get(s.remote[t], k)))
  }

  function Specified(cfg: FollowSafety.Config, p: (Option<Obj>, Option<Obj>), job: FollowSafety.Job, shouldFollow: bool)
    : (Option<Obj>, Option<Obj>)
    requires job.target in cfg.targets
  {
    var (l, r) := AfterRun(cfg.clusterName, cfg.targets[job.target], job.key, p.0, p.1, shouldFollow);
    (Unversioned(l), Unversioned(r))
  }

  /** The last call creates the copy. */
  lemma Creates(cfg: FollowSafety.Config, s: FollowSafety.State, job: FollowSafety.Job, from: Obj, calls: nat)
    requires job.target in cfg.targets && s.remote.Keys == cfg.targets.Keys && calls >= 1
    requires job in s.runs && s.runs[job] == FollowSafety.Creating(from) && job.key !in s.remote[job.target].objs
    ensures var s' := Finish(cfg, s, job, calls);
      && s'.remote.Keys == cfg.targets.Keys && job !in s'.runs
      && Pair(s', job.key, job.target) ==
           (Pair(s, job.key, job.target).0, Unversioned(Some(MakeRemote(cfg.clusterName, job.key, from))))
  {
    var s' := FollowSafety.Apply(cfg, s, FollowSafety.Call(job, true));
    assert job !in s'.runs;
    assert Finish(cfg, s, job, calls) == Finish(cfg, s', job, calls - 1) == s';
  }

  /** The last call updates it. */
  lemma Updates(cfg: FollowSafety.Config, s: FollowSafety.State, job: FollowSafety.Job, from: Obj, calls: nat)
    requires job.target in cfg.targets && s.remote.Keys == cfg.targets.Keys && calls >= 1
    requires job.key in s.remote[job.target].objs
    requires job in s.runs && s.runs[job] == FollowSafety.Updating(from, s.remote[job.target].objs[job.key])
    ensures var s' := Finish(cfg, s, job, calls);
      && s'.remote.Keys == cfg.targets.Keys && job !in s'.runs
      && Pair(s', job.key, job.target) ==
           (Pair(s, job.key, job.target).0,
            Unversioned(Some(UpdatedRemote(cfg.clusterName, s.remote[job.target].objs[job.key], from))))
  {
    var s' := FollowSafety.Apply(cfg, s, FollowSafety.Call(job, true));
    assert job !in s'.runs;
    assert Finish(cfg, s, job, calls) == Finish(cfg, s', job, calls - 1) == s';
  }

  /** What is left to do after the finalizer is in place. */
  lemma Rest(cfg: FollowSafety.Config, s: FollowSafety.State, job: FollowSafety.Job, create: bool, update: bool,
             seen: Option<Obj>, calls: nat)
    requires job.target in cfg.targets && s.remote.Keys == cfg.targets.Keys && calls >= 1 && job.key in s.local.objs
    requires seen == FollowSafety.Get(s.remote[job.target], job.key) && create == seen.None? && (update ==> seen.Some?)
    requires FollowSafety.AfterAdding(s.local.objs[job.key], create, update, seen) ==
      if job in s.runs then Some(s.runs[job]) else None
    ensures var s' := Finish(cfg, s, job, calls);
      && s'.remote.Keys == cfg.targets.Keys && job !in s'.runs
      && Pair(s', job.key, job.target) ==
           (Pair(s, job.key, job.target).0,
            Unversioned(if create then Some(MakeRemote(cfg.clusterName, job.key, s.local.objs[job.key]))
                        else if update then Some(UpdatedRemote(cfg.clusterName, seen.value, s.local.objs[job.key]))
                        else seen))
  {
    if create {
      Creates(cfg, s, job, s.local.objs[job.key], calls);
    } else if update {
      Updates(cfg, s, job, s.local.objs[job.key], calls);
    }
  }

  /** The call that adds the finalizer. */
  lemma Adds(cfg: FollowSafety.Config, s: FollowSafety.State, job: FollowSafety.Job, cached: Obj, create: bool,
             update: bool, seen: Option<Obj>)
    requires job.target in cfg.targets && s.remote.Keys == cfg.targets.Keys && job in s.runs
    requires s.runs[job] == FollowSafety.Adding(cached, create, update, seen)
    requires job.key in s.local.objs && s.local.objs[job.key] == cached
    ensures var s' := FollowSafety.Apply(cfg, s, FollowSafety.Call(job, true));
      && s'.remote == s.remote && job.key in s'.local.objs
      && s'.local.objs[job.key] == WithFinalizer(cached, cfg.targets[job.target]).(rv := s.local.rev + 1)
      && FollowSafety.AfterAdding(s'.local.objs[job.key], create, update, seen) ==
           if job in s'.runs then Some(s'.runs[job]) else None
  {
  }

  /** A whole run on an object that is not terminating leaves what is specified. */
  lemma RunFollows(cfg: FollowSafety.Config, s: FollowSafety.State, job: FollowSafety.Job, shouldFollow: bool)
    requires job.target in cfg.targets && s.remote.Keys == cfg.targets.Keys && job !in s.runs
    requires job.key in s.local.objs && !s.local.objs[job.key].terminating
    ensures var s1 := FollowSafety.Apply(cfg, s, FollowSafety.Start(job, shouldFollow));
      && s1.remote.Keys == cfg.targets.Keys
      && var s' := Finish(cfg, s1, job, 2);
         && s'.remote.Keys == cfg.targets.Keys && job !in s'.runs
         && Pair(s', job.key, job.target) == Specified(cfg, Pair(s, job.key, job.target), job, shouldFollow)
  {
    var k, t, f := job.key, job.target, cfg.targets[job.target];
    var local, remote := s.local.objs[k], FollowSafety.Get(s.remote[t], k);
    var s1 := FollowSafety.Apply(cfg, s, FollowSafety.Start(job, shouldFollow));
    var plan := Plan(cfg.clusterName, f, Some(local), remote, shouldFollow);
    if plan.Follow? {
      if plan.addFinalizer {
        Adds(cfg, s1, job, local, plan.create, plan.update, remote);
        var s2 := FollowSafety.Apply(cfg, s1, FollowSafety.Call(job, true));
        assert Finish(cfg, s1, job, 2) == Finish(cfg, s2, job, 1);
        Rest(cfg, s2, job, plan.create, plan.update, remote, 1);
      } else {
        Rest(cfg, s1, job, plan.create, plan.update, remote, 2);
      }
    }
  }

  /** From every reachable state with no run of this target on the name in flight: a whole run is a run of the
      protocol, and leaves the source guarded and the copy carrying it. */
  lemma ReachableRunFollows(cfg: FollowSafety.Config, run: seq<FollowSafety.Step>, s: FollowSafety.State,
                            job: FollowSafety.Job, shouldFollow: bool)
    returns (more: seq<FollowSafety.Step>, s': FollowSafety.State)
    requires FollowSafety.ValidConfig(cfg) && FollowSafety.Exec(cfg, run) == Some(s)
    requires job.target in cfg.targets && job !in s.runs
    requires job.key in s.local.objs && !s.local.objs[job.key].terminating
    ensures Leads(cfg, run, s, more, s') && job !in s'.runs
    ensures s.remote.Keys == cfg.targets.Keys == s'.remote.Keys
    ensures Pair(s', job.key, job.target) == Specified(cfg, Pair(s, job.key, job.target), job, shouldFollow)
  {
    FollowSafety.ReachableInv(cfg, run, s);
    var start := FollowSafety.Start(job, shouldFollow);
    var s1 := FollowSafety.Apply(cfg, s, start);
    Extend(cfg, run, s, start);
    RunFollows(cfg, s, job, shouldFollow);
    var rest := FinishReaches(cfg, run + [start], s1, job, 2);
    s' := Finish(cfg, s1, job, 2);
    more := [start] + rest;
    assert Leads(cfg, run, s, [start], s1);
    LeadsFurther(cfg, run, s, [start], s1, rest, s');
  }
}
