/** The turns of a deletion are steps of the follow protocol: from every reachable state, a run of a target's
    controller from its start to its last call, or an edit of a copy, is one turn. */
module FollowDeletionRuns {
  import opened Kube
  import opened FollowModel
  import opened FollowDeletion
  import FollowSafety

  /** What can be seen of one name, apart from resource versions. */
  function Unversioned(o: Option<Obj>): Option<Obj> {
    if o.None? then None else Some(o.value.(rv := 0))
  }

  function View(s: FollowSafety.State, k: Key): State {
    State(Unversioned(FollowSafety.Get(s.local, k)),
          map t | t in s.remote :: Unversioned(FollowSafety.Get(s.remote[t], k)))
  }

  /** No run on this name is in flight. */
  ghost predicate Idle(s: FollowSafety.State, k: Key) {
    forall job :: job in s.runs ==> job.key != k
  }

  /** Nothing in the targets stands in the way: what they hold of that name are copies of the object. */
  ghost predicate Unobstructed(s: FollowSafety.State, k: Key) {
    && k in s.local.objs && s.local.objs[k].terminating && s.local.objs[k].finalizers != []
    && (forall t :: t in s.remote && k in s.remote[t].objs ==>
          && ParentUID(s.remote[t].objs[k]) == s.local.objs[k].uid
          && (s.remote[t].objs[k].terminating ==> s.remote[t].objs[k].finalizers != []))
  }

  function ConfigFor(cfg: FollowSafety.Config, k: Key): Config {
    Config(cfg.clusterName, k, cfg.targets)
  }

  lemma UnobstructedLeaves(cfg: FollowSafety.Config, s: FollowSafety.State, k: Key)
    requires FollowSafety.Inv(cfg, s) && Unobstructed(s, k)
    ensures Leaving(ConfigFor(cfg, k), View(s, k), s.local.objs[k].uid)
    ensures forall t :: t in cfg.targets ==> Count(s.local.objs[k].finalizers, cfg.targets[t]) <= 1
  {
    var v := View(s, k);
    assert FollowSafety.LocalOk(cfg, s, k);
    forall t | t in v.copies && v.copies[t].Some?
      ensures Owns(v.local.value, v.copies[t].value) && cfg.targets[t] in v.local.value.finalizers
    {
      assert FollowSafety.CopyOk(cfg, s, t, k);
      CountZero(v.local.value.finalizers, cfg.targets[t]);
    }
  }

  // ---- A run is a turn ----

  /** The state after a whole run with no failing call. */
  ghost function Whole(cfg: FollowSafety.Config, s: FollowSafety.State, job: FollowSafety.Job,
                       shouldFollow: bool): FollowSafety.State
    requires job.target in cfg.targets && job.target in s.remote && job !in s.runs
  {
    var s' := FollowSafety.Apply(cfg, s, FollowSafety.Start(job, shouldFollow));
    if job in s'.runs then FollowSafety.Apply(cfg, s', FollowSafety.Call(job, true)) else s'
  }

  lemma RunRemoved(s: FollowSafety.State, job: FollowSafety.Job, run: FollowSafety.Run)
    requires job !in s.runs
    ensures s.runs[job := run] - {job} == s.runs && s.runs - {job} == s.runs
  {
  }

  /** The run deletes the copy. */
  lemma DeletesCopy(cfg: FollowSafety.Config, s: FollowSafety.State, job: FollowSafety.Job, shouldFollow: bool)
    requires job.target in cfg.targets && job.target in s.remote && job !in s.runs && job.key in s.local.objs
    requires s.local.objs[job.key].terminating && job.key in s.remote[job.target].objs
    requires Owns(s.local.objs[job.key], s.remote[job.target].objs[job.key])
    ensures Whole(cfg, s, job, shouldFollow) ==
      FollowSafety.SetRemote(s, job.target, FollowSafety.Delete(s.remote[job.target], job.key))
  {
    RunRemoved(s, job, FollowSafety.Deleting);
  }

  /** The run takes its finalizer. */
  lemma TakesFinalizer(cfg: FollowSafety.Config, s: FollowSafety.State, job: FollowSafety.Job, shouldFollow: bool)
    requires job.target in cfg.targets && job.target in s.remote && job !in s.runs && job.key in s.local.objs
    requires s.local.objs[job.key].terminating && job.key !in s.remote[job.target].objs
    requires cfg.targets[job.target] in s.local.objs[job.key].finalizers
    ensures Whole(cfg, s, job, shouldFollow) ==
      s.(local := FollowSafety.Settle(s.local, job.key,
                                      WithoutFinalizer(s.local.objs[job.key], cfg.targets[job.target])))
  {
    RunRemoved(s, job, FollowSafety.Removing(s.local.objs[job.key]));
  }

  /** The run has nothing to do. */
  lemma DoesNothing(cfg: FollowSafety.Config, s: FollowSafety.State, job: FollowSafety.Job, shouldFollow: bool)
    requires job.target in cfg.targets && job.target in s.remote && job !in s.runs
    requires job.key !in s.remote[job.target].objs
    requires job.key in s.local.objs ==>
               s.local.objs[job.key].terminating && cfg.targets[job.target] !in s.local.objs[job.key].finalizers
    ensures Whole(cfg, s, job, shouldFollow) == s
  {
    RunRemoved(s, job, FollowSafety.Deleting);
  }

  lemma ViewAfterCopy(s: FollowSafety.State, t: string, store: FollowSafety.Store, k: Key)
    requires t in s.remote
    ensures View(FollowSafety.SetRemote(s, t, store), k) ==
      View(s, k).(copies := View(s, k).copies[t := Unversioned(FollowSafety.Get(store, k))])
  {
  }

  ghost predicate LeavingView(cfg: FollowSafety.Config, s: FollowSafety.State, k: Key, uid: string) {
    s.remote.Keys == cfg.targets.Keys && Leaving(ConfigFor(cfg, k), View(s, k), uid)
  }

  lemma LeavingStored(cfg: FollowSafety.Config, s: FollowSafety.State, k: Key, uid: string, t: string)
    requires LeavingView(cfg, s, k, uid) && t in cfg.targets
    ensures k in s.local.objs ==> s.local.objs[k].terminating
    ensures k in s.remote[t].objs ==> k in s.local.objs && Owns(s.local.objs[k], s.remote[t].objs[k])
  {
    assert t in View(s, k).copies;
  }

  /** A whole run is a turn. */
  lemma RunIsTurn(cfg: FollowSafety.Config, s: FollowSafety.State, k: Key, t: string, shouldFollow: bool, uid: string)
    requires t in cfg.targets && Idle(s, k) && LeavingView(cfg, s, k, uid)
    ensures var s' := Whole(cfg, s, FollowSafety.Job(t, k), shouldFollow);
      View(s', k) == Handle(ConfigFor(cfg, k), View(s, k), t, shouldFollow) && s'.runs == s.runs
  {
    var job, v, f := FollowSafety.Job(t, k), View(s, k), cfg.targets[t];
    var s' := Whole(cfg, s, job, shouldFollow);
    LeavingStored(cfg, s, k, uid, t);
    RunEffect(ConfigFor(cfg, k), v, t, shouldFollow, uid);
    if k in s.remote[t].objs {
      DeletesCopy(cfg, s, job, shouldFollow);
      ViewAfterCopy(s, t, FollowSafety.Delete(s.remote[t], k), k);
    } else if k in s.local.objs && f in s.local.objs[k].finalizers {
      TakesFinalizer(cfg, s, job, shouldFollow);
      assert v.copies[t := v.copies[t]] == v.copies;
    } else {
      DoesNothing(cfg, s, job, shouldFollow);
    }
  }

  // ---- An edit is a turn ----

  /** The step by which somebody takes out one of the copy's finalizers, if there is any. */
  function Edits(s: FollowSafety.State, k: Key, t: string, j: nat): seq<FollowSafety.Step>
    requires t in s.remote
  {
    if k in s.remote[t].objs && s.remote[t].objs[k].finalizers != [] then
      var o := s.remote[t].objs[k];
      [FollowSafety.RemoteEdit(t, k, o.(finalizers := Without(o.finalizers, j % |o.finalizers|)))]
    else []
  }

  ghost function Edited(cfg: FollowSafety.Config, s: FollowSafety.State, k: Key, t: string, j: nat): FollowSafety.State
    requires t in s.remote
  {
    if Edits(s, k, t, j) == [] then s else FollowSafety.Apply(cfg, s, Edits(s, k, t, j)[0])
  }

  lemma EditIsTurn(cfg: FollowSafety.Config, s: FollowSafety.State, k: Key, t: string, j: nat)
    requires t in cfg.targets && s.remote.Keys == cfg.targets.Keys
    ensures View(Edited(cfg, s, k, t, j), k) == Take(ConfigFor(cfg, k), View(s, k), Release(t, j))
    ensures Edited(cfg, s, k, t, j).runs == s.runs
  {
    var v := View(s, k);
    assert v.copies[t := v.copies[t]] == v.copies;
    if Edits(s, k, t, j) != [] {
      var o := s.remote[t].objs[k];
      var o' := o.(finalizers := Without(o.finalizers, j % |o.finalizers|));
      ViewAfterCopy(s, t, FollowSafety.Settle(s.remote[t], k, o'), k);
    }
  }

  // ---- Schedules of turns are runs of the protocol ----

  ghost function Perform(cfg: FollowSafety.Config, s: FollowSafety.State, k: Key, turn: Turn): FollowSafety.State
    requires turn.t in cfg.targets && turn.t in s.remote && Idle(s, k)
  {
    match turn
    case Run(t, shouldFollow) => Whole(cfg, s, FollowSafety.Job(t, k), shouldFollow)
    case Release(t, j) => Edited(cfg, s, k, t, j)
  }

  ghost function StepsOf(cfg: FollowSafety.Config, s: FollowSafety.State, k: Key, turn: Turn): seq<FollowSafety.Step>
    requires turn.t in cfg.targets && turn.t in s.remote && Idle(s, k)
  {
    match turn
    case Run(t, shouldFollow) =>
      var job := FollowSafety.Job(t, k);
      var start := FollowSafety.Start(job, shouldFollow);
      if job in FollowSafety.Apply(cfg, s, start).runs then [start, FollowSafety.Call(job, true)] else [start]
    case Release(t, j) => Edits(s, k, t, j)
  }

  lemma Extend(cfg: FollowSafety.Config, run: seq<FollowSafety.Step>, s: FollowSafety.State, step: FollowSafety.Step)
    requires FollowSafety.Exec(cfg, run) == Some(s) && FollowSafety.Enabled(cfg, s, step)
    ensures FollowSafety.Exec(cfg, run + [step]) == Some(FollowSafety.Apply(cfg, s, step))
  {
    assert (run + [step])[..|run|] == run;
  }

  lemma PerformReaches(cfg: FollowSafety.Config, run: seq<FollowSafety.Step>, s: FollowSafety.State, k: Key, turn: Turn)
    requires FollowSafety.Exec(cfg, run) == Some(s) && turn.t in cfg.targets && turn.t in s.remote && Idle(s, k)
    ensures FollowSafety.Exec(cfg, run + StepsOf(cfg, s, k, turn)) == Some(Perform(cfg, s, k, turn))
  {
    match turn
    case Run(t, shouldFollow) =>
      var job := FollowSafety.Job(t, k);
      var start := FollowSafety.Start(job, shouldFollow);
      Extend(cfg, run, s, start);
      var s' := FollowSafety.Apply(cfg, s, start);
      if job in s'.runs {
        Extend(cfg, run + [start], s', FollowSafety.Call(job, true));
        assert run + [start] + [FollowSafety.Call(job, true)] == run + [start, FollowSafety.Call(job, true)];
      }
    case Release(t, j) =>
      if Edits(s, k, t, j) == [] {
        assert run + [] == run;
      } else {
        EditEnabled(cfg, s, k, t, j);
        Extend(cfg, run, s, Edits(s, k, t, j)[0]);
        assert Edits(s, k, t, j) == [Edits(s, k, t, j)[0]];
      }
  }

  lemma EditEnabled(cfg: FollowSafety.Config, s: FollowSafety.State, k: Key, t: string, j: nat)
    requires t in s.remote && Edits(s, k, t, j) != []
    ensures FollowSafety.Enabled(cfg, s, Edits(s, k, t, j)[0])
  {
  }

  /** A turn performed as steps leads to a reachable state that shows what the turn does. */
  lemma PerformIsTurn(cfg: FollowSafety.Config, run: seq<FollowSafety.Step>, s: FollowSafety.State, k: Key, turn: Turn,
                      uid: string)
    requires FollowSafety.ValidConfig(cfg) && FollowSafety.Exec(cfg, run) == Some(s)
    requires turn.t in cfg.targets && Idle(s, k) && LeavingView(cfg, s, k, uid)
    ensures var s' := Perform(cfg, s, k, turn);
      && FollowSafety.Exec(cfg, run + StepsOf(cfg, s, k, turn)) == Some(s')
      && View(s', k) == Take(ConfigFor(cfg, k), View(s, k), turn)
      && Idle(s', k) && LeavingView(cfg, s', k, uid)
  {
    PerformReaches(cfg, run, s, k, turn);
    var s' := Perform(cfg, s, k, turn);
    FollowSafety.ReachableInv(cfg, run + StepsOf(cfg, s, k, turn), s');
    TurnEffect(ConfigFor(cfg, k), View(s, k), turn, uid);
    match turn
    case Run(t, shouldFollow) => RunIsTurn(cfg, s, k, t, shouldFollow, uid);
    case Release(t, j) => EditIsTurn(cfg, s, k, t, j);
  }

  /** The protocol can get from the one state to the other after the given run. */
  ghost predicate Leads(cfg: FollowSafety.Config, run: seq<FollowSafety.Step>, s: FollowSafety.State,
                        more: seq<FollowSafety.Step>, s': FollowSafety.State) {
    FollowSafety.Exec(cfg, run) == Some(s) && FollowSafety.Exec(cfg, run + more) == Some(s')
  }

  lemma LeadsFurther(cfg: FollowSafety.Config, run: seq<FollowSafety.Step>, s: FollowSafety.State,
                     first: seq<FollowSafety.Step>, mid: FollowSafety.State, rest: seq<FollowSafety.Step>,
                     s': FollowSafety.State)
    requires Leads(cfg, run, s, first, mid) && Leads(cfg, run + first, mid, rest, s')
    ensures Leads(cfg, run, s, first + rest, s')
  {
    assert run + first + rest == run + (first + rest);
  }

  lemma TakeAllFirst(c: Config, v: State, schedule: seq<Turn>)
    requires v.copies.Keys == c.finalizers.Keys && schedule != []
    requires forall i :: 0 <= i < |schedule| ==> schedule[i].t in c.finalizers
    ensures Take(c, v, schedule[0]).copies.Keys == c.finalizers.Keys
    ensures TakeAll(c, v, schedule) == TakeAll(c, Take(c, v, schedule[0]), schedule[1..])
  {
  }

  /** The whole schedule, as a run of the protocol. */
  lemma {:induction false} Performed(cfg: FollowSafety.Config, run: seq<FollowSafety.Step>, s: FollowSafety.State,
                                     k: Key, schedule: seq<Turn>, uid: string)
    returns (more: seq<FollowSafety.Step>, s': FollowSafety.State)
    requires FollowSafety.ValidConfig(cfg) && FollowSafety.Exec(cfg, run) == Some(s) && Idle(s, k)
    requires LeavingView(cfg, s, k, uid)
    requires forall i :: 0 <= i < |schedule| ==> schedule[i].t in cfg.targets
    ensures Leads(cfg, run, s, more, s') && View(s', k) == TakeAll(ConfigFor(cfg, k), View(s, k), schedule)
    decreases |schedule|
  {
    if schedule == [] {
      more, s' := [], s;
      assert run + [] == run;
    } else {
      var first, mid := StepsOf(cfg, s, k, schedule[0]), Perform(cfg, s, k, schedule[0]);
      PerformIsTurn(cfg, run, s, k, schedule[0], uid);
      TakeAllFirst(ConfigFor(cfg, k), View(s, k), schedule);
      var rest;
      rest, s' := Performed(cfg, run + first, mid, k, schedule[1..], uid);
      more := first + rest;
      LeadsFurther(cfg, run, s, first, mid, rest, s');
    }
  }

  /** From any reachable state in which no run on the name is in flight: every schedule of turns is a run of the
      protocol, and its end shows the deletion finished if and only if the schedule serves every target. */
  lemma ReachableDeletionTerminates(cfg: FollowSafety.Config, run: seq<FollowSafety.Step>, s: FollowSafety.State,
                                    k: Key, schedule: seq<Turn>)
    returns (more: seq<FollowSafety.Step>, s': FollowSafety.State)
    requires FollowSafety.ValidConfig(cfg) && FollowSafety.Exec(cfg, run) == Some(s) && Unobstructed(s, k) && Idle(s, k)
    requires forall i :: 0 <= i < |schedule| ==> schedule[i].t in cfg.targets
    ensures Leads(cfg, run, s, more, s') && View(s, k).copies.Keys == cfg.targets.Keys
    ensures Finished(ConfigFor(cfg, k), s.local.objs[k].finalizers, View(s', k)) <==>
      forall t :: t in cfg.targets ==> Served(TaskOf(ConfigFor(cfg, k), View(s, k), t), schedule, t)
    ensures forall t :: t in cfg.targets ==> TaskOf(ConfigFor(cfg, k), View(s, k), t).finalizers <= 1
  {
    FollowSafety.ReachableInv(cfg, run, s);
    UnobstructedLeaves(cfg, s, k);
    var uid := s.local.objs[k].uid;
    more, s' := Performed(cfg, run, s, k, schedule, uid);
    DeletionTerminates(ConfigFor(cfg, k), View(s, k), schedule, uid);
  }

  // ---- Other names do not matter ----

  function KeyOf(step: FollowSafety.Step): Key {
    match step
    case Start(job, _) => job.key
    case Call(job, _) => job.key
    case Cleanup(k, _) => k
    case LocalCreate(k, _) => k
    case LocalEdit(k, _) => k
    case LocalDelete(k) => k
    case RemoteCreate(_, k, _) => k
    case RemoteEdit(_, k, _) => k
    case RemoteDelete(_, k) => k
  }

  ghost predicate SameAt(s: FollowSafety.State, s': FollowSafety.State, k: Key) {
    && FollowSafety.Get(s'.local, k) == FollowSafety.Get(s.local, k) && s'.remote.Keys == s.remote.Keys
    && (forall t :: t in s.remote ==> FollowSafety.Get(s'.remote[t], k) == FollowSafety.Get(s.remote[t], k))
    && (forall job :: job in s'.runs && job.key == k ==> job in s.runs)
  }

  lemma CallElsewhere(cfg: FollowSafety.Config, s: FollowSafety.State, job: FollowSafety.Job, k: Key)
    requires job in s.runs && job.target in cfg.targets && job.target in s.remote && job.key != k
    ensures SameAt(s, FollowSafety.ApplyCall(cfg, s, job), k)
  {
    match s.runs[job]
    case Deleting =>
    case Removing(_) =>
    case Adding(_, _, _, _) =>
    case Creating(_) =>
    case Updating(_, _) =>
  }

  lemma StepElsewhere(cfg: FollowSafety.Config, s: FollowSafety.State, step: FollowSafety.Step, k: Key)
    requires FollowSafety.Enabled(cfg, s, step) && KeyOf(step) != k
    ensures SameAt(s, FollowSafety.Apply(cfg, s, step), k)
  {
    if step.Call? && step.ok {
      CallElsewhere(cfg, s, step.job, k);
    }
  }

  /** What happens to other names between the turns leaves this one alone. */
  lemma OtherNames(cfg: FollowSafety.Config, s: FollowSafety.State, step: FollowSafety.Step, k: Key,
                   s': FollowSafety.State)
    requires FollowSafety.Enabled(cfg, s, step) && KeyOf(step) != k && Idle(s, k)
    requires s' == FollowSafety.Apply(cfg, s, step)
    ensures View(s', k) == View(s, k) && Idle(s', k)
  {
    StepElsewhere(cfg, s, step, k);
    SameAtView(s, s', k);
  }

  lemma SameAtView(s: FollowSafety.State, s': FollowSafety.State, k: Key)
    requires SameAt(s, s', k) && Idle(s, k)
    ensures View(s', k) == View(s, k) && Idle(s', k)
  {
    forall t | t in s.remote ensures View(s', k).copies[t] == View(s, k).copies[t] {
      assert FollowSafety.Get(s'.remote[t], k) == FollowSafety.Get(s.remote[t], k);
    }
  }
}
