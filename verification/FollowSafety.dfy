/** No orphan copy.  Runs of the follow controllers of all targets, broken up into single API calls,
    interleave with users on both sides, other sources and the cleanup controller. */
module FollowSafety {
  import opened Kube
  import opened FollowModel

  /** `targets` maps each target to its finalizer. */
  datatype Config = Config(clusterName: string, targets: map<string, string>)

  /** Finalizers are this system's own and distinct. */
  ghost predicate ValidConfig(cfg: Config) {
    && (forall t :: t in cfg.targets ==> IsOurs(cfg.targets[t]))
    && (forall t, t' :: t in cfg.targets && t' in cfg.targets && cfg.targets[t] == cfg.targets[t'] ==> t == t')
  }

  datatype Store = Store(objs: map<Key, Obj>, rev: nat)

  /** The next call of a run of one target's controller on one name. */
  datatype Run =
    | Deleting
    | Removing(cached: Obj)
    | Adding(cached: Obj, create: bool, update: bool, seen: Option<Obj>)
    | Creating(from: Obj)
    | Updating(from: Obj, stored: Obj)

  /** A run is identified by its target and the name it handles. */
  datatype Job = Job(target: string, key: Key)

  datatype State = State(local: Store, remote: map<string, Store>, runs: map<Job, Run>, issued: set<string>)

  function Init(cfg: Config): State {
    State(Store(map[], 0), map t | t in cfg.targets :: Store(map[], 0), map[], {})
  }

  datatype Step =
    // follow controllers
    | Start(job: Job, shouldFollow: bool)
    | Call(job: Job, ok: bool)
    // the cleanup controller
    | Cleanup(key: Key, unknown: seq<string>)
    // users of the source cluster
    | LocalCreate(key: Key, obj: Obj)
    | LocalEdit(key: Key, obj: Obj)
    | LocalDelete(key: Key)
    // users of a target, and other sources
    | RemoteCreate(target: string, key: Key, obj: Obj)
    | RemoteEdit(target: string, key: Key, obj: Obj)
    | RemoteDelete(target: string, key: Key)

  // ---- Stores ----

  function Put(s: Store, k: Key, o: Obj): Store {
    Store(s.objs[k := o.(rv := s.rev + 1)], s.rev + 1)
  }

  /** Storing an object that terminates and has no finalizer left removes it. */
  function Settle(s: Store, k: Key, o: Obj): Store {
    if o.terminating && o.finalizers == [] then Store(s.objs - {k}, s.rev + 1) else Put(s, k, o)
  }

  function Delete(s: Store, k: Key): Store {
    if k in s.objs then Settle(s, k, s.objs[k].(terminating := true)) else s
  }

  function Get(s: Store, k: Key): Option<Obj> {
    if k in s.objs then Some(s.objs[k]) else None
  }

  function Stripped(fs: seq<string>, unknown: seq<string>): seq<string> {
    if fs == [] then []
    else (if fs[0] in unknown then [] else [fs[0]]) + Stripped(fs[1..], unknown)
  }

  // ---- Transitions ----

  ghost predicate Enabled(cfg: Config, s: State, step: Step) {
    match step
    case Start(job, _) => job.target in cfg.targets && job.target in s.remote && job !in s.runs
    case Call(job, _) => job in s.runs && job.target in cfg.targets && job.target in s.remote
    case Cleanup(k, unknown) =>
      && k in s.local.objs
      && (forall f :: f in unknown ==> IsOurs(f) && forall t :: t in cfg.targets ==> cfg.targets[t] != f)
    case LocalCreate(k, o) =>
      && k !in s.local.objs && o.uid !in s.issued && o.uid != "" && !o.terminating
      && (forall f :: f in o.finalizers ==> !IsOurs(f))
      && (forall t, k' :: t in s.remote && k' in s.remote[t].objs ==> ParentUID(s.remote[t].objs[k']) != o.uid)
    case LocalEdit(k, o) =>
      && k in s.local.objs && o.uid == s.local.objs[k].uid && o.terminating == s.local.objs[k].terminating
      && (forall f :: IsOurs(f) ==> Count(o.finalizers, f) == Count(s.local.objs[k].finalizers, f))
    case LocalDelete(k) => k in s.local.objs
    case RemoteCreate(t, k, o) => t in s.remote && k !in s.remote[t].objs && ParentUID(o) !in s.issued
    case RemoteEdit(t, k, o) => t in s.remote && k in s.remote[t].objs && ParentUID(o) == ParentUID(s.remote[t].objs[k])
    case RemoteDelete(t, k) => t in s.remote
  }

  /** The first call of a run, or none. */
  function FirstCall(cfg: Config, s: State, job: Job, shouldFollow: bool): Option<Run>
    requires job.target in cfg.targets && job.target in s.remote
  {
    var local, remote := Get(s.local, job.key), Get(s.remote[job.target], job.key);
    match Plan(cfg.clusterName, cfg.targets[job.target], local, remote, shouldFollow)
    case Nothing => None
    case DeleteRemote => Some(Deleting)
    case RemoveFinalizer => Some(Removing(local.value))
    case Follow(add, create, update) =>
      if add then Some(Adding(local.value, create, update, remote))
      else AfterAdding(local.value, create, update, remote)
  }

  function AfterAdding(local: Obj, create: bool, update: bool, seen: Option<Obj>): Option<Run> {
    if create then Some(Creating(local))
    else if update && seen.Some? then Some(Updating(local, seen.value))
    else None
  }

  function SetRun(s: State, job: Job, run: Option<Run>): State {
    s.(runs := if run.Some? then s.runs[job := run.value] else s.runs - {job})
  }

  function SetRemote(s: State, t: string, store: Store): State {
    s.(remote := s.remote[t := store])
  }

  /** The cached copy is still what the server holds. */
  predicate Current(s: State, k: Key, cached: Obj) {
    k in s.local.objs && s.local.objs[k].rv == cached.rv
  }

  ghost function ApplyCall(cfg: Config, s: State, job: Job): State
    requires job in s.runs && job.target in cfg.targets && job.target in s.remote
  {
    var finalizer := cfg.targets[job.target];
    var k, remote := job.key, s.remote[job.target];
    match s.runs[job]
    case Deleting => SetRun(SetRemote(s, job.target, Delete(remote, k)), job, None)
    case Removing(cached) =>
      if Current(s, k, cached) && finalizer in cached.finalizers
      then SetRun(s.(local := Settle(s.local, k, WithoutFinalizer(cached, finalizer))), job, None)
      else SetRun(s, job, None)
    case Adding(cached, create, update, seen) =>
      if Current(s, k, cached) then
        var s' := s.(local := Put(s.local, k, WithFinalizer(cached, finalizer)));
        SetRun(s', job, AfterAdding(s'.local.objs[k], create, update, seen))
      else SetRun(s, job, None)
    case Creating(from) =>
      if k !in remote.objs
      then SetRun(SetRemote(s, job.target, Put(remote, k, MakeRemote(cfg.clusterName, k, from))), job, None)
      else SetRun(s, job, None)
    case Updating(from, stored) =>
      if k in remote.objs && remote.objs[k].rv == stored.rv
      then SetRun(SetRemote(s, job.target, Put(remote, k, UpdatedRemote(cfg.clusterName, remote.objs[k], from))), job,
                  None)
      else SetRun(s, job, None)
  }

  ghost function Apply(cfg: Config, s: State, step: Step): State
    requires Enabled(cfg, s, step)
  {
    match step
    case Start(job, shouldFollow) => SetRun(s, job, FirstCall(cfg, s, job, shouldFollow))
    case Call(job, ok) => if ok then ApplyCall(cfg, s, job) else SetRun(s, job, None)
    case Cleanup(k, unknown) =>
      s.(local := Settle(s.local, k, s.local.objs[k].(finalizers := Stripped(s.local.objs[k].finalizers, unknown))))
    case LocalCreate(k, o) => s.(local := Put(s.local, k, o), issued := s.issued + {o.uid})
    case LocalEdit(k, o) => s.(local := Settle(s.local, k, o))
    case LocalDelete(k) => s.(local := Delete(s.local, k))
    case RemoteCreate(t, k, o) => SetRemote(s, t, Put(s.remote[t], k, o))
    case RemoteEdit(t, k, o) => SetRemote(s, t, Settle(s.remote[t], k, o))
    case RemoteDelete(t, k) => SetRemote(s, t, Delete(s.remote[t], k))
  }

  ghost function Exec(cfg: Config, steps: seq<Step>): Option<State> {
    if steps == [] then Some(Init(cfg))
    else
      var before := Exec(cfg, steps[..|steps| - 1]);
      var step := steps[|steps| - 1];
      if before.Some? && Enabled(cfg, before.value, step) then Some(Apply(cfg, before.value, step)) else None
  }

  // ---- The invariant ----

  /** The local object of that name is the parent, and holds the target's finalizer exactly once. */
  ghost predicate Guarded(cfg: Config, local: Store, t: string, k: Key, uid: string)
    requires t in cfg.targets
  {
    k in local.objs && local.objs[k].uid == uid && Count(local.objs[k].finalizers, cfg.targets[t]) == 1
  }

  ghost predicate CopyOk(cfg: Config, s: State, t: string, k: Key)
    requires t in cfg.targets && t in s.remote && k in s.remote[t].objs
  {
    ParentUID(s.remote[t].objs[k]) in s.issued ==> Guarded(cfg, s.local, t, k, ParentUID(s.remote[t].objs[k]))
  }

  ghost predicate LocalOk(cfg: Config, s: State, k: Key)
    requires k in s.local.objs
  {
    var o := s.local.objs[k];
    o.uid in s.issued && o.rv <= s.local.rev && forall t :: t in cfg.targets ==>
      Count(o.finalizers, cfg.targets[t]) <= 1
  }

  /** A cached copy that still carries the stored version is the stored object. */
  ghost predicate Faithful(s: State, k: Key, cached: Obj) {
    cached.rv <= s.local.rev && (Current(s, k, cached) ==> s.local.objs[k] == cached)
  }

  ghost predicate RunOk(cfg: Config, s: State, job: Job)
    requires job in s.runs && job.target in cfg.targets && job.target in s.remote
  {
    var k, finalizer, remote := job.key, cfg.targets[job.target], s.remote[job.target];
    match s.runs[job]
    case Deleting => true
    case Removing(cached) =>
      Faithful(s, k, cached) && cached.uid in s.issued && (k in remote.objs ==> ParentUID(remote.objs[k]) != cached.uid)
    case Adding(cached, _, _, _) => Faithful(s, k, cached) && finalizer !in cached.finalizers
    case Creating(from) => Guarded(cfg, s.local, job.target, k, from.uid)
    case Updating(_, _) => true
  }

  ghost predicate Inv(cfg: Config, s: State) {
    && s.remote.Keys == cfg.targets.Keys
    && (forall k :: k in s.local.objs ==> LocalOk(cfg, s, k))
    && (forall t, k :: t in s.remote && k in s.remote[t].objs ==> CopyOk(cfg, s, t, k))
    && (forall job :: job in s.runs ==> job.target in cfg.targets && RunOk(cfg, s, job))
  }

  // ---- Changes to the source cluster ----

  /** Every stored object is untouched or has a new version. */
  ghost predicate Advances(a: Store, b: Store) {
    a.rev <= b.rev && forall k :: k in b.objs ==>
      (k in a.objs && b.objs[k] == a.objs[k]) || (b.objs[k].rv == b.rev && b.rev > a.rev)
  }

  /** Guards hold on, except possibly that of one target on one name. */
  ghost predicate KeepsGuards(cfg: Config, a: Store, b: Store, except: Option<Job>) {
    forall t, k, uid :: t in cfg.targets && Guarded(cfg, a, t, k, uid) && except != Some(Job(t, k)) ==>
      Guarded(cfg, b, t, k, uid)
  }

  lemma SettleEffect(cfg: Config, a: Store, k: Key, o: Obj, except: Option<Job>)
    requires k in a.objs && o.uid == a.objs[k].uid
    requires forall t :: t in cfg.targets && except != Some(Job(t, k)) ==>
               Count(o.finalizers, cfg.targets[t]) == Count(a.objs[k].finalizers, cfg.targets[t])
    ensures Advances(a, Settle(a, k, o)) && KeepsGuards(cfg, a, Settle(a, k, o), except)
  {
    var b := Settle(a, k, o);
    forall t, k', uid | t in cfg.targets && Guarded(cfg, a, t, k', uid) && except != Some(Job(t, k'))
      ensures Guarded(cfg, b, t, k', uid)
    {
      if k' == k {
        assert o.finalizers != [];
      }
    }
  }

  lemma {:induction false} StrippedCount(fs: seq<string>, unknown: seq<string>, f: string)
    requires f !in unknown
    ensures Count(Stripped(fs, unknown), f) == Count(fs, f)
  {
    if fs != [] {
      StrippedCount(fs[1..], unknown, f);
      var head := if fs[0] in unknown then [] else [fs[0]];
      CountConcat(head, Stripped(fs[1..], unknown), f);
      assert head != [] ==> head[1..] == [];
    }
  }

  /** The source cluster changes, with no run other than the skipped one affected. */
  lemma LocalInv(cfg: Config, s: State, s': State, except: Option<Job>)
    requires Inv(cfg, s) && s'.remote == s.remote && s.issued <= s'.issued
    requires Advances(s.local, s'.local) && KeepsGuards(cfg, s.local, s'.local, except)
    requires forall k :: k in s'.local.objs ==> LocalOk(cfg, s', k)
    requires forall job :: job in s'.runs ==> job in s.runs && s'.runs[job] == s.runs[job] && except != Some(job)
    requires forall t, k :: t in s.remote && k in s.remote[t].objs && ParentUID(s.remote[t].objs[k]) in s'.issued ==>
               ParentUID(s.remote[t].objs[k]) in s.issued
    requires forall t, k :: except == Some(Job(t, k)) && t in s.remote && k in s.remote[t].objs ==>
               ParentUID(s.remote[t].objs[k]) !in s.issued
    ensures Inv(cfg, s')
  {
    forall t, k | t in s'.remote && k in s'.remote[t].objs ensures CopyOk(cfg, s', t, k) {
      assert CopyOk(cfg, s, t, k);
    }
    forall job | job in s'.runs ensures RunOk(cfg, s', job) {
      assert RunOk(cfg, s, job);
    }
  }

  // ---- Every step keeps the invariant ----

  lemma EditInv(cfg: Config, s: State, k: Key, o: Obj)
    requires ValidConfig(cfg) && Inv(cfg, s) && k in s.local.objs && o.uid == s.local.objs[k].uid
    requires forall t :: t in cfg.targets ==>
      Count(o.finalizers, cfg.targets[t]) == Count(s.local.objs[k].finalizers, cfg.targets[t])
    ensures Inv(cfg, s.(local := Settle(s.local, k, o)))
  {
    var s' := s.(local := Settle(s.local, k, o));
    SettleEffect(cfg, s.local, k, o, None);
    forall k' | k' in s'.local.objs ensures LocalOk(cfg, s', k') {
      assert LocalOk(cfg, s, k');
    }
    LocalInv(cfg, s, s', None);
  }

  lemma CreateInv(cfg: Config, s: State, k: Key, o: Obj)
    requires ValidConfig(cfg) && Inv(cfg, s) && Enabled(cfg, s, LocalCreate(k, o))
    ensures Inv(cfg, Apply(cfg, s, LocalCreate(k, o)))
  {
    var s' := Apply(cfg, s, LocalCreate(k, o));
    forall k' | k' in s'.local.objs ensures LocalOk(cfg, s', k') {
      if k' == k {
        forall t | t in cfg.targets ensures Count(o.finalizers, cfg.targets[t]) <= 1 {
          CountZero(o.finalizers, cfg.targets[t]);
        }
      } else {
        assert LocalOk(cfg, s, k');
      }
    }
    LocalInv(cfg, s, s', None);
  }

  /** A run ends or has not begun. */
  lemma EndInv(cfg: Config, s: State, job: Job)
    requires Inv(cfg, s)
    ensures Inv(cfg, SetRun(s, job, None))
  {
    var s' := SetRun(s, job, None);
    forall k | k in s'.local.objs ensures LocalOk(cfg, s', k) {
      assert LocalOk(cfg, s, k);
    }
    LocalInv(cfg, s, s', None);
  }

  /** One target changes without any copy of ours appearing in it. */
  lemma RemoteInv(cfg: Config, s: State, t: string, store: Store)
    requires Inv(cfg, s) && t in s.remote
    requires forall k :: k in store.objs && ParentUID(store.objs[k]) in s.issued ==>
               k in s.remote[t].objs && ParentUID(store.objs[k]) == ParentUID(s.remote[t].objs[k])
    ensures Inv(cfg, SetRemote(s, t, store))
  {
    var s' := SetRemote(s, t, store);
    forall k | k in s'.local.objs ensures LocalOk(cfg, s', k) {
      assert LocalOk(cfg, s, k);
    }
    forall t', k | t' in s'.remote && k in s'.remote[t'].objs ensures CopyOk(cfg, s', t', k) {
      if k in s.remote[t'].objs {
        assert CopyOk(cfg, s, t', k);
      }
    }
    forall job | job in s'.runs ensures RunOk(cfg, s', job) {
      assert RunOk(cfg, s, job);
    }
  }

  /** A run continues with a call that is in order. */
  lemma ContinueInv(cfg: Config, s: State, job: Job, run: Run)
    requires Inv(cfg, s) && job.target in cfg.targets && RunOk(cfg, s.(runs := s.runs[job := run]), job)
    ensures Inv(cfg, SetRun(s, job, Some(run)))
  {
    var s' := SetRun(s, job, Some(run));
    forall k | k in s'.local.objs ensures LocalOk(cfg, s', k) {
      assert LocalOk(cfg, s, k);
    }
    forall t, k | t in s'.remote && k in s'.remote[t].objs ensures CopyOk(cfg, s', t, k) {
      assert CopyOk(cfg, s, t, k);
    }
    forall j | j in s'.runs ensures RunOk(cfg, s', j) {
      if j != job {
        assert RunOk(cfg, s, j);
      }
    }
  }

  lemma ContinueOrEnd(cfg: Config, s: State, job: Job, next: Option<Run>)
    requires Inv(cfg, s) && job.target in cfg.targets
    requires next.Some? ==>
      next.value.Updating? || (next.value.Creating? && Guarded(cfg, s.local, job.target, job.key, next.value.from.uid))
    ensures Inv(cfg, SetRun(s, job, next))
  {
    if next.Some? {
      ContinueInv(cfg, s, job, next.value);
    } else {
      EndInv(cfg, s, job);
    }
  }

  lemma StartInv(cfg: Config, s: State, job: Job, shouldFollow: bool)
    requires ValidConfig(cfg) && Inv(cfg, s) && Enabled(cfg, s, Start(job, shouldFollow))
    ensures Inv(cfg, Apply(cfg, s, Start(job, shouldFollow)))
  {
    var run := FirstCall(cfg, s, job, shouldFollow);
    if run.None? {
      EndInv(cfg, s, job);
    } else {
      var f := cfg.targets[job.target];
      if job.key in s.local.objs {
        assert LocalOk(cfg, s, job.key);
        CountZero(s.local.objs[job.key].finalizers, f);
      }
      ContinueInv(cfg, s, job, run.value);
    }
  }

  lemma RemovingInv(cfg: Config, s: State, job: Job)
    requires ValidConfig(cfg) && Inv(cfg, s) && Enabled(cfg, s, Call(job, true)) && s.runs[job].Removing?
    ensures Inv(cfg, ApplyCall(cfg, s, job))
  {
    var f, k, cached := cfg.targets[job.target], job.key, s.runs[job].cached;
    assert RunOk(cfg, s, job);
    if Current(s, k, cached) && f in cached.finalizers {
      var o := WithoutFinalizer(cached, f);
      var s' := ApplyCall(cfg, s, job);
      forall t | t in cfg.targets
        ensures Count(o.finalizers, cfg.targets[t]) == Count(cached.finalizers, cfg.targets[t]) - if t ==
            job.target then 1 else 0
      {
        CountWithout(cached.finalizers, FirstIndex(cached.finalizers, f), cfg.targets[t]);
      }
      SettleEffect(cfg, s.local, k, o, Some(job));
      forall k' | k' in s'.local.objs ensures LocalOk(cfg, s', k') {
        assert LocalOk(cfg, s, k');
      }
      if k in s.remote[job.target].objs {
        assert CopyOk(cfg, s, job.target, k);
      }
      LocalInv(cfg, s, s', Some(job));
    } else {
      EndInv(cfg, s, job);
    }
  }

  /** The finalizer is added: no copy can have been there without it. */
  lemma AddedInv(cfg: Config, s: State, job: Job, cached: Obj)
    requires ValidConfig(cfg) && Inv(cfg, s) && job !in s.runs && job.target in cfg.targets
    requires job.key in s.local.objs && s.local.objs[job.key] == cached && cfg.targets[job.target] !in cached.finalizers
    ensures Inv(cfg, s.(local := Put(s.local, job.key, WithFinalizer(cached, cfg.targets[job.target]))))
  {
    var k := job.key;
    var s' := s.(local := Put(s.local, k, WithFinalizer(cached, cfg.targets[job.target])));
    AddedGuards(cfg, s.local, job, cached);
    CountZero(cached.finalizers, cfg.targets[job.target]);
    forall k' | k' in s'.local.objs ensures LocalOk(cfg, s', k') {
      assert LocalOk(cfg, s, k');
    }
    if k in s.remote[job.target].objs {
      assert CopyOk(cfg, s, job.target, k);
    }
    LocalInv(cfg, s, s', Some(job));
  }

  lemma SetRunAgain(s: State, local: Store, job: Job, next: Option<Run>)
    ensures SetRun(SetRun(s, job, None).(local := local), job, next) == SetRun(s.(local := local), job, next)
  {
    if next.Some? {
      assert (s.runs - {job})[job := next.value] == s.runs[job := next.value];
    }
  }

  lemma AddingInv(cfg: Config, s: State, job: Job)
    requires ValidConfig(cfg) && Inv(cfg, s) && Enabled(cfg, s, Call(job, true)) && s.runs[job].Adding?
    ensures Inv(cfg, ApplyCall(cfg, s, job))
  {
    var f, k, run := cfg.targets[job.target], job.key, s.runs[job];
    assert RunOk(cfg, s, job);
    EndInv(cfg, s, job);
    if Current(s, k, run.cached) {
      var s0 := SetRun(s, job, None);
      AddedInv(cfg, s0, job, run.cached);
      AddedGuards(cfg, s.local, job, run.cached);
      var s1 := s0.(local := Put(s.local, k, WithFinalizer(run.cached, f)));
      var next := AfterAdding(s1.local.objs[k], run.create, run.update, run.seen);
      ContinueOrEnd(cfg, s1, job, next);
      SetRunAgain(s, s1.local, job, next);
    }
  }

  /** Appending one target's finalizer guards that target and leaves the other guards alone. */
  lemma AddedGuards(cfg: Config, a: Store, job: Job, cached: Obj)
    requires ValidConfig(cfg) && job.target in cfg.targets && job.key in a.objs && a.objs[job.key] == cached
    requires cfg.targets[job.target] !in cached.finalizers
    ensures var b := Put(a, job.key, WithFinalizer(cached, cfg.targets[job.target]));
      && Advances(a, b) && KeepsGuards(cfg, a, b, Some(job)) && Guarded(cfg, b, job.target, job.key, cached.uid)
      && forall t :: t in cfg.targets && t != job.target ==>
           Count(b.objs[job.key].finalizers, cfg.targets[t]) == Count(cached.finalizers, cfg.targets[t])
  {
    var f := cfg.targets[job.target];
    forall t | t in cfg.targets
      ensures Count(cached.finalizers + [f], cfg.targets[t]) == Count(cached.finalizers, cfg.targets[t]) + if t ==
          job.target then 1 else 0
    {
      CountConcat(cached.finalizers, [f], cfg.targets[t]);
      assert [f][1..] == [];
    }
    CountZero(cached.finalizers, f);
  }

  lemma CreatingInv(cfg: Config, s: State, job: Job)
    requires ValidConfig(cfg) && Inv(cfg, s) && Enabled(cfg, s, Call(job, true)) && s.runs[job].Creating?
    ensures Inv(cfg, ApplyCall(cfg, s, job))
  {
    EndInv(cfg, s, job);
    assert RunOk(cfg, s, job);
    var s0 := SetRun(s, job, None);
    var s' := ApplyCall(cfg, s, job);
    if job.key !in s.remote[job.target].objs {
      MakeRemoteParent(cfg.clusterName, job.key, s.runs[job].from);
      forall k | k in s'.local.objs ensures LocalOk(cfg, s', k) {
        assert LocalOk(cfg, s, k);
      }
      forall t, k | t in s'.remote && k in s'.remote[t].objs ensures CopyOk(cfg, s', t, k) {
        if k in s.remote[t].objs {
          assert CopyOk(cfg, s, t, k);
        }
      }
      forall j | j in s'.runs ensures RunOk(cfg, s', j) {
        assert RunOk(cfg, s, j);
      }
    }
  }

  lemma UpdatingInv(cfg: Config, s: State, job: Job)
    requires ValidConfig(cfg) && Inv(cfg, s) && Enabled(cfg, s, Call(job, true)) && s.runs[job].Updating?
    ensures Inv(cfg, ApplyCall(cfg, s, job))
  {
    EndInv(cfg, s, job);
    var remote := s.remote[job.target];
    if job.key in remote.objs {
      UpdatedRemoteParent(cfg.clusterName, remote.objs[job.key], s.runs[job].from);
      RemoteInv(cfg, SetRun(s, job, None), job.target,
                Put(remote, job.key, UpdatedRemote(cfg.clusterName, remote.objs[job.key], s.runs[job].from)));
    }
  }

  lemma CallInv(cfg: Config, s: State, job: Job, ok: bool)
    requires ValidConfig(cfg) && Inv(cfg, s) && Enabled(cfg, s, Call(job, ok))
    ensures Inv(cfg, Apply(cfg, s, Call(job, ok)))
  {
    EndInv(cfg, s, job);
    if ok {
      match s.runs[job]
      case Deleting =>
        RemoteInv(cfg, SetRun(s, job, None), job.target, Delete(s.remote[job.target], job.key));
      case Removing(_) => RemovingInv(cfg, s, job);
      case Adding(_, _, _, _) => AddingInv(cfg, s, job);
      case Creating(_) => CreatingInv(cfg, s, job);
      case Updating(_, _) => UpdatingInv(cfg, s, job);
    }
  }

  lemma StepInv(cfg: Config, s: State, step: Step)
    requires ValidConfig(cfg) && Inv(cfg, s) && Enabled(cfg, s, step)
    ensures Inv(cfg, Apply(cfg, s, step))
  {
    match step
    case Start(job, shouldFollow) => StartInv(cfg, s, job, shouldFollow);
    case Call(job, ok) => CallInv(cfg, s, job, ok);
    case Cleanup(k, unknown) =>
      forall t | t in cfg.targets
        ensures Count(Stripped(s.local.objs[k].finalizers, unknown), cfg.targets[t]) ==
            Count(s.local.objs[k].finalizers, cfg.targets[t])
      {
        StrippedCount(s.local.objs[k].finalizers, unknown, cfg.targets[t]);
      }
      EditInv(cfg, s, k, s.local.objs[k].(finalizers := Stripped(s.local.objs[k].finalizers, unknown)));
    case LocalCreate(k, o) => CreateInv(cfg, s, k, o);
    case LocalEdit(k, o) => EditInv(cfg, s, k, o);
    case LocalDelete(k) => EditInv(cfg, s, k, s.local.objs[k].(terminating := true));
    case RemoteCreate(t, k, o) => RemoteInv(cfg, s, t, Put(s.remote[t], k, o));
    case RemoteEdit(t, k, o) => RemoteInv(cfg, s, t, Settle(s.remote[t], k, o));
    case RemoteDelete(t, k) => RemoteInv(cfg, s, t, Delete(s.remote[t], k));
  }

  lemma {:induction false} ReachableInv(cfg: Config, steps: seq<Step>, s: State)
    requires ValidConfig(cfg) && Exec(cfg, steps) == Some(s)
    ensures Inv(cfg, s)
    decreases |steps|
  {
    if steps != [] {
      var before := Exec(cfg, steps[..|steps| - 1]).value;
      ReachableInv(cfg, steps[..|steps| - 1], before);
      StepInv(cfg, before, steps[|steps| - 1]);
    }
  }

  /** In every reachable state, however the runs are cut and whoever edits or deletes in between: a copy
      that carries the UID of a source object implies that this object still exists under the same name
      and holds the target's finalizer exactly once. */
  lemma NoOrphanCopy(cfg: Config, steps: seq<Step>, s: State, t: string, k: Key)
    requires ValidConfig(cfg) && Exec(cfg, steps) == Some(s)
    requires t in s.remote && k in s.remote[t].objs && ParentUID(s.remote[t].objs[k]) in s.issued
    ensures t in cfg.targets && k in s.local.objs && s.local.objs[k].uid == ParentUID(s.remote[t].objs[k])
    ensures Count(s.local.objs[k].finalizers, cfg.targets[t]) == 1
  {
    ReachableInv(cfg, steps, s);
    assert CopyOk(cfg, s, t, k);
  }
}
