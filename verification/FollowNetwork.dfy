/** Sources that share targets.  Any clusters follow objects into any others, copies are followed onward
    in chains, and every run is atomic. */
module FollowNetwork {
  import opened Kube
  import opened RemoteControl
  import opened FollowModel

  /** `names` gives each cluster its configured name; `follows` holds the pairs of a source and one of its
      targets, with the finalizer the source uses for that target. */
  datatype Config = Config(names: map<string, string>, follows: map<(string, string), string>)

  function Name(cfg: Config, cluster: string): string {
    Lookup(cfg.names, cluster)
  }

  datatype Loc = Loc(cluster: string, key: Key)

  /** An object and the cluster whose controller created it; none if a user did. */
  datatype Rec = Rec(obj: Obj, origin: Option<string>)

  /** `issued` remembers which cluster assigned a UID. */
  datatype State = State(objs: map<Loc, Rec>, issued: map<string, string>)

  const INIT := State(map[], map[])

  datatype Step =
    | Handle(source: string, target: string, key: Key, shouldFollow: bool, uid: string)
    | UserCreate(loc: Loc, obj: Obj)
    | UserEdit(loc: Loc, obj: Obj)
    | UserDelete(loc: Loc)

  function Get(s: State, loc: Loc): Option<Obj> {
    if loc in s.objs then Some(s.objs[loc].obj) else None
  }

  function Put(objs: map<Loc, Rec>, loc: Loc, obj: Option<Obj>, origin: Option<string>): map<Loc, Rec> {
    if obj.None? then objs - {loc}
    else objs[loc := Rec(obj.value, if loc in objs then objs[loc].origin else origin)]
  }

  /** Users leave this system's own labels and annotations alone. */
  ghost predicate Enabled(cfg: Config, s: State, step: Step) {
    match step
    case Handle(source, target, _, _, uid) => (source, target) in cfg.follows && uid != "" && uid !in s.issued
    case UserCreate(loc, obj) =>
      && loc !in s.objs && obj.uid != "" && obj.uid !in s.issued
      && Ours(obj.labels) == map[] && Ours(obj.annotations) == map[]
    case UserEdit(loc, obj) =>
      && loc in s.objs && obj.uid == s.objs[loc].obj.uid
      && Ours(obj.labels) == Ours(s.objs[loc].obj.labels) && Ours(obj.annotations) == Ours(s.objs[loc].obj.annotations)
    case UserDelete(loc) => loc in s.objs
  }

  function ApplyHandle(cfg: Config, s: State, source: string, target: string, key: Key, shouldFollow: bool,
                       uid: string): State
    requires (source, target) in cfg.follows
  {
    var here, there := Loc(source, key), Loc(target, key);
    var (local, remote) :=
      AfterRun(Name(cfg, source), cfg.follows[(source, target)], key, Get(s, here), Get(s, there), shouldFollow);
    var created := there !in s.objs && remote.Some?;
    State(Put(Put(s.objs, here, local, None), there, if created then Some(remote.value.(uid := uid))
              else remote, Some(source)),
          if created then s.issued[uid := target] else s.issued)
  }

  ghost function Apply(cfg: Config, s: State, step: Step): State
    requires Enabled(cfg, s, step)
  {
    match step
    case Handle(source, target, key, shouldFollow, uid) => ApplyHandle(cfg, s, source, target, key, shouldFollow, uid)
    case UserCreate(loc, obj) => State(Put(s.objs, loc, Some(obj), None), s.issued[obj.uid := loc.cluster])
    case UserEdit(loc, obj) => s.(objs := Put(s.objs, loc, Some(obj), None))
    case UserDelete(loc) => s.(objs := Put(s.objs, loc, Deleted(s.objs[loc].obj), None))
  }

  ghost function Exec(cfg: Config, steps: seq<Step>): Option<State> {
    if steps == [] then Some(INIT)
    else
      var before := Exec(cfg, steps[..|steps| - 1]);
      var step := steps[|steps| - 1];
      if before.Some? && Enabled(cfg, before.value, step) then Some(Apply(cfg, before.value, step)) else None
  }

  predicate SourceOf(cfg: Config, source: string, target: string) {
    (source, target) in cfg.follows && source != target
  }

  /** No two sources of a target have the same name. */
  ghost predicate NamesDiffer(cfg: Config) {
    forall a, b, t :: SourceOf(cfg, a, t) && SourceOf(cfg, b, t) && Name(cfg, a) == Name(cfg, b) ==> a == b
  }

  // ---- The invariant ----

  /** Marks tell the truth: a parent's UID was issued by the cluster that created the copy, and the
      recorded cluster name is that cluster's. */
  ghost predicate Marked(cfg: Config, issued: map<string, string>, loc: Loc, r: Rec) {
    && r.obj.uid != "" && r.obj.uid in issued && issued[r.obj.uid] == loc.cluster
    && LABEL_PARENT_UID !in r.obj.annotations
    && (if r.origin.None? then LABEL_PARENT_UID !in r.obj.labels && LABEL_PARENT_CLUSTER !in r.obj.labels
        else
          && r.origin.value != loc.cluster && (r.origin.value, loc.cluster) in cfg.follows
          && LABEL_PARENT_CLUSTER in r.obj.labels && r.obj.labels[LABEL_PARENT_CLUSTER] == Name(cfg, r.origin.value)
          && LABEL_PARENT_UID in r.obj.labels && r.obj.labels[LABEL_PARENT_UID] in issued
          && issued[r.obj.labels[LABEL_PARENT_UID]] == r.origin.value)
  }

  ghost predicate Inv(cfg: Config, s: State) {
    forall loc :: loc in s.objs ==> Marked(cfg, s.issued, loc, s.objs[loc])
  }

  lemma MarkedMore(cfg: Config, issued: map<string, string>, loc: Loc, r: Rec, uid: string, cluster: string)
    requires Marked(cfg, issued, loc, r) && uid !in issued
    ensures Marked(cfg, issued[uid := cluster], loc, r)
  {
  }

  /** Edits that leave the marks alone. */
  lemma MarkedEdit(cfg: Config, issued: map<string, string>, loc: Loc, r: Rec, obj: Obj)
    requires Marked(cfg, issued, loc, r) && obj.uid == r.obj.uid
    requires Lookup(obj.annotations, LABEL_PARENT_UID) == ""
    requires (LABEL_PARENT_UID in obj.annotations <==> LABEL_PARENT_UID in r.obj.annotations)
    requires forall l :: l == LABEL_PARENT_UID || l == LABEL_PARENT_CLUSTER ==>
               (l in obj.labels <==> l in r.obj.labels) && Lookup(obj.labels, l) == Lookup(r.obj.labels, l)
    ensures Marked(cfg, issued, loc, Rec(obj, r.origin))
  {
  }

  lemma OursKeep(m: map<string, string>, m': map<string, string>, k: string)
    requires Ours(m) == Ours(m') && IsOurs(k)
    ensures (k in m <==> k in m') && Lookup(m, k) == Lookup(m', k)
  {
    assert k in Ours(m) <==> k in m;
    assert k in Ours(m') <==> k in m';
  }

  /** A run writes to an object in its target only if its own cluster created it. */
  lemma WritesOwnCopiesOnly(cfg: Config, s: State, source: string, target: string, key: Key, shouldFollow: bool)
    requires NamesDiffer(cfg) && Inv(cfg, s) && (source, target) in cfg.follows
    ensures var local, remote := Get(s, Loc(source, key)), Get(s, Loc(target, key));
      var plan := Plan(Name(cfg, source), cfg.follows[(source, target)], local, remote, shouldFollow);
      && (remote.Some? && (plan.DeleteRemote? || plan.Follow?) ==>
            source != target && s.objs[Loc(target, key)].origin == Some(source))
      && (plan.RemoveFinalizer? || plan.Follow? ==> source != target)
  {
    OurKeys();
    var here, there := Loc(source, key), Loc(target, key);
    if there in s.objs {
      var r := s.objs[there];
      assert Marked(cfg, s.issued, there, r);
      assert source != target ==> SourceOf(cfg, source, target);
      assert r.origin.Some? ==> SourceOf(cfg, r.origin.value, target);
      if here in s.objs {
        assert Marked(cfg, s.issued, here, s.objs[here]);
      }
    }
  }

  lemma CopyMarked(cfg: Config, s: State, source: string, target: string, key: Key, o: Obj, uid: string)
    requires (source, target) in cfg.follows && source != target && uid != "" && uid !in s.issued
    requires o.uid in s.issued && s.issued[o.uid] == source && LABEL_PARENT_UID !in o.annotations
    ensures Marked(cfg, s.issued[uid := target], Loc(target, key),
                   Rec(MakeRemote(Name(cfg, source), key, o).(uid := uid), Some(source)))
  {
    OurKeys();
  }

  /** The local object after a run keeps its marks. */
  lemma LocalMarked(cfg: Config, issued: map<string, string>, loc: Loc, r: Rec, finalizer: string)
    requires Marked(cfg, issued, loc, r)
    ensures Marked(cfg, issued, loc, Rec(WithFinalizer(r.obj, finalizer), r.origin))
    ensures finalizer in r.obj.finalizers ==>
      Marked(cfg, issued, loc, Rec(WithoutFinalizer(r.obj, finalizer), r.origin))
  {
    OurKeys();
    MarkedEdit(cfg, issued, loc, r, WithFinalizer(r.obj, finalizer));
  }

  lemma UpdateMarked(cfg: Config, issued: map<string, string>, loc: Loc, r: Rec, source: string, local: Obj)
    requires Marked(cfg, issued, loc, r) && r.origin == Some(source)
    ensures Marked(cfg, issued, loc, Rec(UpdatedRemote(Name(cfg, source), r.obj, local), r.origin))
  {
    OurKeys();
    MarkedEdit(cfg, issued, loc, r, UpdatedRemote(Name(cfg, source), r.obj, local));
  }

  /** The local object is untouched but for its finalizers and the label that says it has had one. */
  predicate LocalEdit(o: Obj, o': Obj, finalizer: string) {
    || o' == o
    || o' == WithFinalizer(o, finalizer)
    || (finalizer in o.finalizers && o' == WithoutFinalizer(o, finalizer))
  }

  /** A copy is left alone, marked for deletion or updated. */
  predicate RemoteEdit(r: Obj, r': Obj, name: string, local: Option<Obj>, finalizer: string) {
    || r' == r
    || r' == r.(terminating := true)
    || (local.Some? && r' == UpdatedRemote(name, r, local.value))
    || (local.Some? && r' == UpdatedRemote(name, r, WithFinalizer(local.value, finalizer)))
  }

  lemma RunShape(name: string, finalizer: string, key: Key, local: Option<Obj>, remote: Option<Obj>, shouldFollow: bool)
    ensures var (l, r) := AfterRun(name, finalizer, key, local, remote, shouldFollow);
      var plan := Plan(name, finalizer, local, remote, shouldFollow);
      && (l.Some? ==> local.Some? && LocalEdit(local.value, l.value, finalizer))
      && (l != local ==> plan.RemoveFinalizer? || plan.Follow?)
      && (remote.Some? && r != remote ==> plan.DeleteRemote? || plan.Follow?)
      && (remote.Some? && r.Some? ==> RemoteEdit(remote.value, r.value, name, local, finalizer))
      && (remote.None? && r.Some? ==>
            plan.Follow? && l.Some? && local.Some? && r.value == MakeRemote(name, key, l.value))
  {
  }

  lemma LocalEditMarked(cfg: Config, issued: map<string, string>, loc: Loc, r: Rec, o: Obj, finalizer: string)
    requires Marked(cfg, issued, loc, r) && LocalEdit(r.obj, o, finalizer)
    ensures Marked(cfg, issued, loc, Rec(o, r.origin))
  {
    LocalMarked(cfg, issued, loc, r, finalizer);
  }

  lemma RemoteEditMarked(cfg: Config, issued: map<string, string>, loc: Loc, r: Rec, o: Obj, source: string,
                         local: Option<Obj>, finalizer: string)
    requires Marked(cfg, issued, loc, r) && RemoteEdit(r.obj, o, Name(cfg, source), local, finalizer)
    requires o != r.obj ==> r.origin == Some(source)
    ensures Marked(cfg, issued, loc, Rec(o, r.origin))
  {
    if local.Some? && o != r.obj {
      UpdateMarked(cfg, issued, loc, r, source, local.value);
      UpdateMarked(cfg, issued, loc, r, source, WithFinalizer(local.value, finalizer));
    }
  }

  /** Where a run between two clusters leaves each object. */
  lemma HandleAt(cfg: Config, s: State, s': State, source: string, target: string, key: Key, shouldFollow: bool,
                 uid: string,
                 local: Option<Obj>, remote: Option<Obj>)
    requires (source, target) in cfg.follows && source != target
    requires s' == ApplyHandle(cfg, s, source, target, key, shouldFollow, uid)
    requires (local, remote) ==
      AfterRun(Name(cfg, source), cfg.follows[(source, target)], key, Get(s, Loc(source, key)),
               Get(s, Loc(target, key)), shouldFollow)
    ensures Get(s', Loc(source, key)) == local
    ensures Loc(target, key) in s.objs ==> Get(s', Loc(target, key)) == remote && s'.issued == s.issued
    ensures Loc(target, key) !in s.objs ==>
      if remote.None? then Loc(target, key) !in s'.objs && s'.issued == s.issued
      else
        && Loc(target, key) in s'.objs && s'.objs[Loc(target, key)] == Rec(remote.value.(uid := uid), Some(source))
        && s'.issued == s.issued[uid := target]
    ensures forall loc :: loc != Loc(source, key) && loc != Loc(target, key) ==>
      (loc in s'.objs <==> loc in s.objs) && (loc in s.objs ==> s'.objs[loc] == s.objs[loc])
    ensures forall loc :: loc in s.objs && loc in s'.objs ==> s'.objs[loc].origin == s.objs[loc].origin
  {
    RunShape(Name(cfg, source), cfg.follows[(source, target)], key, Get(s, Loc(source, key)), Get(s, Loc(target, key)),
             shouldFollow);
  }

  /** A run of a cluster into itself finds that the object does not control itself. */
  lemma SelfIsInert(cfg: Config, s: State, source: string, key: Key, shouldFollow: bool, uid: string)
    requires NamesDiffer(cfg) && Inv(cfg, s) && (source, source) in cfg.follows
    ensures ApplyHandle(cfg, s, source, source, key, shouldFollow, uid) == s
  {
    WritesOwnCopiesOnly(cfg, s, source, source, key, shouldFollow);
    var here := Loc(source, key);
    if here in s.objs {
      assert s.objs[here := s.objs[here]] == s.objs;
    } else {
      assert s.objs - {here} == s.objs;
    }
  }

  /** A run changes at most two objects: its own local one, whose identity, contents and marks it keeps,
      and the one in its target, which it created itself. */
  lemma HandleEffect(cfg: Config, s: State, s': State, source: string, target: string, key: Key, shouldFollow: bool,
                     uid: string)
    requires NamesDiffer(cfg) && Inv(cfg, s) && Enabled(cfg, s, Handle(source, target, key, shouldFollow, uid))
    requires s' == ApplyHandle(cfg, s, source, target, key, shouldFollow, uid)
    ensures HandledWell(cfg, s, s', source, target, key, uid)
  {
    WritesOwnCopiesOnly(cfg, s, source, target, key, shouldFollow);
    if source == target {
      SelfIsInert(cfg, s, source, key, shouldFollow, uid);
    } else {
      HandleWrites(cfg, s, s', source, target, key, shouldFollow, uid);
    }
  }

  lemma HandleWrites(cfg: Config, s: State, s': State, source: string, target: string, key: Key, shouldFollow: bool,
                     uid: string)
    requires (source, target) in cfg.follows && source != target
    requires s' == ApplyHandle(cfg, s, source, target, key, shouldFollow, uid)
    requires var plan := Plan(Name(cfg, source), cfg.follows[(source, target)], Get(s, Loc(source, key)),
                              Get(s, Loc(target, key)), shouldFollow);
      Loc(target, key) in s.objs && (plan.DeleteRemote? || plan.Follow?) ==>
        s.objs[Loc(target, key)].origin == Some(source)
    ensures HandledWell(cfg, s, s', source, target, key, uid)
  {
    var here, there, name, finalizer := Loc(source, key), Loc(target, key), Name(cfg, source),
        cfg.follows[(source, target)];
    var (local, remote) := AfterRun(name, finalizer, key, Get(s, here), Get(s, there), shouldFollow);
    RunShape(name, finalizer, key, Get(s, here), Get(s, there), shouldFollow);
    HandleAt(cfg, s, s', source, target, key, shouldFollow, uid, local, remote);
  }

  ghost predicate Untouched(s: State, s': State, loc: Loc) {
    (loc in s'.objs <==> loc in s.objs) && (loc in s.objs ==> s'.objs[loc] == s.objs[loc])
  }

  ghost predicate HandledWell(cfg: Config, s: State, s': State, source: string, target: string, key: Key, uid: string)
    requires (source, target) in cfg.follows
  {
    var here, there, name, finalizer := Loc(source, key), Loc(target, key), Name(cfg, source),
        cfg.follows[(source, target)];
    && (forall loc :: loc != here && loc != there ==> Untouched(s, s', loc))
    && (source == target ==> s' == s)
    && (source != target ==>
          && (here in s'.objs ==>
                && here in s.objs && s'.objs[here].origin == s.objs[here].origin
                && LocalEdit(s.objs[here].obj, s'.objs[here].obj, finalizer))
          && (there in s.objs ==> s'.issued == s.issued)
          && (there in s.objs && !Untouched(s, s', there) ==>
                && s.objs[there].origin == Some(source)
                && (there in s'.objs ==>
                      && s'.objs[there].origin == Some(source)
                      && RemoteEdit(s.objs[there].obj, s'.objs[there].obj, name, Get(s, here), finalizer)))
          && (there !in s.objs && there in s'.objs ==>
                && here in s.objs && here in s'.objs && s'.issued == s.issued[uid := target]
                && s'.objs[there] == Rec(MakeRemote(name, key, s'.objs[here].obj).(uid := uid), Some(source)))
          && (there !in s.objs && there !in s'.objs ==> s'.issued == s.issued))
  }

  lemma HandledInv(cfg: Config, s: State, s': State, source: string, target: string, key: Key, uid: string)
    requires Inv(cfg, s) && (source, target) in cfg.follows && uid != "" && uid !in s.issued
    requires HandledWell(cfg, s, s', source, target, key, uid)
    ensures Inv(cfg, s')
  {
    if source != target {
      var here, there, finalizer := Loc(source, key), Loc(target, key), cfg.follows[(source, target)];
      forall loc | loc in s'.objs ensures Marked(cfg, s'.issued, loc, s'.objs[loc]) {
        if loc in s.objs {
          assert Marked(cfg, s.issued, loc, s.objs[loc]);
          if loc == here {
            LocalEditMarked(cfg, s.issued, loc, s.objs[loc], s'.objs[loc].obj, finalizer);
          } else if loc == there && !Untouched(s, s', there) {
            RemoteEditMarked(cfg, s.issued, loc, s.objs[loc], s'.objs[loc].obj, source, Get(s, here), finalizer);
          } else {
            assert Untouched(s, s', loc);
          }
          assert Marked(cfg, s.issued, loc, s'.objs[loc]);
          if s'.issued != s.issued {
            MarkedMore(cfg, s.issued, loc, s'.objs[loc], uid, target);
          }
        } else {
          assert !Untouched(s, s', loc) && loc == there;
          assert Marked(cfg, s.issued, here, s.objs[here]);
          LocalEditMarked(cfg, s.issued, here, s.objs[here], s'.objs[here].obj, finalizer);
          CopyMarked(cfg, s, source, target, key, s'.objs[here].obj, uid);
        }
      }
    }
  }

  lemma UserInv(cfg: Config, s: State, step: Step)
    requires Inv(cfg, s) && Enabled(cfg, s, step) && !step.Handle?
    ensures Inv(cfg, Apply(cfg, s, step))
  {
    OurKeys();
    match step
    case UserCreate(loc, obj) =>
      OursKeep(obj.labels, map[], LABEL_PARENT_UID);
      OursKeep(obj.labels, map[], LABEL_PARENT_CLUSTER);
      OursKeep(obj.annotations, map[], LABEL_PARENT_UID);
      forall l | l in s.objs ensures Marked(cfg, s.issued[obj.uid := loc.cluster], l, s.objs[l]) {
        MarkedMore(cfg, s.issued, l, s.objs[l], obj.uid, loc.cluster);
      }
    case UserEdit(loc, obj) =>
      var o := s.objs[loc].obj;
      assert Marked(cfg, s.issued, loc, s.objs[loc]);
      OursKeep(obj.labels, o.labels, LABEL_PARENT_UID);
      OursKeep(obj.labels, o.labels, LABEL_PARENT_CLUSTER);
      OursKeep(obj.annotations, o.annotations, LABEL_PARENT_UID);
      MarkedEdit(cfg, s.issued, loc, s.objs[loc], obj);
    case UserDelete(loc) =>
      assert Marked(cfg, s.issued, loc, s.objs[loc]);
  }

  lemma {:induction false} ReachableInv(cfg: Config, steps: seq<Step>, s: State)
    requires NamesDiffer(cfg) && Exec(cfg, steps) == Some(s)
    ensures Inv(cfg, s)
    decreases |steps|
  {
    if steps != [] {
      var last := |steps| - 1;
      var before := Exec(cfg, steps[..last]).value;
      ReachableInv(cfg, steps[..last], before);
      match steps[last]
      case Handle(source, target, key, shouldFollow, uid) =>
        HandleEffect(cfg, before, s, source, target, key, shouldFollow, uid);
        HandledInv(cfg, before, s, source, target, key, uid);
      case UserCreate(_, _) => UserInv(cfg, before, steps[last]);
      case UserEdit(_, _) => UserInv(cfg, before, steps[last]);
      case UserDelete(_) => UserInv(cfg, before, steps[last]);
    }
  }

  // ---- Non-interference ----

  /** The next run of `source` into `target` leaves alone what `source` did not create: everything outside
      the pair of objects it handles, and in the target whatever a user or another source created. */
  ghost predicate Respects(cfg: Config, s: State, source: string, target: string, key: Key, shouldFollow: bool,
                           uid: string)
    requires (source, target) in cfg.follows
  {
    var s' := ApplyHandle(cfg, s, source, target, key, shouldFollow, uid);
    forall loc :: loc in s.objs && loc != Loc(source, key) && !Untouched(s, s', loc) ==>
      loc == Loc(target, key) && s.objs[loc].origin == Some(source)
  }

  /** In every run of any number of sources into shared targets, chains included. */
  lemma NonInterference(cfg: Config, steps: seq<Step>, s: State, source: string, target: string, key: Key,
                        shouldFollow: bool, uid: string)
    requires NamesDiffer(cfg) && Exec(cfg, steps) == Some(s)
    requires Enabled(cfg, s, Handle(source, target, key, shouldFollow, uid))
    ensures Respects(cfg, s, source, target, key, shouldFollow, uid)
    ensures Loc(source, key) in s.objs && source != target ==>
      var s' := ApplyHandle(cfg, s, source, target, key, shouldFollow, uid);
      Loc(source, key) in s'.objs ==>
        LocalEdit(s.objs[Loc(source, key)].obj, s'.objs[Loc(source, key)].obj, cfg.follows[(source, target)])
  {
    ReachableInv(cfg, steps, s);
    HandleEffect(cfg, s, ApplyHandle(cfg, s, source, target, key, shouldFollow, uid), source, target, key, shouldFollow,
                 uid);
  }

  ghost predicate AlwaysRespects(cfg: Config) {
    forall steps, source, target, key, shouldFollow, uid ::
      Exec(cfg, steps).Some? && Enabled(cfg, Exec(cfg, steps).value, Handle(source, target, key, shouldFollow, uid)) ==>
        Respects(cfg, Exec(cfg, steps).value, source, target, key, shouldFollow, uid)
  }

  const SAMPLE := Obj("1", 0, [], false, map[], map[], ConfigMap(map[], map[]))
  const SAMPLE_KEY := Key("n", "o")

  /** A user's object and its copy in a target. */
  lemma CopiedOnce(cfg: Config, b: string, t: string, s: State)
    requires (b, t) in cfg.follows && b != t
    requires s == State(map[Loc(b, SAMPLE_KEY) := Rec(SAMPLE, None)], map["1" := b])
    ensures var s' := ApplyHandle(cfg, s, b, t, SAMPLE_KEY, true, "2");
      && s'.objs.Keys == {Loc(b, SAMPLE_KEY), Loc(t, SAMPLE_KEY)} && s'.issued == map["1" := b, "2" := t]
      && var copy := s'.objs[Loc(t, SAMPLE_KEY)];
         && copy.origin == Some(b) && copy.obj.finalizers == [] && IsRemoteControlled(copy.obj.labels, Name(cfg, b))
  {
    OurKeys();
  }

  lemma CopiedRun(cfg: Config, b: string, t: string)
    requires (b, t) in cfg.follows && b != t
    ensures var r := Exec(cfg, [UserCreate(Loc(b, SAMPLE_KEY), SAMPLE), Handle(b, t, SAMPLE_KEY, true, "2")]);
      r == Some(ApplyHandle(cfg, State(map[Loc(b, SAMPLE_KEY) := Rec(SAMPLE, None)], map["1" := b]), b, t, SAMPLE_KEY,
                            true, "2"))
  {
    var create, copy := UserCreate(Loc(b, SAMPLE_KEY), SAMPLE), Handle(b, t, SAMPLE_KEY, true, "2");
    assert [create, copy][..1] == [create] && [create][..0] == [];
    assert Exec(cfg, []) == Some(INIT);
    assert Enabled(cfg, INIT, create);
    assert "2" !in map["1" := b];
  }

  /** Two sources of a target that share a name: one of them, having no object of that name, deletes the
      other's copy as its own orphan. */
  lemma SharedNameInterferes(cfg: Config, a: string, b: string, t: string)
    requires (a, t) in cfg.follows && (b, t) in cfg.follows && a != b && a != t && b != t
    requires Name(cfg, a) == Name(cfg, b)
    ensures !AlwaysRespects(cfg)
  {
    var steps := [UserCreate(Loc(b, SAMPLE_KEY), SAMPLE), Handle(b, t, SAMPLE_KEY, true, "2")];
    var s1 := State(map[Loc(b, SAMPLE_KEY) := Rec(SAMPLE, None)], map["1" := b]);
    CopiedRun(cfg, b, t);
    CopiedOnce(cfg, b, t, s1);
    var s := Exec(cfg, steps).value;
    var there := Loc(t, SAMPLE_KEY);
    assert Enabled(cfg, s, Handle(a, t, SAMPLE_KEY, true, "3"));
    assert there !in ApplyHandle(cfg, s, a, t, SAMPLE_KEY, true, "3").objs;
    assert !Untouched(s, ApplyHandle(cfg, s, a, t, SAMPLE_KEY, true, "3"), there);
    assert !Respects(cfg, s, a, t, SAMPLE_KEY, true, "3");
  }

  /** Distinct names among the sources of each target are exactly what non-interference takes. */
  lemma NamesDecide(cfg: Config)
    ensures NamesDiffer(cfg) <==> AlwaysRespects(cfg)
  {
    if NamesDiffer(cfg) {
      forall steps, source, target, key, shouldFollow, uid
        | Exec(cfg, steps).Some? && Enabled(cfg, Exec(cfg, steps).value, Handle(source, target, key, shouldFollow, uid))
        ensures Respects(cfg, Exec(cfg, steps).value, source, target, key, shouldFollow, uid)
      {
        NonInterference(cfg, steps, Exec(cfg, steps).value, source, target, key, shouldFollow, uid);
      }
    } else {
      var a, b, t :| (a, t) in cfg.follows && (b, t) in cfg.follows && a != b && a != t && b != t
          && Name(cfg, a) == Name(cfg, b);
      SharedNameInterferes(cfg, a, b, t);
    }
  }
}
