/** The election as a mutable world: the servers, the proxy scheduler's memory and the cycles under way,
    moved by one actor's methods with everybody else's steps in between. */
module World {
  import opened Kube
  import opened ChaperonServer
  import opened ElectionModel
  import opened ElectionInvariant
  import opened ElectionTheorems
  import opened ElectionRetry

  /** Whose calls a method makes: the proxy scheduler's for one pod, its Filter call for one pod and one node,
      one run of the chaperon controller of cluster c on the chaperon named k, or the candidate scheduler's of
      cluster c. */
  datatype Actor = ProxyFor(u: string) | FilterOn(u: string, n: string) | SyncFor(c: string,
                                                                                  k: Key) | CandidateIn(c: string)

  /** The node that a call of Filter is about. */
  function FilterNode(call: ProxyCall): Option<string> {
    match call
    case FilterSkip(n) => Some(n)
    case FilterPoll(n, _) => Some(n)
    case FilterCreate(n, _) => Some(n)
    case FilterGiveUp(n) => Some(n)
    case _ => None
  }

  function SyncKey(act: TargetCall): Option<Key> {
    match act
    case SyncRead(o) => Some(o.key)
    case SyncStampMissing(k, _) => Some(k)
    case SyncClearMissing(k) => Some(k)
    case SyncStatus(k, _) => Some(k)
    case SyncAnnotate(k, _) => Some(k)
    case SyncEnd(k) => Some(k)
    case _ => None
  }

  predicate Mine(actor: Actor, step: Step) {
    match actor
    case ProxyFor(u) => step.Proxy? && step.u == u
    case FilterOn(u, n) =>
      // Filter runs for other nodes in parallel; nothing else happens in the pod's cycle
      step.Proxy? && step.u == u && (FilterNode(step.call).None? || FilterNode(step.call).value == n)
    case SyncFor(c, k) => step.Target? && step.c == c && SyncKey(step.act) == Some(k)
    case CandidateIn(c) =>
      step.Target? && step.c == c
          && (step.act.CandidatePreFilter? || step.act.CandidateReserve? || step.act.CandidatePreBind?)
  }

  /** `more` leads from s to s' without any step of the actor. */
  ghost predicate Elsewhere(cfg: Config, actor: Actor, s: State, more: seq<Step>, s': State)
    decreases |more|
  {
    if more == [] then s' == s
    else
      && !Mine(actor, more[0])
      && Enabled(cfg, s, more[0]) && Elsewhere(cfg, actor, Apply(cfg, s, more[0]), more[1..], s')
  }

  /** What the rest of the world may have done between two calls of the actor. */
  ghost predicate Interferes(cfg: Config, actor: Actor, s: State, s': State) {
    exists more :: Elsewhere(cfg, actor, s, more, s')
  }

  /** The state the others leave before the actor's i-th call, if they find it in the given state. */
  type Environment = (nat, State) -> State

  ghost predicate IsEnvironment(cfg: Config, actor: Actor, env: Environment) {
    forall i, s {:trigger Interferes(cfg, actor, s, env(i, s))} :: Interferes(cfg, actor, s, env(i, s))
  }

  /** The cycle moved on for other nodes only. */
  ghost predicate Beside(cy: Cycle, cy': Cycle, n: string) {
    && cy' == cy.(passed := cy'.passed, absent := cy'.absent)
    && (n in cy'.passed <==> n in cy.passed) && (n in cy'.absent <==> n in cy.absent)
  }

  /** The actor's own part of the state. */
  ghost predicate Untouched(actor: Actor, s: State, s': State) {
    match actor
    case ProxyFor(u) =>
      && (u in s'.cycles <==> u in s.cycles) && (u in s.cycles ==> s'.cycles[u] == s.cycles[u])
      && FailedNodes(s', u) == FailedNodes(s, u)
    case FilterOn(u, n) =>
      && (u in s'.cycles <==> u in s.cycles) && (u in s.cycles ==> Beside(s.cycles[u], s'.cycles[u], n))
      && FailedNodes(s', u) == FailedNodes(s, u)
    case SyncFor(c, k) =>
      c in s.clusters ==>
        && c in s'.clusters && (k in s'.clusters[c].syncs <==> k in s.clusters[c].syncs)
        && (k in s.clusters[c].syncs ==> s'.clusters[c].syncs[k] == s.clusters[c].syncs[k])
    case CandidateIn(_) => true
  }

  lemma ProxyKeepsSyncs(cfg: Config, s: State, u: string, call: ProxyCall, s': State)
    requires ProxyEnabled(cfg, s, u, call) && s' == ApplyProxy(cfg, s, u, call)
    ensures forall c :: c in s.clusters ==> c in s'.clusters && s'.clusters[c].syncs == s.clusters[c].syncs
  {
    if IsLocal(call) {
      LocalFrame(cfg, s, u, call, s');
    }
  }

  lemma OtherFilters(cfg: Config, s: State, u: string, call: ProxyCall, s': State, n: string)
    requires ProxyEnabled(cfg, s, u, call) && s' == ApplyProxy(cfg, s, u, call)
    requires FilterNode(call).Some? && FilterNode(call).value != n
    ensures u in s.cycles && u in s'.cycles && Beside(s.cycles[u], s'.cycles[u], n)
    ensures FailedNodes(s', u) == FailedNodes(s, u)
  {
  }

  lemma OtherActors(cfg: Config, actor: Actor, s: State, step: Step, s': State)
    requires Enabled(cfg, s, step) && !Mine(actor, step) && s' == Apply(cfg, s, step)
    ensures Untouched(actor, s, s')
  {
    match actor
    case ProxyFor(u) => OtherStep(cfg, s, step, s', u);
    case FilterOn(u, n) =>
      if step.Proxy? && step.u == u {
        OtherFilters(cfg, s, u, step.call, s', n);
      } else {
        OtherStep(cfg, s, step, s', u);
      }
    case SyncFor(c, k) =>
      if step.Proxy? {
        ProxyKeepsSyncs(cfg, s, step.u, step.call, s');
      }
    case CandidateIn(_) =>
  }

  lemma {:induction false} OthersReach(cfg: Config, run: seq<Step>, actor: Actor, s: State, more: seq<Step>, s': State)
    requires Reaches(cfg, run, s) && Elsewhere(cfg, actor, s, more, s')
    ensures Reaches(cfg, run + more, s') && Untouched(actor, s, s')
    decreases |more|
  {
    if more == [] {
      assert run + more == run;
    } else {
      ReachesMore(cfg, run, s, more[0]);
      OtherActors(cfg, actor, s, more[0], Apply(cfg, s, more[0]));
      assert run + [more[0]] + more[1..] == run + more;
      OthersReach(cfg, run + [more[0]], actor, Apply(cfg, s, more[0]), more[1..], s');
    }
  }

  lemma {:induction false} NotMine(cfg: Config, actor: Actor, s: State, more: seq<Step>, s': State)
    requires Elsewhere(cfg, actor, s, more, s')
    ensures forall j :: 0 <= j < |more| ==> !Mine(actor, more[j])
    decreases |more|
  {
    if more != [] {
      NotMine(cfg, actor, Apply(cfg, s, more[0]), more[1..], s');
      assert forall j :: 0 < j < |more| ==> more[j] == more[1..][j - 1];
    }
  }

  function LastOf(s: State, states: seq<State>): State {
    if states == [] then s else states[|states| - 1]
  }

  /** The states that an actor finds which only looks, one after each move of the others. */
  ghost predicate Trace(env: Environment, s: State, states: seq<State>) {
    forall i :: 0 <= i < |states| ==> states[i] == env(i, LastOf(s, states[..i]))
  }

  lemma TraceMore(env: Environment, s: State, states: seq<State>, next: State)
    requires Trace(env, s, states) && next == env(|states|, LastOf(s, states))
    ensures Trace(env, s, states + [next]) && LastOf(s, states + [next]) == next
  {
    var more := states + [next];
    assert more[..|states|] == states;
    forall i | 0 <= i < |more| ensures more[i] == env(i, LastOf(s, more[..i])) {
      if i < |states| {
        assert more[..i] == states[..i];
      }
    }
  }

  lemma ClustersAreTargets(cfg: Config, run: seq<Step>, s: State)
    requires Reaches(cfg, run, s)
    ensures s.clusters.Keys == cfg.targets.Keys
  {
    ReachableInv(cfg, run, s);
  }

  lemma PatchOneEffect(s: Server, k: Key, patch: Patch)
    requires Valid(s) && k in s.objs
    ensures var b := After(s, PatchAnnotations(s, k, patch));
      && b.objs.Keys == s.objs.Keys
      && b.objs[k] == s.objs[k].(annotations := MergePatch(s.objs[k].annotations, patch), rv := b.objs[k].rv)
      && (forall k' :: k' in s.objs && k' != k ==> b.objs[k'] == s.objs[k'])
  {
  }

  /** Only the annotations of one chaperon in one cluster differ, and its version. */
  ghost predicate OnlyAnnotates(clusters: map<string, Cluster>, clusters': map<string, Cluster>, c: string, k: Key,
                                a: map<string, string>)
    requires c in clusters && k in clusters[c].api.objs
  {
    && clusters'.Keys == clusters.Keys && (forall c' :: c' in clusters && c' != c ==> clusters'[c'] == clusters[c'])
    && clusters'[c] == clusters[c].(api := clusters'[c].api)
    && var objs, objs' := clusters[c].api.objs, clusters'[c].api.objs;
       && objs'.Keys == objs.Keys && (forall k' :: k' in objs && k' != k ==> objs'[k'] == objs[k'])
       && objs'[k] == objs[k].(annotations := a, rv := objs'[k].rv)
  }

  class World {
    const cfg: Config
    var pods: map<Key, ProxyPod>
    var issued: map<string, Key>
    var clusters: map<string, Cluster>
    var cycles: map<string, Cycle>
    var failed: map<string, set<string>>
    ghost var run: seq<Step>

    function Now(): State
      reads this
    {
      State(pods, issued, clusters, cycles, failed)
    }

    /** The fields are always a state that the recorded run reaches. */
    ghost predicate Valid()
      reads this
    {
      Reaches(cfg, run, Now())
    }

    constructor (cfg: Config)
      ensures Valid() && this.cfg == cfg && run == []
    {
      this.cfg := cfg;
      var s := Init(cfg);
      pods, issued, clusters, cycles, failed := s.pods, s.issued, s.clusters, s.cycles, s.failed;
      run := [];
    }

    /** The others move. */
    method Interfere(actor: Actor, i: nat, env: Environment)
      requires Valid() && IsEnvironment(cfg, actor, env)
      modifies this
      ensures Valid() && old(run) <= run && Untouched(actor, old(Now()), Now())
      ensures Elsewhere(cfg, actor, old(Now()), run[|old(run)|..], Now())
      ensures forall j :: |old(run)| <= j < |run| ==> !Mine(actor, run[j])
      ensures Now() == env(i, old(Now()))
    {
      var s := env(i, Now());
      assert Interferes(cfg, actor, Now(), s);
      ghost var more :| Elsewhere(cfg, actor, Now(), more, s);
      OthersReach(cfg, run, actor, Now(), more, s);
      NotMine(cfg, actor, Now(), more, s);
      pods, issued, clusters, cycles, failed := s.pods, s.issued, s.clusters, s.cycles, s.failed;
      run := run + more;
    }

    /** Records a step whose effect has just been assigned to the fields. */
    ghost method Record(s: State, step: Step)
      requires Reaches(cfg, run, s) && Enabled(cfg, s, step) && Now() == Apply(cfg, s, step)
      modifies this`run
      ensures Valid() && run == old(run) + [step]
    {
      ReachesMore(cfg, run, s, step);
      run := run + [step];
    }
  }

  lemma ServerValid(w: World, c: string)
    requires w.Valid() && c in w.clusters
    ensures Valid(w.clusters[c].api)
  {
    ReachableInv(w.cfg, w.run, w.Now());
    assert ClusterOk(w.clusters[c]);
  }
}
