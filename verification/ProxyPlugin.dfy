/** The proxy scheduler plugin: the calls a scheduling cycle makes, in the order the plugin makes them,
    with everybody else's calls in between.  Each method performs steps of the election, so every
    result about runs applies to the states it leaves behind. */
module ProxyPlugin {
  import opened Kube
  import opened RemoteControl
  import opened ChaperonServer
  import opened ElectionModel
  import opened ElectionTheorems
  import opened World
  import ElectionGate
  import ElectionHistory
  import ElectionInvariant

  /** The API server's name generator never repeats a name. */
  ghost predicate IsGenerator(ns: string, names: Server -> string) {
    forall api :: Fresh(api, Key(ns, names(api)))
  }

  lemma OnlyChoice(l: set<Key>, k: Key)
    requires |l| == 1 && k in l
    ensures TheOne(l) == k
  {
    assert |l - {k}| == 0;
  }

  /** Forgets every node that failed the pod: all of them have been filtered out. */
  method PostFilter(w: World, u: string)
    requires w.Valid() && u in w.cycles && w.cycles[u].stage.Filtering? && w.cycles[u].absent == {}
    requires w.cycles[u].passed == {}
    modifies w
    ensures w.Valid() && w.run == old(w.run) + [Proxy(u, ElectionModel.PostFilter)] && u !in w.cycles
    ensures u in w.failed && w.failed[u] == {}
  {
    ghost var s := w.Now();
    w.failed := w.failed[u := {}];
    w.cycles := w.cycles - {u};
    w.Record(s, Proxy(u, ElectionModel.PostFilter));
  }

  /** Remembers that the node failed the pod, so that the next cycles filter it out. */
  method Unreserve(w: World, u: string)
    requires w.Valid() && u in w.cycles && w.cycles[u].stage.Failed?
    modifies w
    ensures w.Valid() && w.run == old(w.run) + [Proxy(u, ElectionModel.Unreserve)] && u !in w.cycles
    ensures u in w.failed && w.failed[u] == FailedNodes(old(w.Now()), u) + {old(w.cycles)[u].node}
    ensures forall v :: v != u ==> FailedNodes(w.Now(), v) == FailedNodes(old(w.Now()), v)
  {
    ghost var s := w.Now();
    var node := w.cycles[u].node;
    w.failed := w.failed[u := (if u in w.failed then w.failed[u] else {}) + {node}];
    w.cycles := w.cycles - {u};
    w.Record(s, Proxy(u, ElectionModel.Unreserve));
  }

  // ---- Filter ----

  /** Some condition reports that the pod cannot be scheduled, or not yet. */
  ghost predicate SaysUnschedulable(conditions: seq<Condition>) {
    exists q :: q in conditions && q.kind == "PodScheduled" && q.status == "False"
                && q.reason in {"Unschedulable", "SchedulingGated"}
  }

  /** The loop over the conditions of a candidate. */
  method IsCandidatePodUnschedulable(o: Chaperon) returns (r: bool)
    ensures r <==> SaysUnschedulable(o.status.conditions)
    ensures r <==> IsUnschedulable(o)
  {
    var conditions := o.status.conditions;
    for i := 0 to |conditions|
      invariant forall j :: 0 <= j < i ==>
        !(conditions[j].kind == "PodScheduled" && conditions[j].status == "False"
          && (conditions[j].reason == "Unschedulable" || conditions[j].reason == "SchedulingGated"))
    {
      var q := conditions[i];
      if q.kind == "PodScheduled" && q.status == "False"
          && (q.reason == "Unschedulable" || q.reason == "SchedulingGated") {
        return true;
      }
    }
    return false;
  }

  /** What the poll reports is what the server holds for the pod. */
  ghost predicate SeenRightly(api: Server, ns: string, u: string, seen: Seen) {
    var l := ListByParent(api, ns, u);
    && (seen == SeenNone <==> l == {})
    && (seen == SeenMany <==> |l| > 1)
    && (forall k :: l == {k} ==>
          && (seen == SeenUnschedulable <==> SaysUnschedulable(api.objs[k].status.conditions))
          && (seen == SeenReserved <==> seen != SeenUnschedulable && ANNOTATION_IS_RESERVED in api.objs[k].annotations)
          && (seen == SeenPending <==> seen != SeenUnschedulable && ANNOTATION_IS_RESERVED !in api.objs[k].annotations))
  }

  /** One poll: list the candidates behind the node and look at the one found. */
  method Poll(w: World, u: string, n: string) returns (seen: Seen)
    requires w.Valid() && u in w.cycles && w.cycles[u].stage.Filtering? && !w.cycles[u].noReservation
    requires n !in w.cycles[u].absent
    requires FilterScope(w.cfg, n, w.cycles[u].key.ns) && n !in FailedNodes(w.Now(), u) && n in w.clusters
    modifies w`cycles, w`run
    ensures w.Valid() && w.run == old(w.run) + [Proxy(u, FilterPoll(n, seen))] && u in w.cycles
    ensures w.cycles[u] == match seen
                         case SeenNone => old(w.cycles)[u].(absent := old(w.cycles)[u].absent + {n})
                         case SeenReserved => old(w.cycles)[u].(passed := old(w.cycles)[u].passed + {n})
                         case _ => old(w.cycles)[u]
    ensures var api, ns := old(w.clusters)[n].api, old(w.cycles)[u].key.ns; SeenRightly(api, ns, u, seen)
  {
    ghost var s := w.Now();
    var cy := w.cycles[u];
    var l := ListByParent(w.clusters[n].api, cy.key.ns, u);
    if l == {} {
      seen := SeenNone;
      w.cycles := w.cycles[u := cy.(absent := cy.absent + {n})];
    } else if |l| > 1 {
      seen := SeenMany;
    } else {
      var k :| k in l;
      var o := w.clusters[n].api.objs[k];
      var isUnschedulable := IsCandidatePodUnschedulable(o);
      if isUnschedulable {
        seen := SeenUnschedulable;
      } else if ANNOTATION_IS_RESERVED in o.annotations {
        seen := SeenReserved;
        w.cycles := w.cycles[u := cy.(passed := cy.passed + {n})];
      } else {
        seen := SeenPending;
      }
    }
    w.Record(s, Proxy(u, FilterPoll(n, seen)));
  }

  /** The server gains one chaperon, under a name it has never stored, with the template's labels and annotations. */
  ghost predicate Gains(clusters: map<string, Cluster>, clusters': map<string, Cluster>, n: string,
                        template: Chaperon) {
    && n in clusters && clusters'.Keys == clusters.Keys
    && (forall c :: c in clusters && c != n ==> clusters'[c] == clusters[c])
    && exists k ::
         && k !in clusters[n].api.objs && k.ns == template.key.ns
         && clusters'[n].api.objs.Keys == clusters[n].api.objs.Keys + {k}
         && (forall k' :: k' in clusters[n].api.objs ==> clusters'[n].api.objs[k'] == clusters[n].api.objs[k'])
         && clusters'[n].api.objs[k] == template.(key := k, rv := clusters'[n].api.objs[k].rv)
  }

  lemma WriteGains(clusters: map<string, Cluster>, n: string, template: Chaperon, k: Key)
    requires n in clusters && Valid(clusters[n].api) && Fresh(clusters[n].api, k) && k.ns == template.key.ns
    ensures var cl := clusters[n];
      Gains(clusters, clusters[n := cl.(api := Write(cl.api, template.(key := k)))], n, template)
  {
    var api := clusters[n].api;
    assert forall x :: x in api.objs ==> api.objs[x].key == x && api.objs[x] in api.served;
    assert Write(api, template.(key := k)).objs[k] == template.(key := k, rv := api.rev + 1);
  }

  /** Creates the candidate under a generated name. */
  method Create(w: World, u: string, n: string, template: Chaperon, names: Server -> string)
    requires w.Valid() && u in w.cycles && w.cycles[u].stage.Filtering? && n in w.cycles[u].absent && n in w.clusters
    requires IsNewCandidate(w.cfg, w.Now(), u, template) && IsGenerator(w.cycles[u].key.ns, names)
    modifies w`cycles, w`clusters, w`run
    ensures w.Valid() && u in w.cycles
    ensures w.run ==
        old(w.run) + [Proxy(u, FilterCreate(n, template.(key := Key(template.key.ns, names(old(w.clusters)[n].api)))))]
    ensures w.cycles[u] == old(w.cycles)[u].(absent := old(w.cycles)[u].absent - {n})
    ensures Gains(old(w.clusters), w.clusters, n, template)
  {
    ghost var s := w.Now();
    var cy := w.cycles[u];
    var api := w.clusters[n].api;
    ServerValid(w, n);
    WriteGains(w.clusters, n, template, Key(cy.key.ns, names(api)));
    var o := template.(key := Key(cy.key.ns, names(api)));
    assert IsNewCandidate(w.cfg, s, u, o);
    w.cycles := w.cycles[u := cy.(absent := cy.absent - {n})];
    w.clusters := w.clusters[n := w.clusters[n].(api := Write(api, o))];
    w.Record(s, Proxy(u, FilterCreate(n, o)));
  }

  /** The create call failed. */
  method GiveUp(w: World, u: string, n: string)
    requires w.Valid() && u in w.cycles && w.cycles[u].stage.Filtering? && n in w.cycles[u].absent
    modifies w`cycles, w`run
    ensures w.Valid() && w.run == old(w.run) + [Proxy(u, FilterGiveUp(n))] && u in w.cycles
    ensures w.cycles[u] == old(w.cycles)[u].(absent := old(w.cycles)[u].absent - {n})
  {
    ghost var s := w.Now();
    w.cycles := w.cycles[u := w.cycles[u].(absent := w.cycles[u].absent - {n})];
    w.Record(s, Proxy(u, FilterGiveUp(n)));
  }

  /** What one Filter call leaves of the cycle, while Filter runs for other nodes in parallel. */
  ghost predicate Filtered(cy: Cycle, cy': Cycle, n: string, ok: bool) {
    && cy' == cy.(passed := cy'.passed, absent := cy'.absent)
    && (n in cy'.passed <==> ok || n in cy.passed) && n !in cy'.absent
  }

  ghost predicate LastIs(run: seq<Step>, step: Step) {
    run != [] && run[|run| - 1] == step
  }

  /** Why a round refuses the node: the list or create call failed, or the candidate cannot be scheduled. */
  ghost predicate Refused(run: seq<Step>, u: string, n: string, listFault: bool, createFault: bool) {
    || listFault
    || LastIs(run, Proxy(u, FilterPoll(n, SeenMany))) || LastIs(run, Proxy(u, FilterPoll(n, SeenUnschedulable)))
    || (createFault && LastIs(run, Proxy(u, FilterGiveUp(n))))
  }

  /** Why it waits: the candidate is pending, or has just been created. */
  ghost predicate Waits(run: seq<Step>, u: string, n: string) {
    LastIs(run, Proxy(u, FilterPoll(n, SeenPending))) || exists o :: LastIs(run, Proxy(u, FilterCreate(n, o)))
  }

  ghost predicate NoneSince(run: seq<Step>, n: nat, step: Step) {
    forall j :: n <= j < |run| ==> run[j] != step
  }

  /** The round that ended at position p of the run waited. */
  ghost predicate WaitedAt(run: seq<Step>, p: int, u: string, n: string) {
    && 0 <= p < |run|
    && (run[p] == Proxy(u, FilterPoll(n, SeenPending)) || exists o :: run[p] == Proxy(u, FilterCreate(n, o)))
  }

  /** As many rounds waited, at different positions since the given one. */
  ghost predicate AllWaited(run: seq<Step>, from: nat, waits: seq<nat>, u: string, n: string) {
    && (forall i :: 0 <= i < |waits| ==> from <= waits[i] && WaitedAt(run, waits[i], u, n))
    && (forall i, j :: 0 <= i < j < |waits| ==> waits[i] < waits[j])
  }

  lemma WaitsLater(run: seq<Step>, run': seq<Step>, from: nat, waits: seq<nat>, u: string, n: string)
    requires AllWaited(run, from, waits, u, n) && run <= run' && |run| < |run'| && Waits(run', u, n) && from <= |run|
    ensures AllWaited(run', from, waits + [|run'| - 1], u, n)
  {
    forall i | 0 <= i < |waits| ensures WaitedAt(run', waits[i], u, n) {
      assert WaitedAt(run, waits[i], u, n);
    }
    assert WaitedAt(run', |run'| - 1, u, n);
  }

  /** The others move, Filter calls for other nodes included. */
  method Yield(w: World, u: string, n: string, env: Environment, i: nat)
    requires w.Valid() && u in w.cycles && n in w.cfg.targets && IsEnvironment(w.cfg, FilterOn(u, n), env)
    modifies w
    ensures w.Valid() && old(w.run) <= w.run && u in w.cycles && Beside(old(w.cycles)[u], w.cycles[u], n)
    ensures FailedNodes(w.Now(), u) == FailedNodes(old(w.Now()), u) && n in w.clusters
    ensures NoneSince(w.run, |old(w.run)|, Proxy(u, FilterPoll(n, SeenReserved)))
  {
    w.Interfere(FilterOn(u, n), i, env);
    ClustersAreTargets(w.cfg, w.run, w.Now());
  }

  /** One round of the polling loop: decided, or not yet. */
  method Round(w: World, u: string, n: string, template: Chaperon, names: Server -> string, env: Environment, i: nat,
               listFault: bool, createFault: bool)
    returns (decided: Option<bool>)
    requires w.Valid() && u in w.cycles && w.cycles[u].stage.Filtering? && !w.cycles[u].noReservation
    requires n !in w.cycles[u].absent
    requires FilterScope(w.cfg, n, w.cycles[u].key.ns) && n !in FailedNodes(w.Now(), u) && n in w.cfg.targets
    requires IsNewCandidate(w.cfg, w.Now(), u, template) && IsGenerator(w.cycles[u].key.ns, names)
    requires IsEnvironment(w.cfg, FilterOn(u, n), env)
    modifies w
    ensures w.Valid() && old(w.run) <= w.run && u in w.cycles
    ensures FailedNodes(w.Now(), u) == FailedNodes(old(w.Now()), u)
    ensures decided == Some(true) ==> LastIs(w.run, Proxy(u, FilterPoll(n, SeenReserved)))
    ensures decided == Some(false) ==> Refused(w.run, u, n, listFault, createFault)
    ensures decided == None ==> Waits(w.run, u, n) && |w.run| > |old(w.run)|
    ensures decided != Some(true) ==> NoneSince(w.run, |old(w.run)|, Proxy(u, FilterPoll(n, SeenReserved)))
    ensures Filtered(old(w.cycles)[u], w.cycles[u], n, decided == Some(true))
  {
    Yield(w, u, n, env, 2 * i);
    if listFault {
      return Some(false);
    }
    var seen := Ask(w, u, n);
    match seen
    case SeenMany => return Some(false);
    case SeenUnschedulable => return Some(false);
    case SeenReserved => return Some(true);
    case SeenPending => return None;
    case SeenNone => decided := OfferLater(w, u, n, template, names, env, 2 * i + 1, createFault);
  }

  /** The poll, as far as the loop goes by it. */
  method Ask(w: World, u: string, n: string) returns (seen: Seen)
    requires w.Valid() && u in w.cycles && w.cycles[u].stage.Filtering? && !w.cycles[u].noReservation
    requires n !in w.cycles[u].absent
    requires FilterScope(w.cfg, n, w.cycles[u].key.ns) && n !in FailedNodes(w.Now(), u) && n in w.clusters
    modifies w`cycles, w`run
    ensures w.Valid() && w.run == old(w.run) + [Proxy(u, FilterPoll(n, seen))] && u in w.cycles
    ensures seen == SeenNone ==> w.cycles[u] == old(w.cycles)[u].(absent := old(w.cycles)[u].absent + {n})
    ensures seen != SeenNone ==> Filtered(old(w.cycles)[u], w.cycles[u], n, seen == SeenReserved)
  {
    seen := Poll(w, u, n);
  }

  /** No candidate was found; others move before the creation. */
  method OfferLater(w: World, u: string, n: string, template: Chaperon, names: Server -> string, env: Environment,
                    i: nat, createFault: bool)
    returns (decided: Option<bool>)
    requires w.Valid() && u in w.cycles && w.cycles[u].stage.Filtering? && n in w.cycles[u].absent && n in w.cfg.targets
    requires IsNewCandidate(w.cfg, w.Now(), u, template) && IsGenerator(w.cycles[u].key.ns, names)
    requires IsEnvironment(w.cfg, FilterOn(u, n), env)
    modifies w
    ensures w.Valid() && old(w.run) <= w.run && u in w.cycles && |w.run| > |old(w.run)|
    ensures FailedNodes(w.Now(), u) == FailedNodes(old(w.Now()), u)
    ensures NoneSince(w.run, |old(w.run)|, Proxy(u, FilterPoll(n, SeenReserved)))
    ensures Filtered(old(w.cycles)[u], w.cycles[u], n, false)
    ensures if createFault then decided == Some(false) && LastIs(w.run, Proxy(u, FilterGiveUp(n)))
            else decided == None && Waits(w.run, u, n)
  {
    Yield(w, u, n, env, i);
    decided := Offer(w, u, n, template, names, createFault);
  }

  /** No candidate was found: create it, or give up if the call fails. */
  method Offer(w: World, u: string, n: string, template: Chaperon, names: Server -> string, createFault: bool)
    returns (decided: Option<bool>)
    requires w.Valid() && u in w.cycles && w.cycles[u].stage.Filtering? && n in w.cycles[u].absent && n in w.cfg.targets
    requires IsNewCandidate(w.cfg, w.Now(), u, template) && IsGenerator(w.cycles[u].key.ns, names)
    modifies w`cycles, w`clusters, w`run
    ensures w.Valid() && old(w.run) <= w.run && u in w.cycles
    ensures w.cycles[u] == old(w.cycles)[u].(absent := old(w.cycles)[u].absent - {n})
    ensures if createFault then decided == Some(false) && LastIs(w.run, Proxy(u, FilterGiveUp(n)))
            else decided == None && Waits(w.run, u, n)
    ensures |w.run| == |old(w.run)| + 1
  {
    ClustersAreTargets(w.cfg, w.run, w.Now());
    if createFault {
      GiveUp(w, u, n);
      return Some(false);
    } else {
      Create(w, u, n, template, names);
      return None;
    }
  }

  /** Without reservations the node passes at once; the candidate is created after it is chosen. */
  method Skip(w: World, u: string, n: string)
    requires w.Valid() && u in w.cycles && w.cycles[u].stage.Filtering? && w.cycles[u].noReservation
    requires FilterScope(w.cfg, n, w.cycles[u].key.ns) && n !in FailedNodes(w.Now(), u)
    modifies w`cycles, w`run
    ensures w.Valid() && w.run == old(w.run) + [Proxy(u, FilterSkip(n))] && u in w.cycles
    ensures w.cycles[u] == old(w.cycles)[u].(passed := old(w.cycles)[u].passed + {n})
  {
    ghost var s := w.Now();
    w.cycles := w.cycles[u := w.cycles[u].(passed := w.cycles[u].passed + {n})];
    w.Record(s, Proxy(u, FilterSkip(n)));
  }

  /** Polls a bounded number of times; calls in `faults` fail, two to a round.  The node passes if and only if some
      round sees the reservation; otherwise a round refuses it, or all of them wait. */
  method Await(w: World, u: string, n: string, template: Chaperon, names: Server -> string, env: Environment,
               polls: nat, faults: set<nat>)
    returns (ok: bool, ghost waits: seq<nat>)
    requires w.Valid() && u in w.cycles && w.cycles[u].stage.Filtering? && !w.cycles[u].noReservation
    requires n !in w.cycles[u].absent
    requires FilterScope(w.cfg, n, w.cycles[u].key.ns) && n !in FailedNodes(w.Now(), u) && n in w.cfg.targets
    requires IsNewCandidate(w.cfg, w.Now(), u, template) && IsGenerator(w.cycles[u].key.ns, names)
    requires IsEnvironment(w.cfg, FilterOn(u, n), env)
    modifies w
    ensures w.Valid() && old(w.run) <= w.run && u in w.cycles
    ensures ok ==> LastIs(w.run, Proxy(u, FilterPoll(n, SeenReserved)))
    ensures !ok ==> NoneSince(w.run, |old(w.run)|, Proxy(u, FilterPoll(n, SeenReserved)))
    ensures AllWaited(w.run, |old(w.run)|, waits, u, n) && |waits| <= polls
    ensures !ok && |waits| < polls ==> Refused(w.run, u, n, 2 * |waits| in faults, 2 * |waits| + 1 in faults)
    ensures Filtered(old(w.cycles)[u], w.cycles[u], n, ok)
  {
    waits := [];
    for i := 0 to polls
      invariant w.Valid() && old(w.run) <= w.run && u in w.cycles && Filtered(old(w.cycles)[u], w.cycles[u], n, false)
      invariant FailedNodes(w.Now(), u) == FailedNodes(old(w.Now()), u)
      invariant NoneSince(w.run, |old(w.run)|, Proxy(u, FilterPoll(n, SeenReserved)))
      invariant AllWaited(w.run, |old(w.run)|, waits, u, n) && |waits| == i
    {
      ghost var before := w.run;
      var decided := Round(w, u, n, template, names, env, i, 2 * i in faults, 2 * i + 1 in faults);
      if decided.Some? {
        WaitsStay(before, w.run, |old(w.run)|, waits, u, n);
        return decided.value, waits;
      }
      WaitsLater(before, w.run, |old(w.run)|, waits, u, n);
      waits := waits + [|w.run| - 1];
    }
    return false, waits;
  }

  lemma WaitsStay(run: seq<Step>, run': seq<Step>, from: nat, waits: seq<nat>, u: string, n: string)
    requires AllWaited(run, from, waits, u, n) && run <= run'
    ensures AllWaited(run', from, waits, u, n)
  {
    forall i | 0 <= i < |waits| ensures WaitedAt(run', waits[i], u, n) {
      assert WaitedAt(run, waits[i], u, n);
    }
  }

  /** The node is virtual, its namespace label admits the pod, and it has not failed the pod before. */
  ghost predicate InScope(cfg: Config, s: State, u: string, n: string)
    requires u in s.cycles
  {
    && n in cfg.nodes && cfg.nodes[n].isVirtual && n !in FailedNodes(s, u)
    && cfg.nodes[n].ns in {"", s.cycles[u].key.ns}
  }

  /** Offers the pod to the target behind the node and waits until the candidate is reserved or
      unschedulable.  Without reservations every node in scope passes; with them, one in scope passes if and
      only if a poll sees the reservation, and fails only for a reason. */
  method Filter(w: World, u: string, n: string, template: Chaperon, names: Server -> string, env: Environment,
                polls: nat, faults: set<nat>)
    returns (ok: bool, ghost waits: seq<nat>)
    requires w.Valid() && u in w.cycles && w.cycles[u].stage.Filtering? && n !in w.cycles[u].absent
    requires IsNewCandidate(w.cfg, w.Now(), u, template) && IsGenerator(w.cycles[u].key.ns, names)
    requires IsEnvironment(w.cfg, FilterOn(u, n), env)
    modifies w
    ensures w.Valid() && old(w.run) <= w.run && u in w.cycles
    ensures ok ==> InScope(w.cfg, old(w.Now()), u, n)
    ensures old(w.cycles)[u].noReservation ==> (ok <==> InScope(w.cfg, old(w.Now()), u, n))
    ensures !old(w.cycles)[u].noReservation ==>
      if ok then LastIs(w.run, Proxy(u, FilterPoll(n, SeenReserved)))
      else NoneSince(w.run, |old(w.run)|, Proxy(u, FilterPoll(n, SeenReserved)))
    ensures AllWaited(w.run, |old(w.run)|, waits, u, n) && |waits| <= polls
    ensures InScope(w.cfg, old(w.Now()), u, n) && !old(w.cycles)[u].noReservation && n in w.cfg.targets ==>
      ok || |waits| == polls || Refused(w.run, u, n, 2 * |waits| in faults, 2 * |waits| + 1 in faults)
    ensures Filtered(old(w.cycles)[u], w.cycles[u], n, ok)
  {
    waits := [];
    if n !in w.cfg.nodes || !w.cfg.nodes[n].isVirtual {
      return false, waits;
    }
    if u in w.failed && n in w.failed[u] {
      return false, waits;
    }
    if w.cfg.nodes[n].ns != "" && w.cfg.nodes[n].ns != w.cycles[u].key.ns {
      return false, waits;
    }
    if w.cycles[u].noReservation {
      Skip(w, u, n);
      return true, waits;
    }
    if n !in w.cfg.targets {
      return false, waits;
    }
    ok, waits := Await(w, u, n, template, names, env, polls, faults);
  }

  // ---- Reserve ----

  /** The first call of Reserve: find the candidate of the chosen node. */
  method FindCandidate(w: World, u: string, n: string)
    requires w.Valid() && u in w.cycles && w.cycles[u].stage.Filtering? && w.cycles[u].absent == {}
    requires n in w.cycles[u].passed
    modifies w`cycles, w`run
    ensures w.Valid() && w.run == old(w.run) + [Proxy(u, ElectionModel.Reserve(n))] && u in w.cycles
    ensures w.cycles[u] == old(w.cycles)[u].(node := n, stage := w.cycles[u].stage)
    ensures var cy, stage := old(w.cycles)[u], w.cycles[u].stage;
      if n !in old(w.clusters) then stage == Failed
      else
        var l := ListByParent(old(w.clusters)[n].api, cy.key.ns, u);
        && (|l| > 1 ==> stage == Failed)
        && (l == {} ==> stage == if cy.noReservation then Creating else Failed)
        && (forall k :: l == {k} ==> stage == Allowing(k))
  {
    ghost var s := w.Now();
    var cy := w.cycles[u];
    var stage := Failed;
    if n in w.clusters {
      var l := ListByParent(w.clusters[n].api, cy.key.ns, u);
      if |l| == 1 {
        var k :| k in l;
        OnlyChoice(l, k);
        stage := Allowing(k);
      } else if l == {} && cy.noReservation {
        stage := Creating;
      }
    }
    w.cycles := w.cycles[u := cy.(node := n, stage := stage)];
    w.Record(s, Proxy(u, ElectionModel.Reserve(n)));
  }

  /** A call failed, or a wait timed out. */
  method Fail(w: World, u: string)
    requires w.Valid() && u in w.cycles
    requires var stage := w.cycles[u].stage; stage.Allowing? || stage.Creating? || stage.Waiting? || stage.Ready?
    modifies w`cycles, w`run
    ensures w.Valid() && w.run == old(w.run) + [Proxy(u, CycleFails)] && u in w.cycles
    ensures w.cycles[u] == old(w.cycles)[u].(stage := Failed)
  {
    ghost var s := w.Now();
    w.cycles := w.cycles[u := w.cycles[u].(stage := Failed)];
    w.Record(s, Proxy(u, CycleFails));
  }

  lemma AllowEffect(clusters: map<string, Cluster>, n: string, k: Key, r: Reply)
    requires n in clusters && Valid(clusters[n].api) && k in clusters[n].api.objs
    requires r == PatchAnnotations(clusters[n].api, k, ALLOW)
    ensures r.Stored?
    ensures OnlyAnnotates(clusters, clusters[n := clusters[n].(api := After(clusters[n].api, r))], n, k,
                          clusters[n].api.objs[k].annotations[ANNOTATION_IS_ALLOWED := "true"])
  {
    var a := clusters[n].api.objs[k].annotations;
    PatchOneEffect(clusters[n].api, k, ALLOW);
    assert MergePatch(a, ALLOW) == a[ANNOTATION_IS_ALLOWED := "true"];
  }

  /** Marks the candidate found before as allowed, and changes nothing else; fails exactly if it is gone. */
  method Allow(w: World, u: string) returns (ok: bool)
    requires w.Valid() && u in w.cycles && w.cycles[u].stage.Allowing? && w.cycles[u].node in w.clusters
    modifies w`cycles, w`clusters, w`run
    ensures w.Valid() && w.run == old(w.run) + [Proxy(u, ReserveAllow)] && u in w.cycles
    ensures w.cycles[u] == old(w.cycles)[u].(stage := if ok then Waiting else Failed)
    ensures var n, k := old(w.cycles)[u].node, old(w.cycles)[u].stage.candidate;
      && (ok <==> k in old(w.clusters)[n].api.objs)
      && (ok ==> OnlyAnnotates(old(w.clusters), w.clusters, n, k,
                               old(w.clusters)[n].api.objs[k].annotations[ANNOTATION_IS_ALLOWED := "true"]))
      && (!ok ==> w.clusters == old(w.clusters))
  {
    ghost var s := w.Now();
    var cy := w.cycles[u];
    var api := w.clusters[cy.node].api;
    ServerValid(w, cy.node);
    var r := PatchAnnotations(api, cy.stage.candidate, ALLOW);
    ok := r.Stored?;
    if ok {
      AllowEffect(w.clusters, cy.node, cy.stage.candidate, r);
    } else {
      assert w.clusters[cy.node := w.clusters[cy.node]] == w.clusters;
    }
    w.cycles := w.cycles[u := cy.(stage := if ok then Waiting else Failed)];
    w.clusters := w.clusters[cy.node := w.clusters[cy.node].(api := After(api, r))];
    w.Record(s, Proxy(u, ReserveAllow));
  }

  method CreateChosen(w: World, u: string, template: Chaperon, names: Server -> string)
    requires w.Valid() && u in w.cycles && w.cycles[u].stage.Creating? && w.cycles[u].node in w.clusters
    requires IsNewCandidate(w.cfg, w.Now(), u, template) && IsGenerator(w.cycles[u].key.ns, names)
    modifies w`cycles, w`clusters, w`run
    ensures w.Valid() && u in w.cycles && w.cycles[u] == old(w.cycles)[u].(stage := Waiting)
    ensures var api := old(w.clusters)[old(w.cycles)[u].node].api;
      w.run == old(w.run) + [Proxy(u, ReserveCreate(template.(key := Key(template.key.ns, names(api)))))]
    ensures Gains(old(w.clusters), w.clusters, old(w.cycles)[u].node, template)
  {
    ghost var s := w.Now();
    var cy := w.cycles[u];
    var api := w.clusters[cy.node].api;
    ServerValid(w, cy.node);
    WriteGains(w.clusters, cy.node, template, Key(cy.key.ns, names(api)));
    var o := template.(key := Key(cy.key.ns, names(api)));
    assert IsNewCandidate(w.cfg, s, u, o);
    w.cycles := w.cycles[u := cy.(stage := Waiting)];
    w.clusters := w.clusters[cy.node := w.clusters[cy.node].(api := Write(api, o))];
    w.Record(s, Proxy(u, ReserveCreate(o)));
  }

  /** The target holds a candidate of the pod that is allowed. */
  ghost predicate HoldsAllowed(clusters: map<string, Cluster>, n: string, u: string) {
    && n in clusters
    && exists k :: k in clusters[n].api.objs && Parent(clusters[n].api.objs[k]) == u
                   && Lookup(clusters[n].api.objs[k].annotations, ANNOTATION_IS_ALLOWED) == "true"
  }

  /** The candidate that a cycle is about to allow is the pod's, if it is still there. */
  lemma CandidateIsOurs(w: World, u: string)
    requires w.Valid() && u in w.cycles && w.cycles[u].stage.Allowing? && w.cycles[u].node in w.clusters
    ensures var objs, k := w.clusters[w.cycles[u].node].api.objs, w.cycles[u].stage.candidate;
      k in objs ==> Parent(objs[k]) == u
  {
    ElectionGate.ReachablePast(w.cfg, w.run, w.Now());
    ServerValid(w, w.cycles[u].node);
    var api, k := w.clusters[w.cycles[u].node].api, w.cycles[u].stage.candidate;
    assert ElectionHistory.AllowingOk(w.Now(), u);
    if k in api.objs {
      var o :| o in api.served && o.key == k && Parent(o) == u;
      assert api.objs[k] in api.served;
    }
  }

  /** The target is unknown or already holds several candidates, or none although reservations are on. */
  ghost predicate NothingToReserve(s: State, u: string, n: string)
    requires u in s.cycles
  {
    || n !in s.clusters
    || |ListByParent(s.clusters[n].api, s.cycles[u].key.ns, u)| > 1
    || (ListByParent(s.clusters[n].api, s.cycles[u].key.ns, u) == {} && !s.cycles[u].noReservation)
  }

  /** The candidate that was the only one is no longer there. */
  ghost predicate LostCandidate(s: State, u: string, n: string, clusters: map<string, Cluster>)
    requires u in s.cycles
  {
    && n in s.clusters && n in clusters
    && exists k :: ListByParent(s.clusters[n].api, s.cycles[u].key.ns, u) == {k} && k !in clusters[n].api.objs
  }

  /** Allows the candidate of the chosen node or, without reservations, creates it only now.  It succeeds with
      the candidate allowed, or newly created, and fails only for a reason. */
  method Reserve(w: World, u: string, n: string, template: Chaperon, names: Server -> string, env: Environment,
                 readFault: bool, fault: bool)
    returns (ok: bool)
    requires w.Valid() && u in w.cycles && w.cycles[u].stage.Filtering? && w.cycles[u].absent == {}
    requires n in w.cycles[u].passed
    requires IsNewCandidate(w.cfg, w.Now(), u, template) && IsGenerator(w.cycles[u].key.ns, names)
    requires IsEnvironment(w.cfg, ProxyFor(u), env)
    modifies w
    ensures w.Valid() && old(w.run) + [Proxy(u, ElectionModel.Reserve(n))] <= w.run && u in w.cycles
    ensures w.cycles[u] == old(w.cycles)[u].(node := n, stage := if ok then Waiting else Failed)
    ensures ok ==>
      || (LastIs(w.run, Proxy(u, ReserveAllow)) && HoldsAllowed(w.clusters, n, u))
      || (old(w.cycles)[u].noReservation && exists o :: LastIs(w.run, Proxy(u, ReserveCreate(o))))
    ensures !ok ==>
      || readFault || fault || NothingToReserve(old(w.Now()), u, n) || LostCandidate(old(w.Now()), u, n, w.clusters)
    ensures readFault || fault || NothingToReserve(old(w.Now()), u, n) ==> !ok
  {
    FindCandidate(w, u, n);
    if w.cycles[u].stage.Failed? {
      NoOnlyOne(old(w.Now()), u, n);
      return false;
    }
    if readFault {
      Fail(w, u);
      return false;
    }
    OnlyOne(old(w.Now()), u, n, w.cycles[u].stage);
    ClustersAreTargets(w.cfg, w.run, w.Now());
    ok := Settle(w, u, template, names, env, fault);
  }

  /** The second call of Reserve, after others have moved. */
  method Settle(w: World, u: string, template: Chaperon, names: Server -> string, env: Environment, fault: bool)
    returns (ok: bool)
    requires w.Valid() && u in w.cycles && (w.cycles[u].stage.Allowing? || w.cycles[u].stage.Creating?)
    requires w.cycles[u].node in w.cfg.targets
    requires IsNewCandidate(w.cfg, w.Now(), u, template) && IsGenerator(w.cycles[u].key.ns, names)
    requires IsEnvironment(w.cfg, ProxyFor(u), env)
    modifies w
    ensures w.Valid() && old(w.run) <= w.run && u in w.cycles
    ensures w.cycles[u] == old(w.cycles)[u].(stage := if ok then Waiting else Failed)
    ensures fault ==> !ok
    ensures ok && old(w.cycles)[u].stage.Allowing? ==>
      LastIs(w.run, Proxy(u, ReserveAllow)) && HoldsAllowed(w.clusters, old(w.cycles)[u].node, u)
    ensures ok && old(w.cycles)[u].stage.Creating? ==> exists o :: LastIs(w.run, Proxy(u, ReserveCreate(o)))
    ensures !ok && !fault ==>
      && old(w.cycles)[u].stage.Allowing? && old(w.cycles)[u].node in w.clusters
      && old(w.cycles)[u].stage.candidate !in w.clusters[old(w.cycles)[u].node].api.objs
  {
    w.Interfere(ProxyFor(u), 0, env);
    ClustersAreTargets(w.cfg, w.run, w.Now());
    if fault {
      Fail(w, u);
      return false;
    }
    if w.cycles[u].stage.Allowing? {
      CandidateIsOurs(w, u);
      ghost var k := w.cycles[u].stage.candidate;
      ok := Allow(w, u);
      assert ok ==> Lookup(w.clusters[w.cycles[u].node].api.objs[k].annotations, ANNOTATION_IS_ALLOWED) == "true";
    } else {
      CreateChosen(w, u, template, names);
      assert exists o :: LastIs(w.run, Proxy(u, ReserveCreate(o)));
      ok := true;
    }
  }

  ghost predicate FoundAs(s: State, u: string, n: string, stage: Stage)
    requires u in s.cycles
  {
    if n !in s.clusters then stage == Failed
    else
      var l := ListByParent(s.clusters[n].api, s.cycles[u].key.ns, u);
      && (|l| > 1 ==> stage == Failed)
      && (l == {} ==> stage == if s.cycles[u].noReservation then Creating else Failed)
      && (forall k :: l == {k} ==> stage == Allowing(k))
  }

  lemma SetSizes(l: set<Key>)
    ensures l == {} || |l| > 1 || exists k :: l == {k}
  {
    if l != {} && |l| <= 1 {
      var k :| k in l;
      assert |l - {k}| == 0;
      assert l == {k};
    }
  }

  lemma NoOnlyOne(s: State, u: string, n: string)
    requires u in s.cycles && FoundAs(s, u, n, Failed)
    ensures NothingToReserve(s, u, n)
  {
    if n in s.clusters {
      SetSizes(ListByParent(s.clusters[n].api, s.cycles[u].key.ns, u));
    }
  }

  lemma OnlyOne(s: State, u: string, n: string, stage: Stage)
    requires u in s.cycles && FoundAs(s, u, n, stage) && stage != Failed
    ensures !NothingToReserve(s, u, n)
    ensures if stage.Allowing? then ListByParent(s.clusters[n].api, s.cycles[u].key.ns, u) == {stage.candidate}
            else stage == Creating && s.cycles[u].noReservation
  {
    SetSizes(ListByParent(s.clusters[n].api, s.cycles[u].key.ns, u));
  }

  // ---- PreBind ----

  /** The first PodScheduled condition has this status. */
  ghost predicate FirstReported(conditions: seq<Condition>, status: string) {
    exists i :: 0 <= i < |conditions| && conditions[i].kind == "PodScheduled" && conditions[i].status == status
                && forall j :: 0 <= j < i ==> conditions[j].kind != "PodScheduled"
  }

  /** The first PodScheduled condition, as the loop over the conditions finds it. */
  method FirstScheduled(conditions: seq<Condition>) returns (status: Option<string>)
    ensures status == ScheduledStatus(conditions)
    ensures forall t :: status == Some(t) <==> FirstReported(conditions, t)
  {
    for i := 0 to |conditions|
      invariant ScheduledStatus(conditions) == ScheduledStatus(conditions[i..])
      invariant forall j :: 0 <= j < i ==> conditions[j].kind != "PodScheduled"
    {
      if conditions[i].kind == "PodScheduled" {
        return Some(conditions[i].status);
      }
    }
    return None;
  }

  /** What one look at the candidates decides: bound, failed, or nothing yet. */
  ghost predicate Decides(api: Server, ns: string, u: string, decided: Option<bool>) {
    var l := ListByParent(api, ns, u);
    && (decided == Some(true) <==> exists k :: l == {k} && FirstReported(api.objs[k].status.conditions, "True"))
    && (decided == Some(false) <==>
          l == {} || exists k, t :: l == {k} && t != "True" && FirstReported(api.objs[k].status.conditions, t))
  }

  lemma OneReported(conditions: seq<Condition>, status: Option<string>, api: Server, ns: string, u: string, k: Key)
    requires ListByParent(api, ns, u) == {k} && conditions == api.objs[k].status.conditions
    requires forall t :: status == Some(t) <==> FirstReported(conditions, t)
    ensures Decides(api, ns, u, if status.None? then None else Some(status.value == "True"))
  {
    assert forall k' :: ListByParent(api, ns, u) == {k'} ==> k' == k by {
      assert k in ListByParent(api, ns, u);
    }
    if status.Some? {
      assert FirstReported(conditions, status.value);
    }
  }

  method CandidateIsBound(w: World, u: string) returns (decided: Option<bool>)
    requires w.Valid() && u in w.cycles && w.cycles[u].stage.Waiting? && w.cycles[u].node in w.clusters
    modifies w`cycles, w`run
    ensures w.Valid() && u in w.cycles
    ensures var cy := old(w.cycles)[u]; Decides(old(w.clusters)[cy.node].api, cy.key.ns, u, decided)
    ensures w.cycles == if decided == Some(true) then old(w.cycles)[u := old(w.cycles)[u].(stage := Ready)]
                        else old(w.cycles)
    ensures w.run == old(w.run) + if decided == Some(true) then [Proxy(u, ElectionModel.PreBind)] else []
  {
    ghost var s := w.Now();
    var cy := w.cycles[u];
    var l := ListByParent(w.clusters[cy.node].api, cy.key.ns, u);
    if |l| > 1 {
      return None;
    }
    if l == {} {
      return Some(false);
    }
    var k :| k in l;
    assert |l| == 1 by {
      assert |l - {k}| == |l| - 1;
    }
    OnlyChoice(l, k);
    assert l == {k} by {
      SetSizes(l);
    }
    var status := FirstScheduled(w.clusters[cy.node].api.objs[k].status.conditions);
    OneReported(w.clusters[cy.node].api.objs[k].status.conditions, status, w.clusters[cy.node].api, cy.key.ns, u, k);
    if status.None? {
      return None;
    }
    if status.value != "True" {
      return Some(false);
    }
    assert Candidates(s, cy.node, u) == l;
    w.cycles := w.cycles[u := cy.(stage := Ready)];
    w.Record(s, Proxy(u, ElectionModel.PreBind));
    return Some(true);
  }

  ghost predicate Verdict(s: State, u: string, n: string, decided: Option<bool>) {
    u in s.cycles && n in s.clusters && Decides(s.clusters[n].api, s.cycles[u].key.ns, u, decided)
  }

  ghost predicate Undecided(states: seq<State>, faults: set<nat>, u: string, n: string) {
    forall i :: 0 <= i < |states| ==> i in faults || Verdict(states[i], u, n, None)
  }

  /** The others move, and then one poll looks, unless it fails. */
  method LookOnce(w: World, u: string, env: Environment, i: nat, fault: bool)
    returns (decided: Option<bool>, ghost s: State)
    requires w.Valid() && u in w.cycles && w.cycles[u].stage.Waiting? && w.cycles[u].node in w.cfg.targets
    requires IsEnvironment(w.cfg, ProxyFor(u), env)
    modifies w
    ensures w.Valid() && old(w.run) <= w.run && u in w.cycles && s == env(i, old(w.Now()))
    ensures w.cycles[u] == if decided == Some(true) then old(w.cycles)[u].(stage := Ready) else old(w.cycles)[u]
    ensures if fault then decided == None else Verdict(s, u, old(w.cycles)[u].node, decided)
    ensures decided != Some(true) ==> w.Now() == s && NoneSince(w.run, |old(w.run)|, Proxy(u, ElectionModel.PreBind))
    ensures decided == Some(true) ==> LastIs(w.run, Proxy(u, ElectionModel.PreBind))
  {
    w.Interfere(ProxyFor(u), i, env);
    ClustersAreTargets(w.cfg, w.run, w.Now());
    s := w.Now();
    if fault {
      return None, s;
    }
    decided := CandidateIsBound(w, u);
  }

  /** Waits, for a bounded number of polls, until the candidate is bound; polls in `faults` fail and are
      repeated.  `states` are the states found by the polls: all but the last were undecided, and the last one
      decides, unless the polls ran out. */
  method PreBind(w: World, u: string, env: Environment, polls: nat, faults: set<nat>)
    returns (ok: bool, ghost states: seq<State>)
    requires w.Valid() && u in w.cycles && w.cycles[u].stage.Waiting? && w.cycles[u].node in w.cfg.targets
    requires IsEnvironment(w.cfg, ProxyFor(u), env)
    modifies w
    ensures w.Valid() && old(w.run) <= w.run && u in w.cycles
    ensures w.cycles[u] == old(w.cycles)[u].(stage := if ok then Ready else Failed)
    ensures if ok then LastIs(w.run, Proxy(u, ElectionModel.PreBind))
            else NoneSince(w.run, |old(w.run)|, Proxy(u, ElectionModel.PreBind))
    ensures Trace(env, old(w.Now()), states) && |states| <= polls
    ensures
      || (!ok && |states| == polls && Undecided(states, faults, u, old(w.cycles)[u].node))
      || (&& |states| > 0 && |states| - 1 !in faults
          && Verdict(states[|states| - 1], u, old(w.cycles)[u].node, Some(ok))
          && Undecided(states[..|states| - 1], faults, u, old(w.cycles)[u].node))
  {
    states := [];
    ghost var n := w.cycles[u].node;
    for i := 0 to polls
      invariant w.Valid() && old(w.run) <= w.run && u in w.cycles && w.cycles[u] == old(w.cycles)[u]
      invariant |states| == i && Trace(env, old(w.Now()), states) && Undecided(states, faults, u, n)
      invariant w.Now() == LastOf(old(w.Now()), states)
      invariant NoneSince(w.run, |old(w.run)|, Proxy(u, ElectionModel.PreBind))
    {
      var decided, s := LookOnce(w, u, env, i, i in faults);
      TraceMore(env, old(w.Now()), states, s);
      assert (states + [s])[..i] == states;
      states := states + [s];
      if decided.Some? {
        if !decided.value {
          Fail(w, u);
        }
        return decided.value, states;
      }
    }
    Fail(w, u);
    return false, states;
  }

  // ---- PostBind ----

  /** Deletes the pod's candidates in one target and nothing else, unless the call fails. */
  method DeleteIn(w: World, u: string, c: string, ok: bool)
    requires w.Valid() && u in w.cycles && w.cycles[u].stage.Bound? && c in w.clusters && c !in w.cycles[u].visited
    requires PostBindScope(w.cfg, c, w.cycles[u].key.ns, w.cycles[u].node)
    modifies w`cycles, w`clusters, w`run
    ensures w.Valid() && w.run == old(w.run) + [Proxy(u, PostBindDelete(c, ok))] && u in w.cycles
    ensures w.cycles[u] == old(w.cycles)[u].(visited := old(w.cycles)[u].visited + {c},
                                         cleaned := old(w.cycles)[u].cleaned + if ok then {c} else {})
    ensures forall c' :: c' in old(w.clusters) && (c' != c || !ok) ==>
      c' in w.clusters && w.clusters[c'] == old(w.clusters)[c']
    ensures ok ==> c in w.clusters && forall k ::
      (k in w.clusters[c].api.objs <==>
         k in old(w.clusters)[c].api.objs
         && !(&& k.ns == old(w.cycles)[u].key.ns && LABEL_PARENT_UID in old(w.clusters)[c].api.objs[k].labels
              && old(w.clusters)[c].api.objs[k].labels[LABEL_PARENT_UID] == u))
  {
    ghost var s := w.Now();
    var cy := w.cycles[u];
    if ok {
      var api := w.clusters[c].api;
      w.clusters := w.clusters[c := w.clusters[c].(api := Delete(api, ListByParent(api, cy.key.ns, u)))];
      w.cycles := w.cycles[u := cy.(visited := cy.visited + {c}, cleaned := cy.cleaned + {c})];
    } else {
      assert cy.cleaned + {} == cy.cleaned;
      w.cycles := w.cycles[u := cy.(visited := cy.visited + {c})];
    }
    w.Record(s, Proxy(u, PostBindDelete(c, ok)));
  }

  method Finish(w: World, u: string)
    requires w.Valid() && u in w.cycles && w.cycles[u].stage.Bound?
    requires forall c :: c in w.cfg.targets && PostBindScope(w.cfg, c, w.cycles[u].key.ns, w.cycles[u].node) ==>
      c in w.cycles[u].visited
    modifies w`cycles, w`failed, w`run
    ensures w.Valid() && w.run == old(w.run) + [Proxy(u, PostBindDone)] && u !in w.cycles && u !in w.failed
  {
    ghost var s := w.Now();
    w.failed := w.failed - {u};
    w.cycles := w.cycles - {u};
    w.Record(s, Proxy(u, PostBindDone));
  }

  /** A target other than the chosen one whose namespace, if it has one, is the pod's. */
  predicate Visited(cfg: Config, c: string, ns: string, node: string) {
    c in cfg.targets && c != node && cfg.targets[c] in {"", ns}
  }

  lemma CleanedIsClear(w: World, u: string)
    requires w.Valid() && u in w.cycles
    ensures forall c, k :: c in w.clusters && c in w.cycles[u].cleaned && k in w.clusters[c].api.objs ==>
      Parent(w.clusters[c].api.objs[k]) != u
  {
    ElectionInvariant.ReachableInv(w.cfg, w.run, w.Now());
    assert ElectionInvariant.CycleOk(w.cfg, w.Now(), u);
    forall c, k | c in w.clusters && c in w.cycles[u].cleaned && k in w.clusters[c].api.objs
      ensures Parent(w.clusters[c].api.objs[k]) != u
    {
      assert ElectionInvariant.Clear(w.cycles[u], c);
    }
  }

  /** Deletes the candidates that were not chosen, target by target in no particular order, and forgets the
      pod.  Where the deletion does not fail none is left; when none fails and node labels match targets, only
      the chosen cluster still holds a chaperon of it. */
  method PostBind(w: World, u: string, env: Environment, faults: set<string>)
    requires w.Valid() && u in w.cycles && w.cycles[u].stage.Bound? && w.cycles[u].visited == {} == w.cycles[u].cleaned
    requires IsEnvironment(w.cfg, ProxyFor(u), env)
    modifies w
    ensures w.Valid() && old(w.run) <= w.run && u !in w.cycles && u !in w.failed
    ensures forall c ::
      (c in w.clusters && c !in faults && Visited(w.cfg, c, old(w.cycles)[u].key.ns, old(w.cycles)[u].node)) ==>
        forall k :: k in w.clusters[c].api.objs ==> Parent(w.clusters[c].api.objs[k]) != u
    ensures faults == {} && LabelsMatchTargets(w.cfg) ==>
      forall c, k ::
        (c in w.clusters && k in w.clusters[c].api.objs && Parent(w.clusters[c].api.objs[k]) == u) ==>
          c == old(w.cycles)[u].node
  {
    var cy := w.cycles[u];
    var todo := w.cfg.targets.Keys;
    var i := 0;
    while todo != {}
      invariant w.Valid() && old(w.run) <= w.run && u in w.cycles && todo <= w.cfg.targets.Keys
      invariant w.cycles[u] == cy.(visited := w.cycles[u].visited, cleaned := w.cycles[u].cleaned)
      invariant w.cycles[u].visited !! todo
      invariant forall c :: c in w.cfg.targets && c !in todo && PostBindScope(w.cfg, c, cy.key.ns, cy.node) ==>
        c in w.cycles[u].visited
      invariant w.cycles[u].visited - faults <= w.cycles[u].cleaned <= w.cycles[u].visited
      decreases todo
    {
      var c :| c in todo;
      if PostBindScope(w.cfg, c, cy.key.ns, cy.node) {
        w.Interfere(ProxyFor(u), i, env);
        ClustersAreTargets(w.cfg, w.run, w.Now());
        DeleteIn(w, u, c, c !in faults);
      }
      todo := todo - {c};
      i := i + 1;
    }
    CleanedIsClear(w, u);
    if faults == {} && LabelsMatchTargets(w.cfg) {
      assert w.cycles[u].cleaned == w.cycles[u].visited;
      ElectionCleanup(w.cfg, w.run, w.Now(), u);
    }
    Finish(w, u);
  }
}
