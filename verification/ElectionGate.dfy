/** The candidate scheduler's gate is safe: over any run, a candidate passes it only after the proxy
    scheduler chose its cluster for its proxy pod. */
module ElectionGate {
  import opened Kube
  import opened ChaperonServer
  import opened ElectionModel
  import opened ElectionInvariant
  import opened ElectionHistory

  /** No cycle of the pod starts or ends strictly between positions i and j of the run. */
  ghost predicate SameCycle(run: seq<Step>, i: int, j: int, u: string) {
    forall x :: i < x < j && 0 <= x < |run| && run[x].Proxy? && run[x].u == u ==> !Boundary(run[x].call)
  }

  /** Before position j and in the cycle under way there, Filter saw the candidate in cluster c reserved. */
  ghost predicate SawReserved(run: seq<Step>, j: int, u: string, c: string) {
    exists i :: 0 <= i < j <= |run| && run[i] == Proxy(u, FilterPoll(c, SeenReserved)) && SameCycle(run, i, j, u)
  }

  /** The cycle under way at position j was started for a pod that opted out of reservations. */
  ghost predicate OptedOut(run: seq<Step>, j: int, u: string) {
    exists i :: 0 <= i < j <= |run| && run[i] == Proxy(u, StartCycle(true)) && SameCycle(run, i, j, u)
  }

  ghost predicate Eligible(run: seq<Step>, j: int, u: string, c: string) {
    SawReserved(run, j, u, c) || OptedOut(run, j, u)
  }

  /** Reserve chose cluster c for the pod in the past, in a cycle that had made it eligible. */
  ghost predicate Chose(run: seq<Step>, u: string, c: string) {
    exists j :: 0 <= j < |run| && run[j] == Proxy(u, Reserve(c)) && Eligible(run, j, u, c)
  }

  ghost predicate CyclePast(run: seq<Step>, s: State, u: string)
    requires u in s.cycles
  {
    var cy := s.cycles[u];
    && (cy.noReservation ==> OptedOut(run, |run|, u))
    && (forall n :: n in cy.passed ==> Eligible(run, |run|, u, n))
    && (cy.stage.Allowing? ==> Chose(run, u, cy.node))
  }

  ghost predicate MarkPast(run: seq<Step>, s: State, c: string, k: Key)
    requires c in s.clusters && k in s.clusters[c].api.objs
  {
    var o := s.clusters[c].api.objs[k];
    Parent(o) in s.issued && ANNOTATION_IS_ALLOWED in o.annotations ==> Chose(run, Parent(o), c)
  }

  ghost predicate Past(run: seq<Step>, s: State) {
    && (forall u :: u in s.cycles ==> CyclePast(run, s, u))
    && (forall c, k :: c in s.clusters && k in s.clusters[c].api.objs ==> MarkPast(run, s, c, k))
  }

  // ---- The past does not change ----

  lemma SawReservedLater(run: seq<Step>, step: Step, j: int, u: string, c: string)
    requires SawReserved(run, j, u, c)
    ensures SawReserved(run + [step], j, u, c)
  {
    var i :| 0 <= i < j <= |run| && run[i] == Proxy(u, FilterPoll(c, SeenReserved)) && SameCycle(run, i, j, u);
    assert (run + [step])[i] == run[i] && SameCycle(run + [step], i, j, u);
  }

  lemma OptedOutLater(run: seq<Step>, step: Step, j: int, u: string)
    requires OptedOut(run, j, u)
    ensures OptedOut(run + [step], j, u)
  {
    var i :| 0 <= i < j <= |run| && run[i] == Proxy(u, StartCycle(true)) && SameCycle(run, i, j, u);
    assert (run + [step])[i] == run[i] && SameCycle(run + [step], i, j, u);
  }

  lemma EligibleLater(run: seq<Step>, step: Step, j: int, u: string, c: string)
    requires Eligible(run, j, u, c)
    ensures Eligible(run + [step], j, u, c)
  {
    if SawReserved(run, j, u, c) {
      SawReservedLater(run, step, j, u, c);
    } else {
      OptedOutLater(run, step, j, u);
    }
  }

  lemma ChoseLater(run: seq<Step>, step: Step, u: string, c: string)
    requires Chose(run, u, c)
    ensures Chose(run + [step], u, c)
  {
    var j :| 0 <= j < |run| && run[j] == Proxy(u, Reserve(c)) && Eligible(run, j, u, c);
    EligibleLater(run, step, j, u, c);
    assert (run + [step])[j] == run[j];
  }

  // ---- Within a cycle, eligibility carries over to the next position ----

  lemma OptedOutCarries(run: seq<Step>, step: Step, u: string)
    requires OptedOut(run, |run|, u) && !(step.Proxy? && step.u == u && Boundary(step.call))
    ensures OptedOut(run + [step], |run| + 1, u)
  {
    var i :| 0 <= i < |run| && run[i] == Proxy(u, StartCycle(true)) && SameCycle(run, i, |run|, u);
    assert (run + [step])[i] == run[i] && SameCycle(run + [step], i, |run| + 1, u);
  }

  lemma EligibleCarries(run: seq<Step>, step: Step, u: string, c: string)
    requires Eligible(run, |run|, u, c) && !(step.Proxy? && step.u == u && Boundary(step.call))
    ensures Eligible(run + [step], |run| + 1, u, c)
  {
    if OptedOut(run, |run|, u) {
      OptedOutCarries(run, step, u);
    } else {
      var i :| 0 <= i < |run| && run[i] == Proxy(u, FilterPoll(c, SeenReserved)) && SameCycle(run, i, |run|, u);
      assert (run + [step])[i] == run[i] && SameCycle(run + [step], i, |run| + 1, u);
    }
  }

  lemma JustSaw(run: seq<Step>, u: string, n: string)
    ensures Eligible(run + [Proxy(u, FilterPoll(n, SeenReserved))], |run| + 1, u, n)
  {
    var run' := run + [Proxy(u, FilterPoll(n, SeenReserved))];
    assert run'[|run|] == Proxy(u, FilterPoll(n, SeenReserved)) && SameCycle(run', |run|, |run| + 1, u);
  }

  // ---- One step ----

  lemma OtherCyclePast(cfg: Config, run: seq<Step>, s: State, step: Step, s': State, u: string)
    requires u in s.cycles && u in s'.cycles && s'.cycles[u] == s.cycles[u] && CyclePast(run, s, u)
    requires !(step.Proxy? && step.u == u)
    ensures CyclePast(run + [step], s', u)
  {
    var cy := s.cycles[u];
    if cy.noReservation {
      OptedOutCarries(run, step, u);
    }
    forall n | n in cy.passed ensures Eligible(run + [step], |run| + 1, u, n) {
      EligibleCarries(run, step, u, n);
    }
    if cy.stage.Allowing? {
      ChoseLater(run, step, u, cy.node);
    }
  }

  lemma OwnCycleStarts(cfg: Config, run: seq<Step>, s: State, u: string, call: ProxyCall, s': State)
    requires ProxyEnabled(cfg, s, u, call) && s' == ApplyProxy(cfg, s, u, call) && call.StartCycle? && u in s'.cycles
    ensures CyclePast(run + [Proxy(u, call)], s', u)
  {
    var run' := run + [Proxy(u, call)];
    assert run'[|run|] == Proxy(u, call) && SameCycle(run', |run|, |run| + 1, u);
  }

  lemma OwnCycleMoves(cfg: Config, run: seq<Step>, s: State, u: string, call: ProxyCall, cy': Cycle, s': State)
    requires u in s.cycles && CyclePast(run, s, u) && u in s'.cycles && cy' == s'.cycles[u]
    requires PassedMoves(s.cycles[u], cy', call) && AllowingMoves(s, u, cy', call)
    ensures CyclePast(run + [Proxy(u, call)], s', u)
  {
    var cy := s.cycles[u];
    var step := Proxy(u, call);
    if cy.noReservation {
      OptedOutCarries(run, step, u);
    }
    forall n | n in cy'.passed ensures Eligible(run + [step], |run| + 1, u, n) {
      if n in cy.passed {
        EligibleCarries(run, step, u, n);
      } else if call == FilterPoll(n, SeenReserved) {
        JustSaw(run, u, n);
      }
    }
    if cy'.stage.Allowing? {
      if cy.stage == cy'.stage && cy.node == cy'.node {
        ChoseLater(run, step, u, cy.node);
      } else {
        EligibleLater(run, step, |run|, u, cy'.node);
        assert (run + [step])[|run|] == Proxy(u, Reserve(cy'.node));
      }
    }
  }

  lemma StepCyclePast(cfg: Config, run: seq<Step>, s: State, step: Step, s': State, u: string)
    requires Past(run, s) && Enabled(cfg, s, step) && s' == Apply(cfg, s, step) && u in s'.cycles
    ensures CyclePast(run + [step], s', u)
  {
    if step.Proxy? && step.u == u {
      if step.call.StartCycle? {
        OwnCycleStarts(cfg, run, s, u, step.call, s');
      } else {
        OwnPassed(cfg, s, u, step.call, s');
        OwnAllowing(cfg, s, u, step.call, s');
        OwnCycleMoves(cfg, run, s, u, step.call, s'.cycles[u], s');
      }
    } else {
      if step.Proxy? {
        OtherCycles(cfg, s, step.u, step.call, s');
      }
      OtherCyclePast(cfg, run, s, step, s', u);
    }
  }

  lemma StepMarkPast(cfg: Config, run: seq<Step>, s: State, step: Step, s': State, c: string, k: Key)
    requires Inv(cfg, s) && NamingInv(cfg, s) && Past(run, s) && ServersEvolve(cfg, s, s', step)
    requires c in s'.clusters && k in s'.clusters[c].api.objs
    requires Inv(cfg, s')
    requires forall u :: u in s'.issued && u !in s.issued ==> NoChild(s'.clusters[c].api, u)
    ensures MarkPast(run + [step], s', c, k)
  {
    var o := s'.clusters[c].api.objs[k];
    if Parent(o) in s'.issued && ANNOTATION_IS_ALLOWED in o.annotations {
      assert Parent(o) in s.issued;
      StepMarks(cfg, s, step, s', c, k);
      if step == Proxy(Parent(o), ReserveAllow) && step.u in s.cycles && s.cycles[step.u].stage.Allowing?
          && s.cycles[step.u].node == c {
        assert CyclePast(run, s, step.u);
      } else {
        assert MarkPast(run, s, c, k);
      }
      ChoseLater(run, step, Parent(o), c);
    }
  }

  lemma NewUidHasNoChild(cfg: Config, s: State, step: Step, c: string, u: string)
    requires Inv(cfg, s) && Enabled(cfg, s, step) && c in s.clusters
    requires u in Apply(cfg, s, step).issued && u !in s.issued
    ensures NoChild(Apply(cfg, s, step).clusters[c].api, u)
  {
    if step.Proxy? {
      ProxyIssuesNothing(cfg, s, step.u, step.call);
    }
    assert ClusterOk(s.clusters[c]);
  }

  lemma ProxyIssuesNothing(cfg: Config, s: State, u: string, call: ProxyCall)
    requires ProxyEnabled(cfg, s, u, call)
    ensures ApplyProxy(cfg, s, u, call).issued == s.issued
  {
  }

  lemma {:induction false} ReachablePast(cfg: Config, run: seq<Step>, s: State)
    requires Reaches(cfg, run, s)
    ensures Inv(cfg, s) && NamingInv(cfg, s) && Past(run, s)
    decreases |run|
  {
    ReachableInv(cfg, run, s);
    if run != [] {
      var pre, step := run[..|run| - 1], run[|run| - 1];
      var before := Exec(cfg, pre).value;
      ReachablePast(cfg, pre, before);
      assert run == pre + [step];
      StepNaming(cfg, before, step);
      StepPast(cfg, pre, before, step, s);
    }
  }

  lemma StepPast(cfg: Config, run: seq<Step>, s: State, step: Step, s': State)
    requires Inv(cfg, s) && NamingInv(cfg, s) && Past(run, s) && Enabled(cfg, s, step) && s' == Apply(cfg, s, step)
    ensures Past(run + [step], s')
  {
    StepInv(cfg, s, step);
    Evolution(cfg, s, step);
    forall u | u in s'.cycles ensures CyclePast(run + [step], s', u) {
      StepCyclePast(cfg, run, s, step, s', u);
    }
    forall c, k | c in s'.clusters && k in s'.clusters[c].api.objs ensures MarkPast(run + [step], s', c, k) {
      forall u | u in s'.issued && u !in s.issued ensures NoChild(s'.clusters[c].api, u) {
        NewUidHasNoChild(cfg, s, step, c, u);
      }
      StepMarkPast(cfg, run, s, step, s', c, k);
    }
  }

  // ---- The theorem ----

  /** In every run, over any number of clusters and pods and whatever else interleaves: if the candidate
      scheduler of cluster c lets a candidate of one of our pods through, the proxy scheduler's Reserve
      had chosen c for that very pod, and in the same cycle Filter had seen the candidate reserved
      unless the cycle belongs to a pod that opted out of reservations. */
  lemma GateIsSafe(cfg: Config, run: seq<Step>, s: State, c: string, k: Key)
    requires Reaches(cfg, run, s) && Enabled(cfg, s, Target(c, CandidatePreBind(k)))
    requires Parent(s.clusters[c].api.objs[k]) in s.issued
    ensures Chose(run, Parent(s.clusters[c].api.objs[k]), c)
  {
    ReachablePast(cfg, run, s);
    assert MarkPast(run, s, c, k);
  }
}
