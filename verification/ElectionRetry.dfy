/** The proxy scheduler's retry memory: a virtual node that failed a pod is not tried again before the
    memory is reset, so only so many cycles in a row can fail. */
module ElectionRetry {
  import opened ElectionModel
  import opened ElectionInvariant
  import opened ElectionHistory

  /** The calls that forget which nodes failed the pod. */
  predicate IsReset(step: Step, u: string) {
    step.Proxy? && step.u == u && (step.call.PostFilter? || step.call.PostBindDone?)
  }

  /** The nodes reserved for the pod since its memory was last reset, in order. */
  function Tries(run: seq<Step>, u: string): seq<string> {
    if run == [] then []
    else
      var step := run[|run| - 1];
      if IsReset(step, u) then []
      else if step.Proxy? && step.u == u && step.call.Reserve? then Tries(run[..|run| - 1], u) + [step.call.n]
      else Tries(run[..|run| - 1], u)
  }

  /** The number of cycles of the pod that failed since then. */
  function Failures(run: seq<Step>, u: string): nat {
    if run == [] then 0
    else
      var step := run[|run| - 1];
      if IsReset(step, u) then 0
      else Failures(run[..|run| - 1], u) + (if step.Proxy? && step.u == u && step.call.Unreserve? then 1 else 0)
  }

  ghost predicate Distinct(ns: seq<string>) {
    forall i, j :: 0 <= i < j < |ns| ==> ns[i] != ns[j]
  }

  function VirtualNodes(cfg: Config): set<string> {
    set n | n in cfg.nodes && cfg.nodes[n].isVirtual
  }

  /** The node under trial, if the pod's cycle is past Filter. */
  function Trying(s: State, u: string): set<string> {
    if u in s.cycles && !s.cycles[u].stage.Filtering? then {s.cycles[u].node} else {}
  }

  ghost predicate Memory(cfg: Config, tries: seq<string>, failures: nat, s: State, u: string) {
    && Distinct(tries)
    && (forall n :: n in tries <==> n in FailedNodes(s, u) + Trying(s, u))
    && Trying(s, u) !! FailedNodes(s, u)
    && FailedNodes(s, u) + Trying(s, u) <= VirtualNodes(cfg)
    && (u in s.cycles ==> s.cycles[u].passed !! FailedNodes(s, u))
    && failures == |FailedNodes(s, u)|
  }

  lemma OtherMemory(cfg: Config, s: State, u: string, call: ProxyCall, v: string)
    requires ProxyEnabled(cfg, s, u, call) && v != u
    ensures FailedNodes(ApplyProxy(cfg, s, u, call), v) == FailedNodes(s, v)
  {
  }

  lemma MemoryKept(cfg: Config, s: State, u: string, call: ProxyCall)
    requires ProxyEnabled(cfg, s, u, call) && !IsReset(Proxy(u, call), u) && !call.Unreserve?
    ensures FailedNodes(ApplyProxy(cfg, s, u, call), u) == FailedNodes(s, u)
  {
  }

  lemma OtherStep(cfg: Config, s: State, step: Step, s': State, u: string)
    requires Enabled(cfg, s, step) && !(step.Proxy? && step.u == u) && s' == Apply(cfg, s, step)
    ensures FailedNodes(s', u) == FailedNodes(s, u)
    ensures (u in s'.cycles <==> u in s.cycles) && (u in s.cycles ==> s'.cycles[u] == s.cycles[u])
  {
    if step.Proxy? {
      OtherMemory(cfg, s, step.u, step.call, u);
      OtherCycles(cfg, s, step.u, step.call, s');
    }
  }

  lemma TrialKept(cfg: Config, s: State, u: string, call: ProxyCall)
    requires ProxyEnabled(cfg, s, u, call)
    requires !IsReset(Proxy(u, call), u) && !call.Reserve? && !call.Unreserve?
    ensures Trying(ApplyProxy(cfg, s, u, call), u) == Trying(s, u)
  {
  }

  lemma PassedNotFailed(cfg: Config, s: State, u: string, call: ProxyCall, s': State)
    requires ProxyEnabled(cfg, s, u, call) && s' == ApplyProxy(cfg, s, u, call) && u in s'.cycles
    requires u in s.cycles ==> s.cycles[u].passed !! FailedNodes(s, u)
    ensures s'.cycles[u].passed !! FailedNodes(s, u)
  {
    OwnPassed(cfg, s, u, call, s');
  }

  lemma OwnStep(cfg: Config, s: State, u: string, call: ProxyCall, s': State, tries: seq<string>, failures: nat)
    requires ProxyEnabled(cfg, s, u, call) && s' == ApplyProxy(cfg, s, u, call) && Memory(cfg, tries, failures, s, u)
    requires !IsReset(Proxy(u, call), u) && !call.Reserve? && !call.Unreserve?
    ensures Memory(cfg, tries, failures, s', u)
  {
    MemoryKept(cfg, s, u, call);
    TrialKept(cfg, s, u, call);
    if u in s'.cycles {
      PassedNotFailed(cfg, s, u, call, s');
    }
  }

  lemma ReserveStep(cfg: Config, s: State, u: string, n: string, tries: seq<string>, failures: nat)
    requires ProxyEnabled(cfg, s, u, Reserve(n)) && Memory(cfg, tries, failures, s, u)
    requires ShapeOk(cfg, s.pods, s.issued, u, s.cycles[u])
    ensures Memory(cfg, tries + [n], failures, ApplyProxy(cfg, s, u, Reserve(n)), u)
  {
    var s' := ApplyProxy(cfg, s, u, Reserve(n));
    assert n !in tries;
    assert Trying(s', u) == {n};
    assert FailedNodes(s', u) == FailedNodes(s, u);
  }

  lemma UnreserveStep(cfg: Config, s: State, u: string, tries: seq<string>, failures: nat)
    requires ProxyEnabled(cfg, s, u, Unreserve) && Memory(cfg, tries, failures, s, u)
    ensures Memory(cfg, tries, failures + 1, ApplyProxy(cfg, s, u, Unreserve), u)
  {
    var s' := ApplyProxy(cfg, s, u, Unreserve);
    assert FailedNodes(s', u) == FailedNodes(s, u) + Trying(s, u);
    assert |FailedNodes(s', u)| == |FailedNodes(s, u)| + 1;
  }

  lemma ResetStep(cfg: Config, s: State, u: string, call: ProxyCall)
    requires ProxyEnabled(cfg, s, u, call) && IsReset(Proxy(u, call), u)
    ensures Memory(cfg, [], 0, ApplyProxy(cfg, s, u, call), u)
  {
  }

  lemma ReachableShape(cfg: Config, run: seq<Step>, s: State, u: string)
    requires Reaches(cfg, run, s) && u in s.cycles
    ensures ShapeOk(cfg, s.pods, s.issued, u, s.cycles[u])
  {
    ReachableInv(cfg, run, s);
    assert CycleOk(cfg, s, u);
  }

  lemma {:induction false} ReachableMemory(cfg: Config, run: seq<Step>, s: State, u: string)
    requires Reaches(cfg, run, s)
    ensures Memory(cfg, Tries(run, u), Failures(run, u), s, u)
    decreases |run|
  {
    if run != [] {
      var pre, step := run[..|run| - 1], run[|run| - 1];
      var before := Exec(cfg, pre).value;
      ReachableMemory(cfg, pre, before, u);
      if u in before.cycles {
        ReachableShape(cfg, pre, before, u);
      }
      assert run == pre + [step];
      StepMemory(cfg, pre, before, step, s, u);
    }
  }

  lemma StepMemory(cfg: Config, pre: seq<Step>, s: State, step: Step, s': State, u: string)
    requires Enabled(cfg, s, step) && s' == Apply(cfg, s, step)
    requires Memory(cfg, Tries(pre, u), Failures(pre, u), s, u)
    requires u in s.cycles ==> ShapeOk(cfg, s.pods, s.issued, u, s.cycles[u])
    ensures Memory(cfg, Tries(pre + [step], u), Failures(pre + [step], u), s', u)
  {
    assert (pre + [step])[..|pre|] == pre;
    if !(step.Proxy? && step.u == u) {
      OtherStep(cfg, s, step, s', u);
    } else if IsReset(step, u) {
      ResetStep(cfg, s, u, step.call);
    } else if step.call.Reserve? {
      ReserveStep(cfg, s, u, step.call.n, Tries(pre, u), Failures(pre, u));
    } else if step.call.Unreserve? {
      UnreserveStep(cfg, s, u, Tries(pre, u), Failures(pre, u));
    } else {
      OwnStep(cfg, s, u, step.call, s', Tries(pre, u), Failures(pre, u));
    }
  }

  // ---- The theorems ----

  /** With N virtual nodes at most N cycles of a pod in a row fail, and no more nodes than that are
      reserved, before its memory is reset. */
  lemma RetryBound(cfg: Config, run: seq<Step>, s: State, u: string)
    requires Reaches(cfg, run, s)
    ensures Failures(run, u) <= |VirtualNodes(cfg)| && |Tries(run, u)| <= |VirtualNodes(cfg)|
    ensures Distinct(Tries(run, u))
  {
    ReachableMemory(cfg, run, s, u);
    SubsetCardinality(FailedNodes(s, u), VirtualNodes(cfg));
    DistinctCardinality(Tries(run, u), VirtualNodes(cfg));
  }

  /** Every failed cycle uses up one unit of a budget that only a reset refills. */
  lemma RetryMeasure(cfg: Config, run: seq<Step>, s: State, u: string, step: Step)
    requires Reaches(cfg, run, s) && Enabled(cfg, s, step) && !IsReset(step, u)
    ensures var budget, budget' := |VirtualNodes(cfg) - FailedNodes(s, u)|,
        |VirtualNodes(cfg) - FailedNodes(Apply(cfg, s, step), u)|;
      budget' == budget - (if step == Proxy(u, Unreserve) then 1 else 0)
  {
    if step == Proxy(u, Unreserve) {
      ReachableMemory(cfg, run, s, u);
      UnreserveSpends(cfg, s, u, Tries(run, u), Failures(run, u));
    } else if !(step.Proxy? && step.u == u) {
      OtherStep(cfg, s, step, Apply(cfg, s, step), u);
    } else {
      MemoryKept(cfg, s, u, step.call);
    }
  }

  lemma UnreserveSpends(cfg: Config, s: State, u: string, tries: seq<string>, failures: nat)
    requires ProxyEnabled(cfg, s, u, Unreserve) && Memory(cfg, tries, failures, s, u)
    ensures |VirtualNodes(cfg) - FailedNodes(ApplyProxy(cfg, s, u, Unreserve), u)| ==
        |VirtualNodes(cfg) - FailedNodes(s, u)| - 1
  {
    var node := s.cycles[u].node;
    assert node in Trying(s, u);
    SpendOne(VirtualNodes(cfg), FailedNodes(s, u), node);
  }

  lemma SpendOne(all: set<string>, spent: set<string>, x: string)
    requires x in all && x !in spent
    ensures |all - (spent + {x})| == |all - spent| - 1
  {
    assert all - (spent + {x}) == (all - spent) - {x};
  }

  lemma {:induction false} ReservedIsTried(run: seq<Step>, i: int, u: string, n: string)
    requires 0 <= i < |run| && run[i] == Proxy(u, Reserve(n))
    requires forall m :: i < m < |run| ==> !IsReset(run[m], u)
    ensures n in Tries(run, u)
    decreases |run|
  {
    var pre := run[..|run| - 1];
    if i < |pre| {
      assert pre[i] == run[i];
      ReservedIsTried(pre, i, u, n);
    }
  }

  /** A node that passed Filter has not been tried since the last reset. */
  lemma ReserveIsNew(cfg: Config, pre: seq<Step>, before: State, u: string, n: string)
    requires Reaches(cfg, pre, before) && Enabled(cfg, before, Proxy(u, Reserve(n)))
    ensures n !in Tries(pre, u)
  {
    ReachableMemory(cfg, pre, before, u);
  }

  /** Between two Reserve calls on the same node for the same pod the memory is always reset. */
  lemma NoRetryWithoutReset(cfg: Config, run: seq<Step>, s: State, u: string, n: string, i: int, j: int)
    requires Reaches(cfg, run, s)
    requires 0 <= i < j < |run| && run[i] == run[j] == Proxy(u, Reserve(n))
    ensures exists m :: i < m < j && IsReset(run[m], u)
  {
    EnabledAt(cfg, run, j);
    ReserveIsNew(cfg, run[..j], Exec(cfg, run[..j]).value, u, n);
    if forall m :: i < m < j ==> !IsReset(run[m], u) {
      ReservedIsTried(run[..j], i, u, n);
    }
  }

  lemma {:induction false} EnabledAt(cfg: Config, run: seq<Step>, j: int)
    requires Exec(cfg, run).Some? && 0 <= j < |run|
    ensures Exec(cfg, run[..j]).Some? && Enabled(cfg, Exec(cfg, run[..j]).value, run[j])
    decreases |run|
  {
    if j < |run| - 1 {
      var pre := run[..|run| - 1];
      assert pre[..j] == run[..j] && pre[j] == run[j];
      EnabledAt(cfg, pre, j);
    }
  }

  // ---- Cardinalities ----

  lemma {:induction false} SubsetCardinality(a: set<string>, b: set<string>)
    requires a <= b
    ensures |a| <= |b|
  {
    if a != {} {
      var x :| x in a;
      SubsetCardinality(a - {x}, b - {x});
    }
  }

  lemma {:induction false} DistinctCardinality(ns: seq<string>, b: set<string>)
    requires Distinct(ns) && forall n :: n in ns ==> n in b
    ensures |ns| <= |b|
  {
    if ns != [] {
      var x := ns[0];
      assert forall n :: n in ns[1..] ==> n in b - {x};
      DistinctCardinality(ns[1..], b - {x});
    }
  }
}
