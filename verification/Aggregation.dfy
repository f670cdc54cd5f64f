/** Summarizing the nodes of a cluster: total resources, and the labels on which the nodes agree. */
module Aggregation {
  import opened Kube

  datatype Node = Node(capacity: map<string, int>, allocatable: map<string, int>, labels: map<string, string>)

  datatype Summary = Summary(capacity: map<string, int>, allocatable: map<string, int>, labels: map<string, string>)

  /** Virtual nodes stand for other clusters and are left out. */
  predicate IsVirtual(n: Node) {
    PROVIDER_KEY in n.labels && n.labels[PROVIDER_KEY] == PROVIDER
  }

  function Listed(nodes: seq<Node>): seq<Node> {
    if nodes == [] then []
    else
      var n := nodes[|nodes| - 1];
      Listed(nodes[..|nodes| - 1]) + (if IsVirtual(n) then [] else [n])
  }

  // ---- Sums ----

  datatype Kind = Capacity | Allocatable

  function Resources(kind: Kind, n: Node): map<string, int> {
    if kind.Capacity? then n.capacity else n.allocatable
  }

  function Share(kind: Kind, n: Node, res: string): int {
    if res in Resources(kind, n) then Resources(kind, n)[res] else 0
  }

  /** The sum over the nodes that report the resource. */
  function Sum(kind: Kind, nodes: seq<Node>, res: string): int {
    if nodes == [] then 0 else Sum(kind, nodes[..|nodes| - 1], res) + Share(kind, nodes[|nodes| - 1], res)
  }

  ghost predicate Reported(kind: Kind, nodes: seq<Node>, res: string) {
    exists n :: n in nodes && res in Resources(kind, n)
  }

  ghost predicate Totals(kind: Kind, nodes: seq<Node>, totals: map<string, int>) {
    forall res :: (res in totals <==> Reported(kind, nodes, res))
        && (res in totals ==> totals[res] == Sum(kind, nodes, res))
  }

  lemma {:induction false} SumZero(kind: Kind, nodes: seq<Node>, res: string)
    requires !Reported(kind, nodes, res)
    ensures Sum(kind, nodes, res) == 0
  {
    if nodes != [] {
      var before := nodes[..|nodes| - 1];
      assert forall n :: n in before ==> n in nodes;
      assert nodes[|nodes| - 1] in nodes;
      SumZero(kind, before, res);
    }
  }

  /** The loop over one node's resources. */
  method AddAll(totals: map<string, int>, list: map<string, int>) returns (r: map<string, int>)
    ensures r.Keys == totals.Keys + list.Keys
    ensures forall res :: res in r ==>
      r[res] == (if res in totals then totals[res] else 0) + (if res in list then list[res] else 0)
  {
    r := totals;
    var todo := list.Keys;
    while todo != {}
      invariant todo <= list.Keys
      invariant r.Keys == totals.Keys + (list.Keys - todo)
      invariant forall res :: res in r ==>
        r[res] == (if res in totals then totals[res] else 0) + (if res in list && res !in todo then list[res] else 0)
    {
      var res :| res in todo;
      if res in r {
        r := r[res := r[res] + list[res]];
      } else {
        r := r[res := list[res]];
      }
      todo := todo - {res};
    }
  }

  lemma TotalsStep(kind: Kind, nodes: seq<Node>, n: Node, totals: map<string, int>, next: map<string, int>)
    requires Totals(kind, nodes, totals) && next.Keys == totals.Keys + Resources(kind, n).Keys
    requires forall res :: res in next ==> next[res] == (if res in totals then totals[res] else 0) + Share(kind, n, res)
    ensures Totals(kind, nodes + [n], next)
  {
    assert (nodes + [n])[..|nodes|] == nodes;
    forall res ensures (res in next <==> Reported(kind, nodes + [n], res))
        && (res in next ==> next[res] == Sum(kind, nodes + [n], res)) {
      assert Reported(kind, nodes + [n], res) <==> Reported(kind, nodes, res) || res in Resources(kind, n);
      if res !in totals {
        SumZero(kind, nodes, res);
      }
    }
  }

  // ---- Labels ----

  /** Some node has the label, and every node that has it has this value. */
  ghost predicate Agreed(nodes: seq<Node>, k: string, v: string) {
    && (exists n :: n in nodes && k in n.labels)
    && (forall n :: n in nodes && k in n.labels ==> n.labels[k] == v)
  }

  predicate Publishes(l: map<string, string>, k: string, v: string) {
    k in l && l[k] == v
  }

  ghost predicate Disputed(nodes: seq<Node>, k: string) {
    exists n, n' :: n in nodes && n' in nodes && k in n.labels && k in n'.labels && n.labels[k] != n'.labels[k]
  }

  /** The labels so far are those agreed on, and the disputed ones are remembered. */
  ghost predicate Consensus(nodes: seq<Node>, l: map<string, string>, disputed: set<string>) {
    forall k ::
      && (k in l ==> Agreed(nodes, k, l[k]))
      && (k in disputed <==> Disputed(nodes, k))
      && (k !in l && k !in disputed ==> forall n :: n in nodes ==> k !in n.labels)
  }

  /** One more node: labels it has stay if nobody disagreed, and are disputed from then on otherwise. */
  ghost predicate Merged(l: map<string, string>, disputed: set<string>, labels: map<string, string>,
                         l': map<string, string>, disputed': set<string>) {
    && (forall k :: k !in labels ==>
          (k in l' <==> k in l) && (k in l ==> l'[k] == l[k]) && (k in disputed' <==> k in disputed))
    && (forall k :: k in labels ==>
          && (k in l' <==> (if k in l then l[k] == labels[k] else k !in disputed))
          && (k in l' ==> l'[k] == labels[k])
          && (k in disputed' <==> k in disputed || (k in l && l[k] != labels[k])))
  }

  /** The loop over one node's labels, in any order. */
  method MergeLabels(l: map<string, string>, disputed: set<string>, labels: map<string, string>)
    returns (l': map<string, string>, disputed': set<string>)
    ensures Merged(l, disputed, labels, l', disputed')
  {
    l', disputed' := l, disputed;
    var todo := labels.Keys;
    while todo != {}
      invariant todo <= labels.Keys
      invariant forall k :: k !in labels || k in todo ==>
        (k in l' <==> k in l) && (k in l ==> l'[k] == l[k]) && (k in disputed' <==> k in disputed)
      invariant forall k :: k in labels && k !in todo ==>
        && (k in l' <==> (if k in l then l[k] == labels[k] else k !in disputed))
        && (k in l' ==> l'[k] == labels[k])
        && (k in disputed' <==> k in disputed || (k in l && l[k] != labels[k]))
    {
      var k :| k in todo;
      var v := labels[k];
      if k !in l' {
        if k !in disputed' {
          l' := l'[k := v];
        }
      } else if l'[k] != v {
        disputed' := disputed' + {k};
        l' := l' - {k};
      }
      todo := todo - {k};
    }
  }

  lemma ConsensusStep(nodes: seq<Node>, n: Node, l: map<string, string>, disputed: set<string>, l': map<string, string>,
                      disputed': set<string>)
    requires Consensus(nodes, l, disputed) && Merged(l, disputed, n.labels, l', disputed')
    ensures Consensus(nodes + [n], l', disputed')
  {
    forall k
      ensures k in l' ==> Agreed(nodes + [n], k, l'[k])
      ensures k in disputed' <==> Disputed(nodes + [n], k)
      ensures k !in l' && k !in disputed' ==> forall m :: m in nodes + [n] ==> k !in m.labels
    {
      LabelStep(nodes, n, l, disputed, l', disputed', k);
    }
  }

  lemma DisputedMore(nodes: seq<Node>, n: Node, k: string)
    ensures Disputed(nodes + [n], k) <==>
      Disputed(nodes, k) || (k in n.labels && exists m :: m in nodes && k in m.labels && m.labels[k] != n.labels[k])
  {
    assert forall m :: m in nodes + [n] <==> m in nodes || m == n;
  }

  lemma LabelStep(nodes: seq<Node>, n: Node, l: map<string, string>, disputed: set<string>, l': map<string, string>,
                  disputed': set<string>, k: string)
    requires Consensus(nodes, l, disputed) && Merged(l, disputed, n.labels, l', disputed')
    ensures k in l' ==> Agreed(nodes + [n], k, l'[k])
    ensures k in disputed' <==> Disputed(nodes + [n], k)
    ensures k !in l' && k !in disputed' ==> forall m :: m in nodes + [n] ==> k !in m.labels
  {
    DisputedMore(nodes, n, k);
    assert n in nodes + [n];
    if k in l {
      assert Agreed(nodes, k, l[k]);
      var m :| m in nodes && k in m.labels;
      assert m in nodes + [n];
    }
  }

  // ---- The summary ----

  /** What a summary of the given nodes says; it mentions no order. */
  ghost predicate Summarizes(s: Summary, nodes: seq<Node>) {
    && Totals(Capacity, nodes, s.capacity)
    && Totals(Allocatable, nodes, s.allocatable)
    && (forall k, v :: Publishes(s.labels, k, v) <==> Agreed(nodes, k, v))
  }

  method Summarize(nodes: seq<Node>) returns (s: Summary)
    ensures Summarizes(s, nodes)
  {
    var capacity, allocatable, l, disputed := map[], map[], map[], {};
    for i := 0 to |nodes|
      invariant Totals(Capacity, nodes[..i], capacity)
      invariant Totals(Allocatable, nodes[..i], allocatable)
      invariant Consensus(nodes[..i], l, disputed)
    {
      assert nodes[..i + 1] == nodes[..i] + [nodes[i]];
      var capacity' := AddAll(capacity, nodes[i].capacity);
      TotalsStep(Capacity, nodes[..i], nodes[i], capacity, capacity');
      var allocatable' := AddAll(allocatable, nodes[i].allocatable);
      TotalsStep(Allocatable, nodes[..i], nodes[i], allocatable, allocatable');
      var l', disputed' := MergeLabels(l, disputed, nodes[i].labels);
      ConsensusStep(nodes[..i], nodes[i], l, disputed, l', disputed');
      capacity, allocatable, l, disputed := capacity', allocatable', l', disputed';
    }
    assert nodes[..|nodes|] == nodes;
    ConsensusDecides(nodes, l, disputed);
    s := Summary(capacity, allocatable, l);
  }

  lemma ConsensusDecides(nodes: seq<Node>, l: map<string, string>, disputed: set<string>)
    requires Consensus(nodes, l, disputed)
    ensures forall k, v :: Publishes(l, k, v) <==> Agreed(nodes, k, v)
  {
    forall k, v ensures Publishes(l, k, v) <==> Agreed(nodes, k, v) {
      if Agreed(nodes, k, v) {
        var n :| n in nodes && k in n.labels;
        assert !Disputed(nodes, k);
      }
    }
  }

  /** The nodes that do not carry the provider label of virtual nodes, as often as they occur. */
  lemma {:induction false} ListedFate(nodes: seq<Node>, n: Node)
    ensures multiset(Listed(nodes))[n] ==
      if "virtual-kubelet.io/provider" in n.labels && n.labels["virtual-kubelet.io/provider"] == "admiralty" then 0
      else multiset(nodes)[n]
  {
    if nodes != [] {
      var last := |nodes| - 1;
      ListedFate(nodes[..last], n);
      assert nodes == nodes[..last] + [nodes[last]];
    }
  }

  lemma OneTotal(kind: Kind, n: Node, totals: map<string, int>)
    requires Totals(kind, [n], totals)
    ensures totals == Resources(kind, n)
  {
    assert [n][..0] == [] && n in [n];
    forall res
      ensures res in totals <==> res in Resources(kind, n)
      ensures res in totals ==> totals[res] == Share(kind, n, res)
    {
      assert Reported(kind, [n], res) <==> res in Resources(kind, n);
      assert Sum(kind, [n], res) == Share(kind, n, res);
    }
  }

  /** A single node is summarized as it is. */
  lemma OneNode(n: Node, s: Summary)
    requires Summarizes(s, [n])
    ensures s == Summary(n.capacity, n.allocatable, n.labels)
  {
    OneTotal(Capacity, n, s.capacity);
    OneTotal(Allocatable, n, s.allocatable);
    assert n in [n];
    forall k, v ensures Publishes(s.labels, k, v) <==> Publishes(n.labels, k, v) {
      assert Agreed([n], k, v) <==> Publishes(n.labels, k, v);
    }
    SameMap(s.labels, n.labels);
  }

  /** Totals add up over any split of the nodes. */
  lemma TotalsAdd(a: seq<Node>, b: seq<Node>, s: Summary, t: Summary, both: Summary, res: string)
    requires Summarizes(s, a) && Summarizes(t, b) && Summarizes(both, a + b)
    ensures Amount(both.capacity, res) == Amount(s.capacity, res) + Amount(t.capacity, res)
    ensures Amount(both.allocatable, res) == Amount(s.allocatable, res) + Amount(t.allocatable, res)
  {
    forall kind ensures Sum(kind, a + b, res) == Sum(kind, a, res) + Sum(kind, b, res) {
      SumConcat(kind, a, b, res);
    }
    AmountIsSum(Capacity, a, s.capacity, res);
    AmountIsSum(Capacity, b, t.capacity, res);
    AmountIsSum(Capacity, a + b, both.capacity, res);
    AmountIsSum(Allocatable, a, s.allocatable, res);
    AmountIsSum(Allocatable, b, t.allocatable, res);
    AmountIsSum(Allocatable, a + b, both.allocatable, res);
  }

  function Amount(m: map<string, int>, res: string): int {
    if res in m then m[res] else 0
  }

  lemma AmountIsSum(kind: Kind, nodes: seq<Node>, totals: map<string, int>, res: string)
    requires Totals(kind, nodes, totals)
    ensures Amount(totals, res) == Sum(kind, nodes, res)
  {
    if res !in totals {
      SumZero(kind, nodes, res);
    }
  }

  method Handle(nodes: seq<Node>) returns (s: Summary)
    ensures Summarizes(s, Listed(nodes))
  {
    var listed: seq<Node> := [];
    for i := 0 to |nodes|
      invariant listed == Listed(nodes[..i])
    {
      assert nodes[..i + 1][..i] == nodes[..i];
      if PROVIDER_KEY !in nodes[i].labels || nodes[i].labels[PROVIDER_KEY] != PROVIDER {
        listed := listed + [nodes[i]];
      }
    }
    assert nodes[..|nodes|] == nodes;
    s := Summarize(listed);
  }

  // ---- Order independence ----

  lemma {:induction false} SumConcat(kind: Kind, a: seq<Node>, b: seq<Node>, res: string)
    ensures Sum(kind, a + b, res) == Sum(kind, a, res) + Sum(kind, b, res)
    decreases |b|
  {
    if b == [] {
      assert a + b == a;
    } else {
      assert (a + b)[..|a + b| - 1] == a + b[..|b| - 1];
      SumConcat(kind, a, b[..|b| - 1], res);
    }
  }

  /** A list and the place of one of its nodes. */
  lemma TakeOut(nodes: seq<Node>, j: nat)
    requires j < |nodes|
    ensures multiset(nodes[..j] + nodes[j + 1..]) == multiset(nodes) - multiset{nodes[j]}
  {
    assert nodes == nodes[..j] + [nodes[j]] + nodes[j + 1..];
    assert multiset(nodes) == multiset(nodes[..j]) + multiset{nodes[j]} + multiset(nodes[j + 1..]);
  }

  lemma SumTakeOut(kind: Kind, nodes: seq<Node>, j: nat, res: string)
    requires j < |nodes|
    ensures Sum(kind, nodes, res) == Sum(kind, nodes[..j] + nodes[j + 1..], res) + Share(kind, nodes[j], res)
  {
    var x := [nodes[j]];
    assert nodes == nodes[..j] + (x + nodes[j + 1..]);
    SumConcat(kind, nodes[..j], x + nodes[j + 1..], res);
    SumConcat(kind, x, nodes[j + 1..], res);
    SumConcat(kind, nodes[..j], nodes[j + 1..], res);
    assert x[..0] == [];
  }

  lemma {:induction false} SumPermutes(kind: Kind, a: seq<Node>, b: seq<Node>, res: string)
    requires multiset(a) == multiset(b)
    ensures Sum(kind, a, res) == Sum(kind, b, res)
    decreases |a|
  {
    assert |a| == |multiset(a)| == |b|;
    if a != [] {
      var last := |a| - 1;
      assert a[last] in multiset(b);
      var j :| 0 <= j < |b| && b[j] == a[last];
      TakeOut(a, last);
      TakeOut(b, j);
      SumTakeOut(kind, b, j, res);
      assert a[..last] + a[last + 1..] == a[..last];
      SumPermutes(kind, a[..last], b[..j] + b[j + 1..], res);
    }
  }

  /** Nodes listed in another order give the same summary. */
  lemma OrderDoesNotMatter(a: seq<Node>, b: seq<Node>, s: Summary, t: Summary)
    requires multiset(a) == multiset(b) && Summarizes(s, a) && Summarizes(t, b)
    ensures s == t
  {
    SameMembers(a, b);
    forall kind, res
      ensures Sum(kind, a, res) == Sum(kind, b, res) && (Reported(kind, a, res) <==> Reported(kind, b, res)) {
      SumPermutes(kind, a, b, res);
    }
    SameTotals(Capacity, a, b, s.capacity, t.capacity);
    SameTotals(Allocatable, a, b, s.allocatable, t.allocatable);
    forall k, v ensures Publishes(s.labels, k, v) <==> Publishes(t.labels, k, v) {
      assert Agreed(a, k, v) <==> Agreed(b, k, v);
    }
    SameMap(s.labels, t.labels);
  }

  lemma SameMembers(a: seq<Node>, b: seq<Node>)
    requires multiset(a) == multiset(b)
    ensures forall n :: n in a <==> n in b
  {
    forall n ensures n in a <==> n in b {
      assert n in a <==> n in multiset(a);
      assert n in b <==> n in multiset(b);
    }
  }

  lemma SameTotals(kind: Kind, a: seq<Node>, b: seq<Node>, s: map<string, int>, t: map<string, int>)
    requires Totals(kind, a, s) && Totals(kind, b, t)
    requires forall res :: Sum(kind, a, res) == Sum(kind, b, res)
    requires forall res :: Reported(kind, a, res) <==> Reported(kind, b, res)
    ensures s == t
  {
  }

  lemma SameMap(s: map<string, string>, t: map<string, string>)
    requires forall k, v :: Publishes(s, k, v) <==> Publishes(t, k, v)
    ensures s == t
  {
    forall k | k in s ensures k in t && t[k] == s[k] {
      assert Publishes(s, k, s[k]);
    }
    forall k | k in t ensures k in s {
      assert Publishes(t, k, t[k]);
    }
  }
}
