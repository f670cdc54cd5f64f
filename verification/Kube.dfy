/** Vocabulary shared by every component: option values, the label and annotation keys the
    controllers communicate through, namespaced object keys, and the JSON merge patch that the
    scheduler plugins and the chaperon controller send. */
module Kube {

  datatype Option<+T> = None | Some(value: T)

  /** A namespaced object name. */
  datatype Key = Key(ns: string, name: string)

  /** The domain that marks a label, annotation or finalizer as this system's own. */
  const KEY_PREFIX := "multicluster.admiralty.io/"

  const ANNOTATION_IS_RESERVED := KEY_PREFIX + "is-reserved"
  const ANNOTATION_IS_ALLOWED := KEY_PREFIX + "is-allowed"
  const ANNOTATION_MISSING_SINCE := KEY_PREFIX + "pod-missing-since"
  const ANNOTATION_PARENT_NAME := KEY_PREFIX + "parent-name"
  const ANNOTATION_PARENT_NAMESPACE := KEY_PREFIX + "parent-namespace"
  const LABEL_PARENT_UID := KEY_PREFIX + "parent-uid"
  const LABEL_PARENT_CLUSTER := KEY_PREFIX + "parent-cluster-name"
  const LABEL_HAS_FINALIZER := KEY_PREFIX + "has-finalizer"
  const ANNOTATION_GLOBAL := KEY_PREFIX + "global"
  const ANNOTATION_IS_DELEGATE := KEY_PREFIX + "is-delegate"

  /** What marks a node as virtual. */
  const PROVIDER_KEY := "virtual-kubelet.io/provider"
  const PROVIDER := "admiralty"

  predicate HasPrefix(s: string, prefix: string) {
    prefix <= s
  }

  predicate IsOurs(k: string) {
    HasPrefix(k, KEY_PREFIX)
  }

  /** The keys above are pairwise distinct where the proofs rely on it, and all carry the prefix. */
  lemma OurKeys()
    ensures IsOurs(ANNOTATION_IS_RESERVED) && IsOurs(ANNOTATION_IS_ALLOWED) && IsOurs(ANNOTATION_MISSING_SINCE)
    ensures IsOurs(ANNOTATION_PARENT_NAME) && IsOurs(ANNOTATION_PARENT_NAMESPACE)
    ensures IsOurs(LABEL_PARENT_UID) && IsOurs(LABEL_PARENT_CLUSTER) && IsOurs(LABEL_HAS_FINALIZER)
    ensures ANNOTATION_IS_RESERVED != ANNOTATION_IS_ALLOWED
    ensures ANNOTATION_MISSING_SINCE != ANNOTATION_IS_ALLOWED
    ensures ANNOTATION_MISSING_SINCE != ANNOTATION_IS_RESERVED
    ensures LABEL_PARENT_UID != LABEL_PARENT_CLUSTER
    ensures LABEL_PARENT_UID != LABEL_HAS_FINALIZER
    ensures LABEL_PARENT_CLUSTER != LABEL_HAS_FINALIZER
    ensures ANNOTATION_PARENT_NAME != ANNOTATION_PARENT_NAMESPACE
    ensures LABEL_PARENT_UID != ANNOTATION_PARENT_NAME && LABEL_PARENT_UID != ANNOTATION_PARENT_NAMESPACE
  {
    var n := |KEY_PREFIX|;
    assert ANNOTATION_IS_RESERVED[n + 3] == 'r' && ANNOTATION_IS_ALLOWED[n + 3] == 'a';
    assert ANNOTATION_MISSING_SINCE[n] == 'p' && ANNOTATION_IS_ALLOWED[n] == 'i' && ANNOTATION_IS_RESERVED[n] == 'i';
    assert LABEL_PARENT_UID[n + 7] == 'u' && LABEL_PARENT_CLUSTER[n + 7] == 'c' && LABEL_PARENT_UID[n] == 'p';
    assert LABEL_HAS_FINALIZER[n] == 'h' && LABEL_PARENT_CLUSTER[n] == 'p';
    assert |ANNOTATION_PARENT_NAME| == n + 11 && |ANNOTATION_PARENT_NAMESPACE| == n + 16
        && |LABEL_PARENT_UID| == n + 10;
  }

  /** Two maps agree on an entry, or on its absence. */
  predicate SameEntry(a: map<string, string>, b: map<string, string>, k: string) {
    (k in a <==> k in b) && (k in a && k in b ==> a[k] == b[k])
  }

  // ---- Splitting a label or annotation map by owner ----

  function Ours(m: map<string, string>): map<string, string> {
    map k | k in m && IsOurs(k) :: m[k]
  }

  function Others(m: map<string, string>): map<string, string> {
    map k | k in m && !IsOurs(k) :: m[k]
  }

  /** The loop that separates this system's entries from everybody else's. */
  method SplitLabelsOrAnnotations(m: map<string, string>) returns (mc: map<string, string>, other: map<string, string>)
    ensures mc == Ours(m) && other == Others(m)
  {
    mc, other := map[], map[];
    var todo := m.Keys;
    while todo != {}
      invariant todo <= m.Keys
      invariant mc == map k | k in m && k !in todo && IsOurs(k) :: m[k]
      invariant other == map k | k in m && k !in todo && !IsOurs(k) :: m[k]
    {
      var k :| k in todo;
      if HasPrefix(k, KEY_PREFIX) {
        mc := mc[k := m[k]];
      } else {
        other := other[k := m[k]];
      }
      todo := todo - {k};
    }
  }

  /** Taking one owner's entries from one map and the rest from another keeps both parts intact. */
  lemma SplitAndMerge(mine: map<string, string>, theirs: map<string, string>)
    ensures Ours(Ours(mine) + Others(theirs)) == Ours(mine)
    ensures Others(Ours(mine) + Others(theirs)) == Others(theirs)
    ensures Ours(mine) + Others(mine) == mine
  {
  }

  /** The loop that copies the entries of one map over another. */
  method Overlay(base: map<string, string>, more: map<string, string>) returns (r: map<string, string>)
    ensures r == base + more
  {
    r := base;
    var todo := more.Keys;
    while todo != {}
      invariant todo <= more.Keys
      invariant r == base + map k | k in more && k !in todo :: more[k]
    {
      var k :| k in todo;
      r := r[k := more[k]];
      todo := todo - {k};
    }
    assert (map k | k in more && k !in todo :: more[k]) == more;
  }

  /** The loop that appends the entries of one list to another. */
  method Append<T>(base: seq<T>, more: seq<T>) returns (r: seq<T>)
    ensures r == base + more
  {
    r := base;
    for i := 0 to |more|
      invariant r == base + more[..i]
    {
      r := r + [more[i]];
    }
  }

  /** `kept` are the entries of a list that pass a test, each in its place: `at` are their positions, in order. */
  ghost predicate Selects<T>(kept: seq<T>, all: seq<T>, at: seq<nat>, keep: T -> bool) {
    && |at| == |kept|
    && (forall i, j :: 0 <= i < j < |at| ==> at[i] < at[j])
    && (forall i {:trigger kept[i]} :: 0 <= i < |at| ==> at[i] < |all| && kept[i] == all[at[i]] && keep(kept[i]))
    && (forall j {:trigger keep(all[j])} :: 0 <= j < |all| && keep(all[j]) ==> exists i :: 0 <= i < |at| && at[i] == j)
  }

  lemma SelectsTaken<T>(kept: seq<T>, all: seq<T>, at: seq<nat>, keep: T -> bool, x: T)
    requires Selects(kept, all, at, keep) && keep(x)
    ensures Selects(kept + [x], all + [x], at + [|all|], keep)
  {
    var more, at' := all + [x], at + [|all|];
    forall i | 0 <= i < |at'| ensures at'[i] < |more| && (kept + [x])[i] == more[at'[i]] && keep((kept + [x])[i]) {
      assert i < |at| ==> keep(kept[i]);
    }
    forall i, j | 0 <= i < j < |at'| ensures at'[i] < at'[j] {
      assert keep(kept[i]);
    }
    forall j | 0 <= j < |more| && keep(more[j]) ensures exists i :: 0 <= i < |at'| && at'[i] == j {
      if j < |all| {
        assert keep(all[j]);
        var i :| 0 <= i < |at| && at[i] == j;
        assert at'[i] == j;
      } else {
        assert at'[|at|] == j;
      }
    }
  }

  lemma SelectsSkipped<T>(kept: seq<T>, all: seq<T>, at: seq<nat>, keep: T -> bool, x: T)
    requires Selects(kept, all, at, keep) && !keep(x)
    ensures Selects(kept, all + [x], at, keep)
  {
    var more := all + [x];
    forall i | 0 <= i < |at| ensures at[i] < |more| && kept[i] == more[at[i]] && keep(kept[i]) {
      assert keep(kept[i]);
    }
    forall j | 0 <= j < |more| && keep(more[j]) ensures exists i :: 0 <= i < |at| && at[i] == j {
      assert keep(all[j]);
    }
  }

  // ---- JSON merge patch on a string map (RFC 7396, section 2): null deletes a member ----

  type Patch = map<string, Option<string>>

  function MergePatch(target: map<string, string>, patch: Patch): map<string, string> {
    map k | k in target.Keys + patch.Keys && (k in patch ==> patch[k].Some?) ::
      if k in patch then patch[k].value else target[k]
  }

  // ---- Finalizer lists ----

  function Count(fs: seq<string>, f: string): nat {
    if fs == [] then 0 else (if fs[0] == f then 1 else 0) + Count(fs[1..], f)
  }

  lemma {:induction false} CountConcat(a: seq<string>, b: seq<string>, f: string)
    ensures Count(a + b, f) == Count(a, f) + Count(b, f)
  {
    if a == [] {
      assert a + b == b;
    } else {
      assert (a + b)[1..] == a[1..] + b;
      CountConcat(a[1..], b, f);
    }
  }

  lemma {:induction false} CountZero(fs: seq<string>, f: string)
    ensures Count(fs, f) == 0 <==> f !in fs
  {
    if fs != [] {
      CountZero(fs[1..], f);
    }
  }

  /** The linear search the controllers use before adding or removing their finalizer. */
  method HasFinalizer(finalizers: seq<string>, finalizer: string) returns (found: bool, j: int)
    ensures found <==> finalizer in finalizers
    ensures found ==> 0 <= j < |finalizers| && finalizers[j] == finalizer && finalizer !in finalizers[..j]
    ensures !found ==> j == -1
  {
    for i := 0 to |finalizers|
      invariant finalizer !in finalizers[..i]
    {
      if finalizers[i] == finalizer {
        return true, i;
      }
    }
    return false, -1;
  }

  /** The list with the entry at `j` spliced out. */
  function Without(fs: seq<string>, j: nat): (r: seq<string>)
    requires j < |fs|
    ensures |r| == |fs| - 1
  {
    fs[..j] + fs[j + 1..]
  }

  lemma CountWithout(fs: seq<string>, j: nat, f: string)
    requires j < |fs|
    ensures Count(Without(fs, j), f) == Count(fs, f) - (if fs[j] == f then 1 else 0)
  {
    assert fs == fs[..j] + ([fs[j]] + fs[j + 1..]);
    CountConcat(fs[..j], [fs[j]] + fs[j + 1..], f);
    CountConcat([fs[j]], fs[j + 1..], f);
    CountConcat(fs[..j], fs[j + 1..], f);
    assert [fs[j]][1..] == [];
  }

  /** Where the finalizer first occurs. */
  function FirstIndex(fs: seq<string>, f: string): (j: nat)
    requires f in fs
    ensures j < |fs| && fs[j] == f && f !in fs[..j]
  {
    if fs[0] == f then 0
    else
      var j := FirstIndex(fs[1..], f);
      assert fs[..j + 1] == [fs[0]] + fs[1..][..j];
      j + 1
  }

  /** The first occurrence is unique. */
  lemma FirstIndexIs(fs: seq<string>, f: string, j: nat)
    requires j < |fs| && fs[j] == f && f !in fs[..j]
    ensures FirstIndex(fs, f) == j
  {
    var i := FirstIndex(fs, f);
    forall k | 0 <= k < j ensures fs[k] != f {
      assert fs[k] == fs[..j][k];
    }
    forall k | 0 <= k < i ensures fs[k] != f {
      assert fs[k] == fs[..i][k];
    }
  }
}
