/** The admission webhook that turns an annotated source pod into a proxy pod, keeping the source pod in an
    annotation. */
module Webhook {
  import opened Kube
  import opened RemoteControl

  const ANNOTATION_ELECT := KEY_PREFIX + "elect"
  const ANNOTATION_NO_RESERVATION := KEY_PREFIX + "no-reservation"
  const ANNOTATION_PROXY_CONSTRAINTS := KEY_PREFIX + "proxy-pod-scheduling-constraints"
  const ANNOTATION_USE_CONSTRAINTS := KEY_PREFIX + "use-constraints-from-spec-for-proxy-pod-scheduling"
  const ANNOTATION_MANIFEST := KEY_PREFIX + "sourcepod-manifest"
  const PROXY_SCHEDULER := "admiralty-proxy"
  const NETWORK_UNAVAILABLE := "node.kubernetes.io/network-unavailable"

  datatype Toleration = Toleration(key: string, operator: string, value: string)

  /** Affinity and topology spread constraints are copied without looking inside. */
  datatype Constraints = Constraints(nodeSelector: map<string, string>, tolerations: seq<Toleration>,
                                     affinity: Option<string>, topology: seq<string>)

  const NO_CONSTRAINTS := Constraints(map[], [], None, [])

  datatype Mount = Mount(name: string, path: string)
  datatype Container = Container(name: string, mounts: seq<Mount>)
  datatype Volume = Volume(name: string, source: string)

  /** `other` stands for the fields nobody here reads. */
  datatype Spec = Spec(constraints: Constraints, schedulerName: string, grace: Option<int>, priority: Option<int>,
                       containers: seq<Container>, initContainers: seq<Container>, volumes: seq<Volume>, other: string)

  datatype Pod = Pod(key: Key, uid: string, labels: map<string, string>, annotations: map<string, string>,
                     finalizers: seq<string>, spec: Spec)

  /** How pods and constraints are written to and read from annotations; reading may be strict. */
  datatype Codec = Codec(encode: Pod -> string, decode: string -> Option<Pod>, decodeStrictly: string -> Option<Pod>,
                         decodeConstraints: string -> Option<Constraints>)

  ghost predicate RoundTrips(codec: Codec) {
    forall p :: codec.decode(codec.encode(p)) == Some(p) && codec.decodeStrictly(codec.encode(p)) == Some(p)
  }

  // ---- What the webhook makes of a pod ----

  const BASE := Constraints(map[PROVIDER_KEY := PROVIDER],
                            [Toleration(PROVIDER_KEY, "", PROVIDER), Toleration(NETWORK_UNAVAILABLE, "Exists", "")],
                                None, [])

  /** Constraints on top of the base ones. */
  function OnTop(c: Constraints): Constraints {
    Constraints(BASE.nodeSelector + c.nodeSelector, BASE.tolerations + c.tolerations, c.affinity, c.topology)
  }

  function Source(codec: Codec, p: Pod): Option<Pod> {
    if ANNOTATION_MANIFEST in p.annotations then codec.decodeStrictly(p.annotations[ANNOTATION_MANIFEST]) else Some(p)
  }

  function WithManifest(codec: Codec, p: Pod): Pod {
    if ANNOTATION_MANIFEST in p.annotations then p
        else p.(annotations := p.annotations[ANNOTATION_MANIFEST := codec.encode(p)])
  }

  function ProxyConstraints(codec: Codec, annotations: map<string, string>, source: Pod): Option<Constraints> {
    if ANNOTATION_PROXY_CONSTRAINTS in annotations then
      match codec.decodeConstraints(annotations[ANNOTATION_PROXY_CONSTRAINTS])
      case None => None
      case Some(c) => Some(OnTop(c))
    else if ANNOTATION_USE_CONSTRAINTS in annotations then Some(OnTop(source.spec.constraints))
    else Some(BASE)
  }

  function Foreign(fs: seq<string>): seq<string> {
    if fs == [] then [] else Foreign(fs[..|fs| - 1]) + (if IsOurs(fs[|fs| - 1]) then [] else [fs[|fs| - 1]])
  }

  function KnownIn(known: map<string, seq<string>>, ns: string): seq<string> {
    if ns in known then known[ns] else []
  }

  /** No result means that the pod is refused. */
  function Mutated(codec: Codec, known: map<string, seq<string>>, p: Pod): Option<Pod> {
    if ANNOTATION_ELECT !in p.annotations then Some(p)
    else if Source(codec, p).None? then None
    else
      var q := WithManifest(codec, p);
      match ProxyConstraints(codec, q.annotations, Source(codec, p).value)
      case None => None
      case Some(c) =>
        Some(q.(labels := q.labels[LABEL_HAS_FINALIZER := "true"],
                finalizers := Foreign(q.finalizers) + KnownIn(known, q.key.ns),
                spec := q.spec.(constraints := c, schedulerName := PROXY_SCHEDULER, grace := Some(0))))
  }

  // ---- What that means, field by field ----

  function Unprefixed(): string -> bool {
    (f: string) => !(KEY_PREFIX <= f)
  }

  /** The kept finalizers are those without the prefix, each in its place. */
  ghost predicate KeepsForeign(kept: seq<string>, fs: seq<string>) {
    exists at :: Selects(kept, fs, at, Unprefixed())
  }

  lemma KeepsForeignMore(kept: seq<string>, fs: seq<string>, f: string, kept': seq<string>, fs': seq<string>)
    requires KeepsForeign(kept, fs) && fs' == fs + [f] && kept' == if IsOurs(f) then kept else kept + [f]
    ensures KeepsForeign(kept', fs')
  {
    var at :| Selects(kept, fs, at, Unprefixed());
    if IsOurs(f) {
      SelectsSkipped(kept, fs, at, Unprefixed(), f);
    } else {
      SelectsTaken(kept, fs, at, Unprefixed(), f);
    }
  }

  lemma ForeignMore(init: seq<string>, f: string)
    ensures Foreign(init + [f]) == if IsOurs(f) then Foreign(init) else Foreign(init) + [f]
  {
    assert (init + [f])[..|init|] == init;
    assert Foreign(init) + [] == Foreign(init);
  }

  lemma ForeignKeepsMore(init: seq<string>, f: string, fs: seq<string>)
    requires KeepsForeign(Foreign(init), init) && fs == init + [f]
    ensures KeepsForeign(Foreign(fs), fs)
  {
    ForeignMore(init, f);
    KeepsForeignMore(Foreign(init), init, f, Foreign(fs), fs);
  }

  lemma {:induction false} ForeignKeeps(fs: seq<string>)
    ensures KeepsForeign(Foreign(fs), fs)
  {
    if fs == [] {
      assert Selects<string>([], [], [], Unprefixed());
    } else {
      var init, f := fs[..|fs| - 1], fs[|fs| - 1];
      assert fs == init + [f];
      ForeignKeeps(init);
      ForeignKeepsMore(init, f, fs);
    }
  }

  /** The finalizers: the foreign ones in order, then those known for the namespace. */
  ghost predicate Finalized(fs: seq<string>, known: seq<string>, fs': seq<string>) {
    exists kept :: fs' == kept + known && KeepsForeign(kept, fs)
  }

  /** The constraints: what every proxy pod has, with the given ones on top. */
  ghost predicate Constrained(extra: Constraints, c: Constraints) {
    && (forall k :: k in c.nodeSelector <==> k == "virtual-kubelet.io/provider" || k in extra.nodeSelector)
    && (forall k :: k in c.nodeSelector ==>
          c.nodeSelector[k] == if k in extra.nodeSelector then extra.nodeSelector[k] else "admiralty")
    && c.tolerations == [Toleration("virtual-kubelet.io/provider", "", "admiralty"),
                         Toleration("node.kubernetes.io/network-unavailable", "Exists", "")] + extra.tolerations
    && c.affinity == extra.affinity && c.topology == extra.topology
  }

  /** The separate constraints if there are any, else the source's if they are asked for. */
  ghost predicate Chosen(codec: Codec, p: Pod, extra: Constraints) {
    if ANNOTATION_PROXY_CONSTRAINTS in p.annotations then
      codec.decodeConstraints(p.annotations[ANNOTATION_PROXY_CONSTRAINTS]) == Some(extra)
    else if ANNOTATION_USE_CONSTRAINTS !in p.annotations then extra == NO_CONSTRAINTS
    else if ANNOTATION_MANIFEST !in p.annotations then extra == p.spec.constraints
    else
      && codec.decodeStrictly(p.annotations[ANNOTATION_MANIFEST]).Some?
      && extra == codec.decodeStrictly(p.annotations[ANNOTATION_MANIFEST]).value.spec.constraints
  }

  /** q is the proxy pod made of the elected pod p. */
  ghost predicate Admits(codec: Codec, known: map<string, seq<string>>, p: Pod, q: Pod) {
    && q.key == p.key && q.uid == p.uid
    && q.spec == p.spec.(constraints := q.spec.constraints, schedulerName := "admiralty-proxy", grace := Some(0))
    && (exists extra :: Chosen(codec, p, extra) && Constrained(extra, q.spec.constraints))
    && Lookup(q.labels, LABEL_HAS_FINALIZER) == "true"
    && (forall k :: k != LABEL_HAS_FINALIZER ==> SameEntry(q.labels, p.labels, k))
    && ANNOTATION_MANIFEST in q.annotations
    && (ANNOTATION_MANIFEST !in p.annotations ==> q.annotations[ANNOTATION_MANIFEST] == codec.encode(p))
    && (forall k :: k != ANNOTATION_MANIFEST || k in p.annotations ==> SameEntry(q.annotations, p.annotations, k))
    && Finalized(p.finalizers, if p.key.ns in known then known[p.key.ns] else [], q.finalizers)
  }

  /** The pod is refused exactly if a text in its annotations cannot be read. */
  predicate Refused(codec: Codec, p: Pod) {
    || (ANNOTATION_MANIFEST in p.annotations && codec.decodeStrictly(p.annotations[ANNOTATION_MANIFEST]).None?)
    || (&& ANNOTATION_PROXY_CONSTRAINTS in p.annotations
        && codec.decodeConstraints(p.annotations[ANNOTATION_PROXY_CONSTRAINTS]).None?)
  }

  lemma OnTopConstrains(c: Constraints)
    ensures Constrained(c, OnTop(c)) && Constrained(NO_CONSTRAINTS, BASE)
  {
    assert BASE.tolerations + [] == BASE.tolerations;
  }

  lemma ChosenConstraints(codec: Codec, p: Pod)
    requires !Refused(codec, p)
    ensures Source(codec, p).Some?
    ensures var c := ProxyConstraints(codec, WithManifest(codec, p).annotations, Source(codec, p).value);
      c.Some? && exists extra :: Chosen(codec, p, extra) && Constrained(extra, c.value)
  {
    WebhookKeys();
    var source := Source(codec, p).value;
    var extra :=
      if ANNOTATION_PROXY_CONSTRAINTS in p.annotations
      then codec.decodeConstraints(p.annotations[ANNOTATION_PROXY_CONSTRAINTS]).value
      else if ANNOTATION_USE_CONSTRAINTS in p.annotations then source.spec.constraints
      else NO_CONSTRAINTS;
    OnTopConstrains(extra);
    assert Chosen(codec, p, extra);
  }

  lemma FinalizersFate(known: map<string, seq<string>>, p: Pod)
    ensures Finalized(p.finalizers, if p.key.ns in known then known[p.key.ns] else [],
                      Foreign(p.finalizers) + KnownIn(known, p.key.ns))
  {
    ForeignKeeps(p.finalizers);
  }

  lemma AdmittedFate(codec: Codec, known: map<string, seq<string>>, p: Pod)
    requires ANNOTATION_ELECT in p.annotations && !Refused(codec, p)
    ensures Mutated(codec, known, p).Some? && Admits(codec, known, p, Mutated(codec, known, p).value)
  {
    ChosenConstraints(codec, p);
    FinalizersFate(known, p);
  }

  lemma RefusedFate(codec: Codec, known: map<string, seq<string>>, p: Pod)
    requires ANNOTATION_ELECT in p.annotations && Refused(codec, p)
    ensures Mutated(codec, known, p).None?
  {
    WebhookKeys();
  }

  lemma MutatedFate(codec: Codec, known: map<string, seq<string>>, p: Pod)
    ensures ANNOTATION_ELECT !in p.annotations ==> Mutated(codec, known, p) == Some(p)
    ensures ANNOTATION_ELECT in p.annotations ==>
      && (Mutated(codec, known, p).None? <==> Refused(codec, p))
      && (!Refused(codec, p) ==> Admits(codec, known, p, Mutated(codec, known, p).value))
  {
    if ANNOTATION_ELECT in p.annotations {
      if Refused(codec, p) {
        RefusedFate(codec, known, p);
      } else {
        AdmittedFate(codec, known, p);
      }
    }
  }

  // ---- The mutation, in place ----

  method ForeignFinalizers(fs: seq<string>) returns (r: seq<string>)
    ensures r == Foreign(fs)
  {
    r := [];
    for i := 0 to |fs|
      invariant r == Foreign(fs[..i])
    {
      assert fs[..i + 1][..i] == fs[..i];
      if !HasPrefix(fs[i], KEY_PREFIX) {
        r := r + [fs[i]];
      }
    }
    assert fs[..|fs|] == fs;
  }

  /** A pod under admission; the webhook edits its fields. */
  class Admitted {
    const key: Key
    const uid: string
    var labels: map<string, string>
    var annotations: map<string, string>
    var finalizers: seq<string>
    var spec: Spec

    constructor (p: Pod)
      ensures Value() == p
    {
      key, uid, labels, annotations, finalizers, spec := p.key, p.uid, p.labels, p.annotations, p.finalizers, p.spec;
    }

    function Value(): Pod
      reads this
    {
      Pod(key, uid, labels, annotations, finalizers, spec)
    }

    method SetConstraints(c: Constraints)
      modifies this`spec
      ensures spec == old(spec).(constraints := OnTop(c))
    {
      var selector := Overlay(BASE.nodeSelector, c.nodeSelector);
      var tolerations := Append(BASE.tolerations, c.tolerations);
      spec := spec.(constraints := Constraints(selector, tolerations, c.affinity, c.topology));
    }

    /** Records the source pod, unless an earlier admission did. */
    method SaveSource(codec: Codec) returns (source: Option<Pod>)
      modifies this`annotations
      ensures source == Source(codec, old(Value()))
      ensures source.Some? ==> Value() == WithManifest(codec, old(Value()))
    {
      if ANNOTATION_MANIFEST !in annotations {
        var p := Value();
        annotations := annotations[ANNOTATION_MANIFEST := codec.encode(p)];
        return Some(p);
      }
      return codec.decodeStrictly(annotations[ANNOTATION_MANIFEST]);
    }

    method Constrain(codec: Codec, source: Pod) returns (ok: bool)
      modifies this`spec
      ensures ok <==> ProxyConstraints(codec, annotations, source).Some?
      ensures ok ==> spec == old(spec).(constraints := ProxyConstraints(codec, annotations, source).value)
    {
      spec := spec.(constraints := BASE);
      if ANNOTATION_PROXY_CONSTRAINTS in annotations {
        var c := codec.decodeConstraints(annotations[ANNOTATION_PROXY_CONSTRAINTS]);
        if c.None? {
          return false;
        }
        SetConstraints(c.value);
      } else if ANNOTATION_USE_CONSTRAINTS in annotations {
        SetConstraints(source.spec.constraints);
      }
      return true;
    }

    method SetFinalizers(known: map<string, seq<string>>)
      modifies this`finalizers, this`labels
      ensures finalizers == Foreign(old(finalizers)) + KnownIn(known, key.ns)
      ensures labels == old(labels)[LABEL_HAS_FINALIZER := "true"]
    {
      var fs := ForeignFinalizers(finalizers);
      if key.ns in known {
        fs := Append(fs, known[key.ns]);
      }
      finalizers := fs;
      labels := labels[LABEL_HAS_FINALIZER := "true"];
    }

    /** A refused pod is discarded, in whatever state the webhook left it. */
    method Default(codec: Codec, known: map<string, seq<string>>) returns (ok: bool)
      modifies this`labels, this`annotations, this`finalizers, this`spec
      ensures ok <==> Mutated(codec, known, old(Value())).Some?
      ensures ok ==> Value() == Mutated(codec, known, old(Value())).value
      ensures ANNOTATION_ELECT !in old(annotations) ==> ok && Value() == old(Value())
      ensures ANNOTATION_ELECT in old(annotations) ==> (ok <==> !Refused(codec, old(Value())))
      ensures ANNOTATION_ELECT in old(annotations) && ok ==> Admits(codec, known, old(Value()), Value())
    {
      MutatedFate(codec, known, Value());
      if ANNOTATION_ELECT !in annotations {
        return true;
      }
      var source := SaveSource(codec);
      if source.None? {
        return false;
      }
      var constrained := Constrain(codec, source.value);
      if !constrained {
        return false;
      }
      spec := spec.(schedulerName := PROXY_SCHEDULER);
      spec := spec.(grace := Some(0));
      SetFinalizers(known);
      return true;
    }
  }

  // ---- Idempotence ----

  lemma WebhookKeys()
    ensures ANNOTATION_MANIFEST != ANNOTATION_ELECT && ANNOTATION_MANIFEST != ANNOTATION_PROXY_CONSTRAINTS
    ensures ANNOTATION_MANIFEST != ANNOTATION_USE_CONSTRAINTS && ANNOTATION_MANIFEST != ANNOTATION_NO_RESERVATION
    ensures IsOurs(ANNOTATION_MANIFEST)
  {
    var n := |KEY_PREFIX|;
    assert ANNOTATION_MANIFEST[n] == 's' && ANNOTATION_ELECT[n] == 'e' && ANNOTATION_PROXY_CONSTRAINTS[n] == 'p';
    assert ANNOTATION_NO_RESERVATION[n] == 'n' && |ANNOTATION_MANIFEST| == n + 18
        && |ANNOTATION_USE_CONSTRAINTS| == n + 50;
  }

  lemma {:induction false} ForeignConcat(a: seq<string>, b: seq<string>)
    ensures Foreign(a + b) == Foreign(a) + Foreign(b)
    decreases |b|
  {
    if b == [] {
      assert a + b == a;
    } else {
      assert (a + b)[..|a + b| - 1] == a + b[..|b| - 1];
      ForeignConcat(a, b[..|b| - 1]);
    }
  }

  lemma {:induction false} ForeignOfOurs(fs: seq<string>)
    requires forall f :: f in fs ==> IsOurs(f)
    ensures Foreign(fs) == []
  {
    if fs != [] {
      ForeignOfOurs(fs[..|fs| - 1]);
    }
  }

  lemma {:induction false} ForeignTwice(fs: seq<string>)
    ensures Foreign(Foreign(fs)) == Foreign(fs)
  {
    if fs != [] {
      var f := [fs[|fs| - 1]];
      ForeignTwice(fs[..|fs| - 1]);
      ForeignConcat(Foreign(fs[..|fs| - 1]), f);
      assert f[..0] == [];
      assert Foreign(fs[..|fs| - 1]) + [] == Foreign(fs[..|fs| - 1]);
    }
  }

  /** Target finalizers carry the prefix. */
  ghost predicate KnownAreOurs(known: map<string, seq<string>>) {
    forall ns, f :: ns in known && f in known[ns] ==> IsOurs(f)
  }

  lemma FinalizersSettle(known: map<string, seq<string>>, ns: string, fs: seq<string>)
    requires KnownAreOurs(known)
    ensures Foreign(Foreign(fs) + KnownIn(known, ns)) == Foreign(fs)
  {
    ForeignConcat(Foreign(fs), KnownIn(known, ns));
    ForeignTwice(fs);
    ForeignOfOurs(KnownIn(known, ns));
  }

  /** Admitting an admitted pod changes nothing. */
  lemma DefaultIdempotent(codec: Codec, known: map<string, seq<string>>, p: Pod)
    requires RoundTrips(codec) && KnownAreOurs(known) && Mutated(codec, known, p).Some?
    ensures var q := Mutated(codec, known, p).value; Mutated(codec, known, q) == Some(q)
  {
    if ANNOTATION_ELECT in p.annotations {
      WebhookKeys();
      var q := Mutated(codec, known, p).value;
      var w := WithManifest(codec, p);
      FinalizersSettle(known, p.key.ns, p.finalizers);
      assert q.annotations == w.annotations && ANNOTATION_MANIFEST in q.annotations;
      assert Source(codec, q) == Source(codec, p);
      assert WithManifest(codec, q) == q;
      assert q.labels[LABEL_HAS_FINALIZER := "true"] == q.labels;
    }
  }

  /** The pod after n admissions in a row. */
  function Admitting(codec: Codec, known: map<string, seq<string>>, p: Pod, n: nat): Option<Pod> {
    if n == 0 then Some(p)
    else
      match Admitting(codec, known, p, n - 1)
      case None => None
      case Some(q) => Mutated(codec, known, q)
  }

  lemma {:induction false} AdmittingManyTimes(codec: Codec, known: map<string, seq<string>>, p: Pod, n: nat)
    requires RoundTrips(codec) && KnownAreOurs(known) && n >= 1
    ensures Admitting(codec, known, p, n) == Mutated(codec, known, p)
  {
    assert Admitting(codec, known, p, 0) == Some(p);
    if n > 1 {
      AdmittingManyTimes(codec, known, p, n - 1);
      if Mutated(codec, known, p).Some? {
        DefaultIdempotent(codec, known, p);
      }
    }
  }

  // ---- The source pod ----

  function GetSourcePod(codec: Codec, proxy: Pod): Option<Pod> {
    if ANNOTATION_MANIFEST in proxy.annotations then codec.decode(proxy.annotations[ANNOTATION_MANIFEST]) else None
  }

  /** However often the pod is admitted, what it was at first can be recovered from it. */
  lemma SourceRecovered(codec: Codec, known: map<string, seq<string>>, p: Pod, n: nat)
    requires RoundTrips(codec) && KnownAreOurs(known) && n >= 1
    requires ANNOTATION_ELECT in p.annotations && ANNOTATION_MANIFEST !in p.annotations
    ensures var q := Admitting(codec, known, p, n);
      q.Some? ==> GetSourcePod(codec, q.value) == Some(p) && q.value.key == p.key && q.value.uid == p.uid
  {
    AdmittingManyTimes(codec, known, p, n);
  }
}
