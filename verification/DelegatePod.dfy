/** Making the delegate pod's chaperon from a proxy pod. */
module DelegatePod {
  import opened Kube
  import opened RemoteControl
  import opened Labels
  import opened Webhook
  import ChaperonServer
  import ElectionModel

  const ANNOTATION_NO_PREFIX_REGEXP := KEY_PREFIX + "no-prefix-label-regexp"
  const CANDIDATE_SCHEDULER := "admiralty-candidate"
  const SERVICE_ACCOUNT := "/var/run/secrets/kubernetes.io/serviceaccount"

  // ---- Removing the service account ----

  /** Without the first service account mount. */
  function DropMount(ms: seq<Mount>): seq<Mount> {
    if ms == [] then []
    else if ms[0].path == SERVICE_ACCOUNT then ms[1..]
    else [ms[0]] + DropMount(ms[1..])
  }

  /** The volume of the first service account mount. */
  function MountedSecret(ms: seq<Mount>): Option<string> {
    if ms == [] then None
    else if ms[0].path == SERVICE_ACCOUNT then Some(ms[0].name)
    else MountedSecret(ms[1..])
  }

  function DropMounts(cs: seq<Container>): seq<Container> {
    if cs == [] then []
    else DropMounts(cs[..|cs| - 1]) + [cs[|cs| - 1].(mounts := DropMount(cs[|cs| - 1].mounts))]
  }

  /** The last secret found, container after container. */
  function LastSecret(cs: seq<Container>, initial: string): string {
    if cs == [] then initial
    else
      match MountedSecret(cs[|cs| - 1].mounts)
      case Some(name) => name
      case None => LastSecret(cs[..|cs| - 1], initial)
  }

  function DropVolume(vs: seq<Volume>, name: string): seq<Volume> {
    if vs == [] then []
    else if vs[0].name == name then vs[1..]
    else [vs[0]] + DropVolume(vs[1..], name)
  }

  function WithoutServiceAccount(spec: Spec): Spec {
    var secret := LastSecret(spec.initContainers, LastSecret(spec.containers, ""));
    spec.(containers := DropMounts(spec.containers), initContainers := DropMounts(spec.initContainers),
          volumes := DropVolume(spec.volumes, secret))
  }

  lemma {:induction false} DropMountAt(ms: seq<Mount>, j: nat)
    requires j <= |ms| && forall i :: 0 <= i < j ==> ms[i].path != SERVICE_ACCOUNT
    requires j < |ms| ==> ms[j].path == SERVICE_ACCOUNT
    ensures if j == |ms| then DropMount(ms) == ms && MountedSecret(ms) == None
            else DropMount(ms) == ms[..j] + ms[j + 1..] && MountedSecret(ms) == Some(ms[j].name)
  {
    if j > 0 {
      DropMountAt(ms[1..], j - 1);
    }
  }

  lemma {:induction false} DropVolumeAt(vs: seq<Volume>, name: string, j: nat)
    requires j <= |vs| && forall i :: 0 <= i < j ==> vs[i].name != name
    requires j < |vs| ==> vs[j].name == name
    ensures DropVolume(vs, name) == if j == |vs| then vs else vs[..j] + vs[j + 1..]
  {
    if j > 0 {
      DropVolumeAt(vs[1..], name, j - 1);
    }
  }

  method FindMount(ms: seq<Mount>) returns (j: int)
    ensures -1 <= j < |ms|
    ensures j >= 0 ==> DropMount(ms) == ms[..j] + ms[j + 1..] && MountedSecret(ms) == Some(ms[j].name)
    ensures j < 0 ==> DropMount(ms) == ms && MountedSecret(ms) == None
  {
    for i := 0 to |ms|
      invariant forall k :: 0 <= k < i ==> ms[k].path != SERVICE_ACCOUNT
    {
      if ms[i].path == SERVICE_ACCOUNT {
        DropMountAt(ms, i);
        return i;
      }
    }
    DropMountAt(ms, |ms|);
    return -1;
  }

  /** Edits the containers in place, remembering the volume's name. */
  method StripContainers(cs: seq<Container>, initial: string) returns (r: seq<Container>, secret: string)
    ensures r == DropMounts(cs) && secret == LastSecret(cs, initial)
  {
    r, secret := cs, initial;
    for i := 0 to |cs|
      invariant |r| == |cs| && forall k :: i <= k < |cs| ==> r[k] == cs[k]
      invariant r[..i] == DropMounts(cs[..i]) && secret == LastSecret(cs[..i], initial)
    {
      var c := r[i];
      ghost var done := r[..i];
      assert cs[..i + 1][..i] == cs[..i];
      var j := FindMount(c.mounts);
      if j > -1 {
        secret := c.mounts[j].name;
        c := c.(mounts := c.mounts[..j] + c.mounts[j + 1..]);
        r := r[i := c];
      }
      assert r[..i + 1] == done + [c];
    }
    assert cs[..|cs|] == cs && r[..|cs|] == r;
  }

  method RemoveServiceAccount(spec: Spec) returns (r: Spec)
    ensures r == WithoutServiceAccount(spec)
  {
    var containers, secret := StripContainers(spec.containers, "");
    var initContainers, secret' := StripContainers(spec.initContainers, secret);
    r := spec.(containers := containers, initContainers := initContainers);
    for i := 0 to |spec.volumes|
      invariant forall k :: 0 <= k < i ==> spec.volumes[k].name != secret'
    {
      if spec.volumes[i].name == secret' {
        DropVolumeAt(spec.volumes, secret', i);
        r := r.(volumes := spec.volumes[..i] + spec.volumes[i + 1..]);
        return;
      }
    }
    DropVolumeAt(spec.volumes, secret', |spec.volumes|);
  }

  // What that amounts to, for pods as the API server admits them.

  function OtherMounts(ms: seq<Mount>): seq<Mount> {
    if ms == [] then [] else (if ms[0].path == SERVICE_ACCOUNT then [] else [ms[0]]) + OtherMounts(ms[1..])
  }

  function OtherVolumes(vs: seq<Volume>, name: string): seq<Volume> {
    if vs == [] then [] else (if vs[0].name == name then [] else [vs[0]]) + OtherVolumes(vs[1..], name)
  }

  ghost predicate DistinctPaths(ms: seq<Mount>) {
    forall i, j :: 0 <= i < j < |ms| ==> ms[i].path != ms[j].path
  }

  ghost predicate DistinctNames(vs: seq<Volume>) {
    forall i, j :: 0 <= i < j < |vs| ==> vs[i].name != vs[j].name
  }

  lemma {:induction false} OtherMountsAll(ms: seq<Mount>)
    requires forall m :: m in ms ==> m.path != SERVICE_ACCOUNT
    ensures OtherMounts(ms) == ms
  {
    if ms != [] {
      OtherMountsAll(ms[1..]);
      assert [ms[0]] + ms[1..] == ms;
    }
  }

  lemma {:induction false} DropMountIsFilter(ms: seq<Mount>)
    requires DistinctPaths(ms)
    ensures DropMount(ms) == OtherMounts(ms)
  {
    if ms != [] {
      if ms[0].path == SERVICE_ACCOUNT {
        OtherMountsAll(ms[1..]);
      } else {
        DropMountIsFilter(ms[1..]);
      }
    }
  }

  lemma {:induction false} OtherVolumesAll(vs: seq<Volume>, name: string)
    requires forall v :: v in vs ==> v.name != name
    ensures OtherVolumes(vs, name) == vs
  {
    if vs != [] {
      OtherVolumesAll(vs[1..], name);
      assert [vs[0]] + vs[1..] == vs;
    }
  }

  lemma {:induction false} DropVolumeIsFilter(vs: seq<Volume>, name: string)
    requires DistinctNames(vs)
    ensures DropVolume(vs, name) == OtherVolumes(vs, name)
  {
    if vs != [] {
      if vs[0].name == name {
        OtherVolumesAll(vs[1..], name);
      } else {
        DropVolumeIsFilter(vs[1..], name);
      }
    }
  }

  /** Every service account mount names this volume. */
  ghost predicate MountsOnly(cs: seq<Container>, secret: string) {
    forall c, m :: c in cs && m in c.mounts && m.path == SERVICE_ACCOUNT ==> m.name == secret
  }

  lemma {:induction false} MountedSecretIs(ms: seq<Mount>)
    ensures MountedSecret(ms).Some? <==> exists m :: m in ms && m.path == SERVICE_ACCOUNT
    ensures MountedSecret(ms).Some? ==>
      exists m :: m in ms && m.path == SERVICE_ACCOUNT && m.name == MountedSecret(ms).value
  {
    if ms != [] {
      assert ms[0] in ms;
      MountedSecretIs(ms[1..]);
    }
  }

  lemma {:induction false} LastSecretIs(cs: seq<Container>, initial: string, secret: string)
    requires MountsOnly(cs, secret)
    ensures LastSecret(cs, initial) == secret || LastSecret(cs, initial) == initial
    ensures (exists c, m :: c in cs && m in c.mounts && m.path == SERVICE_ACCOUNT) ==> LastSecret(cs, initial) == secret
  {
    if cs != [] {
      var before, last := cs[..|cs| - 1], cs[|cs| - 1];
      assert forall c :: c in cs <==> c in before || c == last;
      MountedSecretIs(last.mounts);
      LastSecretIs(before, initial, secret);
    }
  }

  lemma {:induction false} DropMountsAt(cs: seq<Container>)
    ensures |DropMounts(cs)| == |cs|
    ensures forall i :: 0 <= i < |cs| ==> DropMounts(cs)[i] == cs[i].(mounts := DropMount(cs[i].mounts))
  {
    if cs != [] {
      DropMountsAt(cs[..|cs| - 1]);
    }
  }

  /** The mounts of the service account go, and its volume with them; all other mounts and volumes stay, in
      order.  Mount paths are distinct within a container and volume names within a pod. */
  lemma ServiceAccountRemoved(spec: Spec, secret: string)
    requires forall c :: c in spec.containers + spec.initContainers ==> DistinctPaths(c.mounts)
    requires DistinctNames(spec.volumes)
    requires MountsOnly(spec.containers, secret) && MountsOnly(spec.initContainers, secret)
    requires exists c, m :: c in spec.containers + spec.initContainers && m in c.mounts && m.path == SERVICE_ACCOUNT
    ensures var r := WithoutServiceAccount(spec);
      && |r.containers| == |spec.containers| && |r.initContainers| == |spec.initContainers|
      && (forall i :: 0 <= i < |spec.containers| ==>
            r.containers[i] == spec.containers[i].(mounts := OtherMounts(spec.containers[i].mounts)))
      && (forall i :: 0 <= i < |spec.initContainers| ==>
            r.initContainers[i] == spec.initContainers[i].(mounts := OtherMounts(spec.initContainers[i].mounts)))
      && r.volumes == OtherVolumes(spec.volumes, secret)
  {
    forall c | c in spec.containers + spec.initContainers ensures DropMount(c.mounts) == OtherMounts(c.mounts) {
      DropMountIsFilter(c.mounts);
    }
    DropMountsAt(spec.containers);
    DropMountsAt(spec.initContainers);
    LastSecretIs(spec.containers, "", secret);
    LastSecretIs(spec.initContainers, LastSecret(spec.containers, ""), secret);
    DropVolumeIsFilter(spec.volumes, secret);
  }

  /** Without such a mount nothing goes. */
  lemma ServiceAccountAbsent(spec: Spec)
    requires forall c :: c in spec.containers + spec.initContainers ==> HasNoMount(c)
    requires forall v :: v in spec.volumes ==> v.name != ""
    ensures WithoutServiceAccount(spec) == spec
  {
    NothingDropped(spec.containers, "");
    NothingDropped(spec.initContainers, "");
    DropVolumeAt(spec.volumes, "", |spec.volumes|);
  }

  ghost predicate HasNoMount(c: Container) {
    forall m :: m in c.mounts ==> m.path != SERVICE_ACCOUNT
  }

  lemma NothingDroppedMore(init: seq<Container>, c: Container, cs: seq<Container>, initial: string)
    requires cs == init + [c] && HasNoMount(c) && DropMounts(init) == init && LastSecret(init, initial) == initial
    ensures DropMounts(cs) == cs && LastSecret(cs, initial) == initial
  {
    assert cs[..|cs| - 1] == init;
    DropMountAt(c.mounts, |c.mounts|);
  }

  lemma {:induction false} NothingDropped(cs: seq<Container>, initial: string)
    requires forall i :: 0 <= i < |cs| ==> HasNoMount(cs[i])
    ensures DropMounts(cs) == cs && LastSecret(cs, initial) == initial
  {
    if cs != [] {
      var init, c := cs[..|cs| - 1], cs[|cs| - 1];
      NothingDropped(init, initial);
      NothingDroppedMore(init, c, cs, initial);
    }
  }

  // ---- The delegate ----

  /** A chaperon before the server names it. */
  datatype Delegate = Delegate(ns: string, generateName: string, labels: map<string, string>,
                               annotations: map<string, string>, spec: Spec)

  function DelegateSpec(source: Pod): Spec {
    var constraints := if ANNOTATION_USE_CONSTRAINTS in source.annotations then NO_CONSTRAINTS
        else source.spec.constraints;
    var scheduler := if ANNOTATION_NO_RESERVATION in source.annotations then source.spec.schedulerName
        else CANDIDATE_SCHEDULER;
    WithoutServiceAccount(source.spec.(constraints := constraints)).(schedulerName := scheduler, priority := None)
  }

  /** `d` is a delegate of the proxy pod; only the labels depend on an iteration order. */
  ghost predicate Delegates(codec: Codec, re: Regexp, cluster: string, proxy: Pod, d: Delegate) {
    && GetSourcePod(codec, proxy).Some?
    && var source := GetSourcePod(codec, proxy).value;
       && d.ns == proxy.key.ns && d.generateName == proxy.key.name + "-"
       && (exists l :: Rewritten(re, source.labels, l) && d.labels == ReferenceLabels(l, proxy.uid, cluster))
       && d.annotations == ReferenceAnnotations(Others(source.annotations), proxy.key)
       && d.spec == DelegateSpec(source)
  }

  /** `compile` turns the text of a pattern into the pattern. */
  function Compiled(codec: Codec, compile: string -> Regexp, proxy: Pod): Regexp {
    match GetSourcePod(codec, proxy)
    case None => Absent
    case Some(source) => compile(Lookup(source.annotations, ANNOTATION_NO_PREFIX_REGEXP))
  }

  /** The delegate, field by field: scheduled by the candidate scheduler unless reservations are off, without
      priority, with the source's constraints unless they move to the proxy pod, its user annotations, and the
      reference to the proxy pod. */
  ghost predicate Resembles(source: Pod, proxy: Pod, cluster: string, d: Delegate) {
    && d.ns == proxy.key.ns && d.generateName == proxy.key.name + "-"
    && d.spec.schedulerName ==
         (if ANNOTATION_NO_RESERVATION in source.annotations then source.spec.schedulerName else "admiralty-candidate")
    && d.spec.priority == None && d.spec.grace == source.spec.grace && d.spec.other == source.spec.other
    && d.spec.constraints ==
         (if ANNOTATION_USE_CONSTRAINTS in source.annotations then Constraints(map[], [], None, [])
          else source.spec.constraints)
    && |d.spec.containers| == |source.spec.containers| && |d.spec.initContainers| == |source.spec.initContainers|
    && (forall i :: 0 <= i < |d.spec.containers| ==> d.spec.containers[i].name == source.spec.containers[i].name)
    && (forall i :: 0 <= i < |d.spec.initContainers| ==>
          d.spec.initContainers[i].name == source.spec.initContainers[i].name)
    && (forall k :: !IsOurs(k) ==> SameEntry(d.annotations, source.annotations, k))
    && (forall k :: k in d.annotations && IsOurs(k) ==> k in {ANNOTATION_PARENT_NAMESPACE, ANNOTATION_PARENT_NAME})
    && Lookup(d.annotations, ANNOTATION_PARENT_NAMESPACE) == proxy.key.ns
    && Lookup(d.annotations, ANNOTATION_PARENT_NAME) == proxy.key.name
    && Lookup(d.labels, LABEL_PARENT_UID) == proxy.uid && Lookup(d.labels, LABEL_PARENT_CLUSTER) == cluster
  }

  lemma ReferenceFate(labels: map<string, string>, annotations: map<string, string>, uid: string, cluster: string,
                      parent: Key)
    ensures var l, a := ReferenceLabels(labels, uid, cluster), ReferenceAnnotations(Others(annotations), parent);
      && (forall k :: !IsOurs(k) ==> SameEntry(a, annotations, k))
      && (forall k :: k in a && IsOurs(k) ==> k in {ANNOTATION_PARENT_NAMESPACE, ANNOTATION_PARENT_NAME})
      && Lookup(a, ANNOTATION_PARENT_NAMESPACE) == parent.ns && Lookup(a, ANNOTATION_PARENT_NAME) == parent.name
      && Lookup(l, LABEL_PARENT_UID) == uid && Lookup(l, LABEL_PARENT_CLUSTER) == cluster
  {
    OurKeys();
  }

  lemma DelegateFate(codec: Codec, re: Regexp, cluster: string, proxy: Pod, d: Delegate)
    requires Delegates(codec, re, cluster, proxy, d)
    ensures exists source :: GetSourcePod(codec, proxy) == Some(source) && Resembles(source, proxy, cluster, d)
  {
    var source := GetSourcePod(codec, proxy).value;
    var l :| Rewritten(re, source.labels, l) && d.labels == ReferenceLabels(l, proxy.uid, cluster);
    ReferenceFate(l, source.annotations, proxy.uid, cluster, proxy.key);
    DropMountsAt(source.spec.containers);
    DropMountsAt(source.spec.initContainers);
    assert Resembles(source, proxy, cluster, d);
  }

  /** Edits the copied specification field by field. */
  method MakeSpec(source: Pod) returns (spec: Spec)
    ensures spec == DelegateSpec(source)
  {
    spec := source.spec;
    if ANNOTATION_USE_CONSTRAINTS in source.annotations {
      spec := spec.(constraints := NO_CONSTRAINTS);
    }
    spec := RemoveServiceAccount(spec);
    if ANNOTATION_NO_RESERVATION !in source.annotations {
      spec := spec.(schedulerName := CANDIDATE_SCHEDULER);
    }
    spec := spec.(priority := None);
  }

  method Refer(proxy: Pod, labels: map<string, string>, annotations: map<string, string>, cluster: string)
    returns (l: map<string, string>, a: map<string, string>)
    ensures l == ReferenceLabels(labels, proxy.uid, cluster) && a == ReferenceAnnotations(annotations, proxy.key)
  {
    var meta := new Meta(proxy.key, "", labels, annotations);
    var parent := new Meta(proxy.key, proxy.uid, proxy.labels, proxy.annotations);
    AddRemoteControllerReference(meta, parent, cluster);
    l, a := meta.labels, meta.annotations;
  }

  method MakeDelegatePod(codec: Codec, compile: string -> Regexp, proxy: Pod, cluster: string)
    returns (d: Option<Delegate>)
    ensures d.None? <==> GetSourcePod(codec, proxy).None? || Compiled(codec, compile, proxy).Invalid?
    ensures d.Some? ==> Delegates(codec, Compiled(codec, compile, proxy), cluster, proxy, d.value)
    ensures d.Some? ==>
      exists source :: GetSourcePod(codec, proxy) == Some(source) && Resembles(source, proxy, cluster, d.value)
  {
    if ANNOTATION_MANIFEST !in proxy.annotations {
      return None;
    }
    var decoded := codec.decode(proxy.annotations[ANNOTATION_MANIFEST]);
    if decoded.None? {
      return None;
    }
    var source := decoded.value;
    var _, annotations := SplitLabelsOrAnnotations(source.annotations);
    var labels, _ := ChangeLabels(source.labels, compile(Lookup(source.annotations, ANNOTATION_NO_PREFIX_REGEXP)));
    if labels.None? {
      return None;
    }
    var referenced, referring := Refer(proxy, labels.value, annotations, cluster);
    var spec := MakeSpec(source);
    d := Some(Delegate(proxy.key.ns, proxy.key.name + "-", referenced, referring, spec));
    DelegateFate(codec, Compiled(codec, compile, proxy), cluster, proxy, d.value);
  }

  /** Storing a delegate is the creation step of the election: it starts with no mark of the protocol. */
  lemma DelegateIsNewCandidate(cfg: ElectionModel.Config, s: ElectionModel.State, codec: Codec, re: Regexp, proxy: Pod,
                               d: Delegate,
                               o: ChaperonServer.Chaperon)
    requires Delegates(codec, re, cfg.clusterName, proxy, d)
    requires proxy.uid in s.cycles && s.cycles[proxy.uid].key == proxy.key
    requires o.key.ns == d.ns && o.labels == d.labels && o.annotations == d.annotations
    requires o.status == ChaperonServer.Status("", [])
    ensures ElectionModel.IsNewCandidate(cfg, s, proxy.uid, o)
    ensures ANNOTATION_IS_RESERVED !in d.annotations && ANNOTATION_IS_ALLOWED !in d.annotations
    ensures ANNOTATION_MISSING_SINCE !in d.annotations
  {
    OurKeys();
    var n := |KEY_PREFIX|;
    assert ANNOTATION_IS_RESERVED[n] == 'i' && ANNOTATION_IS_ALLOWED[n] == 'i'
        && ANNOTATION_MISSING_SINCE[n + 1] == 'o';
    assert ANNOTATION_PARENT_NAME[n] == 'p' && ANNOTATION_PARENT_NAMESPACE[n] == 'p'
        && ANNOTATION_PARENT_NAME[n + 1] == 'a'
           && ANNOTATION_PARENT_NAMESPACE[n + 1] == 'a';
  }

  lemma ReferencedStillMatches(selector: map<string, string>, labels: map<string, string>, uid: string, cluster: string)
    requires Matches(selector, labels) && LABEL_PARENT_UID !in selector && LABEL_PARENT_CLUSTER !in selector
    ensures Matches(selector, ReferenceLabels(labels, uid, cluster))
  {
  }

  /** A service that selected the source pod, rerouted with the same pattern, selects its delegate, given
      that no label conflicts and the selector stays clear of the reference's own labels. */
  lemma DelegateIsSelected(codec: Codec, re: Regexp, cluster: string, proxy: Pod, d: Delegate, source: Pod,
                           selector: map<string, string>, rerouted: map<string, string>)
    requires Delegates(codec, re, cluster, proxy, d) && GetSourcePod(codec, proxy) == Some(source)
    requires Matches(selector, source.labels) && !Conflict(re, selector, source.labels)
    requires Rewritten(re, selector, rerouted)
    requires LABEL_PARENT_UID !in rerouted && LABEL_PARENT_CLUSTER !in rerouted
    ensures Matches(rerouted, d.labels)
  {
    var l :| Rewritten(re, source.labels, l) && d.labels == ReferenceLabels(l, proxy.uid, cluster);
    MatchesAfter(re, selector, source.labels, rerouted, l);
    ReferencedStillMatches(rerouted, l, proxy.uid, cluster);
  }

  // ---- Where the scheduling constraints go ----

  /** The delegate, or the proxy pod on top of what it always has, carries the source pod's constraints. */
  predicate Carried(source: Pod, proxy: Pod, d: Delegate) {
    d.spec.constraints == source.spec.constraints || proxy.spec.constraints == OnTop(source.spec.constraints)
  }

  predicate BothAnnotations(p: Pod) {
    ANNOTATION_USE_CONSTRAINTS in p.annotations && ANNOTATION_PROXY_CONSTRAINTS in p.annotations
  }

  lemma DelegateConstraints(source: Pod)
    ensures DelegateSpec(source).constraints ==
      if ANNOTATION_USE_CONSTRAINTS in source.annotations then NO_CONSTRAINTS else source.spec.constraints
    ensures DelegateSpec(source).containers == DropMounts(source.spec.containers)
    ensures DelegateSpec(source).other == source.spec.other
  {
  }

  lemma ProxyPodConstraints(codec: Codec, known: map<string, seq<string>>, p: Pod, proxy: Pod)
    requires ANNOTATION_ELECT in p.annotations && ANNOTATION_MANIFEST !in p.annotations
    requires Mutated(codec, known, p) == Some(proxy)
    ensures Some(proxy.spec.constraints) == ProxyConstraints(codec, p.annotations, p)
  {
    WebhookKeys();
  }

  /** After any number of admissions: without the annotation that moves them, the delegate has exactly the
      source's constraints; with it the delegate has none, and the proxy pod has them on top of the base
      ones, unless separate constraints were given for it. */
  lemma ConstraintsSplit(codec: Codec, re: Regexp, known: map<string, seq<string>>, cluster: string, p: Pod, n: nat,
                         proxy: Pod, d: Delegate)
    requires RoundTrips(codec) && KnownAreOurs(known) && n >= 1
    requires ANNOTATION_ELECT in p.annotations && ANNOTATION_MANIFEST !in p.annotations
    requires Admitting(codec, known, p, n) == Some(proxy) && Delegates(codec, re, cluster, proxy, d)
    ensures d.spec.constraints == if ANNOTATION_USE_CONSTRAINTS in p.annotations then NO_CONSTRAINTS
        else p.spec.constraints
    ensures ANNOTATION_PROXY_CONSTRAINTS !in p.annotations ==>
      proxy.spec.constraints == if ANNOTATION_USE_CONSTRAINTS in p.annotations then OnTop(p.spec.constraints) else BASE
    ensures ANNOTATION_PROXY_CONSTRAINTS in p.annotations ==>
      exists c :: codec.decodeConstraints(p.annotations[ANNOTATION_PROXY_CONSTRAINTS]) == Some(c)
          && proxy.spec.constraints == OnTop(c)
    ensures d.spec.containers == DropMounts(p.spec.containers) && d.spec.other == p.spec.other
    ensures d.annotations == ReferenceAnnotations(Others(p.annotations), p.key)
  {
    AdmittingManyTimes(codec, known, p, n);
    SourceRecovered(codec, known, p, n);
    DelegateConstraints(p);
    ProxyPodConstraints(codec, known, p, proxy);
  }

  /** The source's constraints are lost exactly when both annotations are present, there are constraints
      to lose and the separate ones do not amount to the same. */
  lemma ConstraintsCarried(codec: Codec, re: Regexp, known: map<string, seq<string>>, cluster: string, p: Pod, n: nat,
                           proxy: Pod, d: Delegate)
    requires RoundTrips(codec) && KnownAreOurs(known) && n >= 1
    requires ANNOTATION_ELECT in p.annotations && ANNOTATION_MANIFEST !in p.annotations
    requires Admitting(codec, known, p, n) == Some(proxy) && Delegates(codec, re, cluster, proxy, d)
    ensures Carried(p, proxy, d) <==>
      || !BothAnnotations(p)
      || p.spec.constraints == NO_CONSTRAINTS
      || exists c :: codec.decodeConstraints(p.annotations[ANNOTATION_PROXY_CONSTRAINTS]) == Some(c)
          && OnTop(c) == OnTop(p.spec.constraints)
  {
    ConstraintsSplit(codec, re, known, cluster, p, n, proxy, d);
  }
}
