/** Following and rerouting services. */
module ServiceFollow {
  import opened Kube
  import opened RemoteControl
  import opened Labels

  const ANNOTATION_ORIGINAL_SELECTOR := KEY_PREFIX + "original-selector"
  const ANNOTATION_CILIUM := "io.cilium/global-service"

  /** `ports` stands for the fields the controller copies and compares without looking inside. */
  datatype Spec = Spec(selector: map<string, string>, isExternalName: bool, clusterIP: string, clusterIPs: seq<string>,
                       ports: string)

  datatype Service = Service(uid: string, finalizers: seq<string>, terminating: bool, labels: map<string, string>,
                             annotations: map<string, string>, spec: Spec)

  datatype Pod = Pod(labels: map<string, string>, isProxy: bool)

  /** How selectors are written to and read from an annotation. */
  datatype Codec = Codec(encode: map<string, string> -> string, decode: string -> Option<map<string, string>>)

  ghost predicate RoundTrips(codec: Codec) {
    forall m :: codec.decode(codec.encode(m)) == Some(m)
  }

  // ---- Which pods a service selected before it was rerouted ----

  /** The part of the selector outside the domain if there is one, else the saved selector. */
  function Recovered(codec: Codec, s: Service): Option<map<string, string>> {
    if Others(s.spec.selector) != map[] then Some(Others(s.spec.selector))
    else if ANNOTATION_ORIGINAL_SELECTOR in s.annotations then codec.decode(s.annotations[ANNOTATION_ORIGINAL_SELECTOR])
    else None
  }

  datatype Verdict = Error | Verdict(follow: bool, originalSelector: string)

  ghost predicate SelectsProxy(pods: seq<Pod>, selector: map<string, string>) {
    exists p :: p in pods && p.isProxy && Matches(selector, p.labels)
  }

  method ShouldFollow(codec: Codec, s: Service, pods: seq<Pod>) returns (v: Verdict)
    ensures s.spec.selector == map[] ==> v == Verdict(false, "")
    ensures s.spec.selector != map[] && Recovered(codec, s).None? ==> v.Error?
    ensures s.spec.selector != map[] && Recovered(codec, s).Some? ==>
      v == Verdict(SelectsProxy(pods, Recovered(codec, s).value), codec.encode(Recovered(codec, s).value))
    ensures (exists k :: k in s.spec.selector && !IsOurs(k)) ==>
      v == Verdict(SelectsProxy(pods, Others(s.spec.selector)), codec.encode(Others(s.spec.selector)))
    ensures s.spec.selector != map[] && (forall k :: k in s.spec.selector ==> IsOurs(k)) ==>
      var saved := if ANNOTATION_ORIGINAL_SELECTOR in s.annotations
                   then codec.decode(s.annotations[ANNOTATION_ORIGINAL_SELECTOR]) else None;
      v == if saved.None? then Error else Verdict(SelectsProxy(pods, saved.value), codec.encode(saved.value))
  {
    if s.spec.selector == map[] {
      return Verdict(false, "");
    }
    var selector: map<string, string> := map[];
    var todo := s.spec.selector.Keys;
    while todo != {}
      invariant todo <= s.spec.selector.Keys
      invariant selector == map k | k in s.spec.selector && k !in todo && !IsOurs(k) :: s.spec.selector[k]
    {
      var k :| k in todo;
      if !HasPrefix(k, KEY_PREFIX) {
        selector := selector[k := s.spec.selector[k]];
      }
      todo := todo - {k};
    }
    assert selector == Others(s.spec.selector);
    assert selector == map[] <==> forall k :: k in s.spec.selector ==> IsOurs(k) by {
      if k :| k in s.spec.selector && !IsOurs(k) {
        assert k in selector;
      }
    }
    if selector == map[] {
      if ANNOTATION_ORIGINAL_SELECTOR !in s.annotations {
        return Error;
      }
      var decoded := codec.decode(s.annotations[ANNOTATION_ORIGINAL_SELECTOR]);
      if decoded.None? {
        return Error;
      }
      selector := decoded.value;
    }
    for i := 0 to |pods|
      invariant !SelectsProxy(pods[..i], selector)
    {
      assert pods[..i + 1] == pods[..i] + [pods[i]];
      if Matches(selector, pods[i].labels) && pods[i].isProxy {
        return Verdict(true, codec.encode(selector));
      }
    }
    assert pods[..|pods|] == pods;
    return Verdict(false, codec.encode(selector));
  }

  // ---- The local service ----

  /** An absent saved selector reads as the empty text. */
  function Marked(a: map<string, string>, originalSelector: string): map<string, string> {
    var m := a[ANNOTATION_CILIUM := "true"][ANNOTATION_GLOBAL := "true"];
    if Lookup(m, ANNOTATION_ORIGINAL_SELECTOR) == originalSelector then m
        else m[ANNOTATION_ORIGINAL_SELECTOR := originalSelector]
  }

  function Guarded(s: Service, finalizer: string): Service {
    if finalizer in s.finalizers then s
    else s.(finalizers := s.finalizers + [finalizer], labels := s.labels[LABEL_HAS_FINALIZER := "true"])
  }

  /** The local service after a run that follows it. */
  ghost predicate Prepared(finalizer: string, reroute: bool, re: Regexp, originalSelector: string, s: Service,
                           s': Service) {
    && s' == Guarded(s, finalizer).(annotations := Marked(s.annotations, originalSelector),
                                    spec := s.spec.(selector := s'.spec.selector))
    && (if reroute then Rewritten(re, s.spec.selector, s'.spec.selector) else s'.spec.selector == s.spec.selector)
  }

  /** The finalizer is there, appended with the label that says so if it was missing. */
  predicate AddsFinalizer(finalizer: string, s: Service, s': Service) {
    if finalizer in s.finalizers then s'.finalizers == s.finalizers && s'.labels == s.labels
    else s'.finalizers == s.finalizers + [finalizer] && s'.labels == s.labels[LABEL_HAS_FINALIZER := "true"]
  }

  lemma PreparedAdds(finalizer: string, reroute: bool, re: Regexp, originalSelector: string, s: Service, s': Service)
    requires Prepared(finalizer, reroute, re, originalSelector, s, s')
    ensures AddsFinalizer(finalizer, s, s')
  {
  }

  lemma KeptAll(re: Regexp, m: map<string, string>)
    requires forall k :: k in m ==> Kept(re, k, m[k])
    ensures forall out :: Rewritten(re, m, out) ==> out == m
    ensures Rewritten(re, m, m)
  {
    forall out | Rewritten(re, m, out) ensures out == m {
      forall n | n in out ensures n in m && out[n] == m[n] {
        var k :| k in m && Rekey(re, k, m[k]) == n && m[k] == out[n];
      }
      forall k | k in m ensures k in out {
        assert Rekey(re, k, m[k]) in out;
      }
    }
    forall n | n in m ensures exists k :: k in m && Rekey(re, k, m[k]) == n && m[k] == m[n] {
      assert Rekey(re, n, m[n]) == n;
    }
  }

  method Mark(a: map<string, string>, originalSelector: string) returns (m: map<string, string>, needUpdate: bool)
    ensures m == Marked(a, originalSelector) && (needUpdate <==> m != a)
    ensures Lookup(m, ANNOTATION_CILIUM) == "true" && Lookup(m, ANNOTATION_GLOBAL) == "true"
    ensures Lookup(m, ANNOTATION_ORIGINAL_SELECTOR) == originalSelector
    ensures forall k :: k !in {ANNOTATION_CILIUM, ANNOTATION_GLOBAL, ANNOTATION_ORIGINAL_SELECTOR} ==>
      SameEntry(m, a, k)
  {
    m, needUpdate := a, false;
    ServiceKeys();
    if Lookup(m, ANNOTATION_CILIUM) != "true" {
      needUpdate := true;
      m := m[ANNOTATION_CILIUM := "true"];
    }
    if Lookup(m, ANNOTATION_GLOBAL) != "true" {
      needUpdate := true;
      m := m[ANNOTATION_GLOBAL := "true"];
    }
    assert m == a[ANNOTATION_CILIUM := "true"][ANNOTATION_GLOBAL := "true"];
    if originalSelector != Lookup(m, ANNOTATION_ORIGINAL_SELECTOR) {
      needUpdate := true;
      m := m[ANNOTATION_ORIGINAL_SELECTOR := originalSelector];
    }
  }

  /** Edits a copy field by field; no update is needed only if the copy is still the service. */
  method Prepare(finalizer: string, reroute: bool, re: Regexp, originalSelector: string, s: Service)
    returns (ok: bool, needUpdate: bool, s': Service)
    ensures ok <==> !(reroute && re.Invalid?)
    ensures ok ==> Prepared(finalizer, reroute, re, originalSelector, s, s')
    ensures ok && !needUpdate ==> s' == s
  {
    var hasFinalizer, _ := HasFinalizer(s.finalizers, finalizer);
    s', needUpdate, ok := Guarded(s, finalizer), !hasFinalizer, true;
    var annotations, marked := Mark(s.annotations, originalSelector);
    needUpdate := needUpdate || marked;
    s' := s'.(annotations := annotations);
    if reroute {
      var selector, changed := ChangeLabels(s'.spec.selector, re);
      if selector.None? {
        return false, needUpdate, s';
      }
      if changed {
        needUpdate := true;
        s' := s'.(spec := s'.spec.(selector := selector.value));
      } else {
        KeptAll(re, s.spec.selector);
      }
    }
  }

  lemma ServiceKeys()
    ensures ANNOTATION_CILIUM != ANNOTATION_GLOBAL && ANNOTATION_CILIUM != ANNOTATION_ORIGINAL_SELECTOR
    ensures ANNOTATION_GLOBAL != ANNOTATION_ORIGINAL_SELECTOR
  {
    assert ANNOTATION_CILIUM[0] == 'i' && ANNOTATION_GLOBAL[0] == 'm' && ANNOTATION_ORIGINAL_SELECTOR[0] == 'm';
    assert |ANNOTATION_GLOBAL| != |ANNOTATION_ORIGINAL_SELECTOR|;
  }

  // ---- The run ----

  function MakeRemote(clusterName: string, key: Key, s: Service): Service {
    Service("", [], false, ReferenceLabels(s.labels, s.uid, clusterName),
            ReferenceAnnotations(s.annotations[ANNOTATION_IS_DELEGATE := ""], key),
            if s.spec.clusterIP != "None" then s.spec.(clusterIP := "", clusterIPs := []) else s.spec)
  }

  /** The addresses are each cluster's own, except that they are reset for an external name. */
  function RemoteSpec(local: Spec, remote: Spec): Spec {
    if local.isExternalName then local else local.(clusterIP := remote.clusterIP, clusterIPs := remote.clusterIPs)
  }

  function CopyAfter(clusterName: string, key: Key, local: Service, remote: Option<Service>): Service {
    if remote.None? then MakeRemote(clusterName, key, local)
    else
      var spec := RemoteSpec(local.spec, remote.value.spec);
      if remote.value.spec == spec && Lookup(remote.value.labels, LABEL_PARENT_CLUSTER) == clusterName then remote.value
      else remote.value.(spec := spec, labels := remote.value.labels[LABEL_PARENT_CLUSTER := clusterName])
  }

  function Deleted(s: Service): Option<Service> {
    if s.finalizers == [] then None else Some(s.(terminating := true))
  }

  predicate Owns(local: Service, remote: Service) {
    ParentControlsChild(remote.labels, remote.annotations, local.uid)
  }

  /** The finalizer is taken from where it first occurs, and a service without any disappears. */
  ghost predicate Released(finalizer: string, s: Service, after: Option<Service>) {
    if finalizer !in s.finalizers then after == Some(s)
    else
      exists j :: 0 <= j < |s.finalizers| && s.finalizers[j] == finalizer && finalizer !in s.finalizers[..j]
                  && after == if |s.finalizers| == 1 then None else Some(s.(finalizers := Without(s.finalizers, j)))
  }

  /** What a run that follows leaves in the target: the local specification, with addresses of the copy's own
      (none yet on creation, unless headless; the local ones for an external name); the reference and the cluster
      name; on creation the local labels and annotations and the delegate mark; otherwise the copy's own. */
  ghost predicate Copied(clusterName: string, key: Key, local: Service, before: Option<Service>, copy: Service) {
    && copy.spec.ports == local.spec.ports && copy.spec.selector == local.spec.selector
    && copy.spec.isExternalName == local.spec.isExternalName
    && Lookup(copy.labels, LABEL_PARENT_CLUSTER) == clusterName
    && if before.None? then CopiedNew(key, local, copy)
       else
         && copy == before.value.(spec := copy.spec, labels := copy.labels)
         && (forall k :: k != LABEL_PARENT_CLUSTER ==> SameEntry(copy.labels, before.value.labels, k))
         && (copy.spec.clusterIP, copy.spec.clusterIPs) ==
              if local.spec.isExternalName then (local.spec.clusterIP, local.spec.clusterIPs)
              else (before.value.spec.clusterIP, before.value.spec.clusterIPs)
  }

  ghost predicate CopiedNew(key: Key, local: Service, copy: Service) {
    && copy.finalizers == [] && !copy.terminating
    && (copy.spec.clusterIP, copy.spec.clusterIPs) ==
         (if local.spec.clusterIP == "None" then ("None", local.spec.clusterIPs) else ("", []))
    && Lookup(copy.labels, LABEL_PARENT_UID) == local.uid && ANNOTATION_IS_DELEGATE in copy.annotations
    && Lookup(copy.annotations, ANNOTATION_PARENT_NAMESPACE) == key.ns
    && Lookup(copy.annotations, ANNOTATION_PARENT_NAME) == key.name
    && (forall k :: k !in {LABEL_PARENT_UID, LABEL_PARENT_CLUSTER} ==> SameEntry(copy.labels, local.labels, k))
    && (forall k :: k !in {ANNOTATION_IS_DELEGATE, ANNOTATION_PARENT_NAMESPACE, ANNOTATION_PARENT_NAME} ==>
          SameEntry(copy.annotations, local.annotations, k))
  }

  lemma ReferenceKeys()
    ensures ANNOTATION_IS_DELEGATE != ANNOTATION_PARENT_NAMESPACE && ANNOTATION_IS_DELEGATE != ANNOTATION_PARENT_NAME
  {
    assert ANNOTATION_IS_DELEGATE[|KEY_PREFIX|] == 'i';
    assert ANNOTATION_PARENT_NAMESPACE[|KEY_PREFIX|] == 'p' && ANNOTATION_PARENT_NAME[|KEY_PREFIX|] == 'p';
  }

  lemma CopyAfterCopies(clusterName: string, key: Key, local: Service, before: Option<Service>)
    ensures Copied(clusterName, key, local, before, CopyAfter(clusterName, key, local, before))
  {
    OurKeys();
    ReferenceKeys();
  }

  /** There is nothing to write: the specification agrees, apart from the copy's own addresses, and the cluster
      name is recorded. */
  ghost predicate UpToDate(clusterName: string, local: Service, copy: Service) {
    && copy.spec.ports == local.spec.ports && copy.spec.selector == local.spec.selector
    && copy.spec.isExternalName == local.spec.isExternalName
    && (local.spec.isExternalName ==>
          copy.spec.clusterIP == local.spec.clusterIP && copy.spec.clusterIPs == local.spec.clusterIPs)
    && Lookup(copy.labels, LABEL_PARENT_CLUSTER) == clusterName
  }

  datatype Outcome = Done | Failed

  /** The services of one name in the source cluster and in one target. */
  class Reconciler {
    const clusterName: string
    const finalizer: string
    const reroute: bool
    const codec: Codec
    var pods: seq<Pod>
    var local: Option<Service>
    var remote: Option<Service>

    constructor (clusterName: string, finalizer: string, reroute: bool, codec: Codec)
      ensures this.clusterName == clusterName && this.finalizer == finalizer && this.reroute == reroute
      ensures this.codec == codec
      ensures pods == [] && local == None && remote == None
    {
      this.clusterName, this.finalizer, this.reroute, this.codec := clusterName, finalizer, reroute, codec;
      pods, local, remote := [], None, None;
    }

    /** The cases in which the controller only looks. */
    ghost predicate HandsOff(s: Service)
      reads this
    {
      || ANNOTATION_IS_DELEGATE in s.annotations
      || (s.spec.selector != map[] && Recovered(codec, s).None?)
      || (remote.Some? && !Owns(s, remote.value))
    }

    ghost predicate Follows(s: Service)
      reads this
    {
      s.spec.selector != map[] && Recovered(codec, s).Some? && SelectsProxy(pods, Recovered(codec, s).value)
    }

    /** `re` is the pattern in the service's annotation, compiled. */
    method Handle(key: Key, re: Regexp) returns (outcome: Outcome)
      modifies this`local, this`remote
      ensures old(local).None? ==>
        local == None && remote ==
          if old(remote).Some? && IsRemoteControlled(old(remote).value.labels,
                                                     clusterName) then Deleted(old(remote).value) else old(remote)
      ensures old(local).Some? && old(HandsOff(local.value)) ==> local == old(local) && remote == old(remote)
      ensures old(local).Some? && ANNOTATION_IS_DELEGATE in old(local).value.annotations ==>
        local == old(local) && remote == old(remote)
      ensures old(local).Some? && old(remote).Some?
              && !ParentControlsChild(old(remote).value.labels, old(remote).value.annotations, old(local).value.uid) ==>
        local == old(local) && remote == old(remote)
      ensures old(remote).Some? && remote != old(remote) && old(local).Some? && old(local).value.terminating ==>
        if old(remote).value.finalizers == [] then remote == None
        else remote == Some(old(remote).value.(terminating := true))
      ensures old(local).Some? && !old(HandsOff(local.value)) && old(local).value.terminating ==>
        if old(remote).Some? then local == old(local) && remote == Deleted(old(remote).value)
        else remote == None && Released(finalizer, old(local).value, local)
      ensures old(local).Some? && !old(HandsOff(local.value)) && !old(local).value.terminating ==>
        if old(Follows(local.value)) && !(reroute && re.Invalid?) then
          && local.Some?
          && Prepared(finalizer, reroute, re, codec.encode(Recovered(codec, old(local).value).value), old(local).value,
                      local.value)
          && remote.Some? && Copied(clusterName, key, local.value, old(remote), remote.value)
          && AddsFinalizer(finalizer, old(local).value, local.value)
          && (old(remote).Some? && UpToDate(clusterName, local.value, old(remote).value) ==> remote == old(remote))
        else local == old(local) && remote == old(remote)
    {
      if local.None? {
        if remote.Some? && IsRemoteControlled(remote.value.labels, clusterName) {
          remote := Deleted(remote.value);
        }
        return Done;
      }
      var s := local.value;
      if ANNOTATION_IS_DELEGATE in s.annotations {
        return Done;
      }
      var hasFinalizer, j := HasFinalizer(s.finalizers, finalizer);
      var verdict := ShouldFollow(codec, s, pods);
      if verdict.Error? {
        return Failed;
      }
      if remote.Some? && !Owns(s, remote.value) {
        return Done;
      }
      if s.terminating {
        if remote.Some? {
          remote := Deleted(remote.value);
        } else if hasFinalizer {
          Release(j);
        }
      } else if verdict.follow {
        outcome := Follow(key, re, verdict.originalSelector);
        return;
      }
      return Done;
    }

    method Release(j: nat)
      requires local.Some? && local.value.terminating && j < |local.value.finalizers|
      modifies this`local
      ensures var s := old(local).value;
        local == if |s.finalizers| == 1 then None else Some(s.(finalizers := Without(s.finalizers, j)))
    {
      var s := local.value.(finalizers := Without(local.value.finalizers, j));
      local := if s.finalizers == [] then None else Some(s);
    }

    /** First the local service, then its copy, which is only written if it differs. */
    method Follow(key: Key, re: Regexp, originalSelector: string) returns (outcome: Outcome)
      requires local.Some?
      modifies this`local, this`remote
      ensures reroute && re.Invalid? ==> local == old(local) && remote == old(remote)
      ensures !(reroute && re.Invalid?) ==>
        && local.Some? && Prepared(finalizer, reroute, re, originalSelector, old(local).value, local.value)
        && AddsFinalizer(finalizer, old(local).value, local.value)
        && remote.Some? && Copied(clusterName, key, local.value, old(remote), remote.value)
        && (old(remote).Some? && UpToDate(clusterName, local.value, old(remote).value) ==> remote == old(remote))
    {
      var ok, needUpdate, s := Prepare(finalizer, reroute, re, originalSelector, local.value);
      if !ok {
        return Failed;
      }
      if needUpdate {
        local := Some(s);
      }
      PreparedAdds(finalizer, reroute, re, originalSelector, old(local).value, local.value);
      CopyAfterCopies(clusterName, key, local.value, remote);
      if remote.None? {
        remote := Some(MakeRemote(clusterName, key, local.value));
      } else {
        var spec := local.value.spec;
        if !spec.isExternalName {
          spec := spec.(clusterIP := remote.value.spec.clusterIP, clusterIPs := remote.value.spec.clusterIPs);
        }
        if remote.value.spec != spec || Lookup(remote.value.labels, LABEL_PARENT_CLUSTER) != clusterName {
          remote := Some(remote.value.(spec := spec,
                                       labels := remote.value.labels[LABEL_PARENT_CLUSTER := clusterName]));
        }
      }
      return Done;
    }
  }

  // ---- Convergence ----

  lemma MarkedTwice(a: map<string, string>, originalSelector: string)
    ensures Marked(Marked(a, originalSelector), originalSelector) == Marked(a, originalSelector)
  {
    ServiceKeys();
  }

  /** A second run that finds the same original selector has nothing to prepare. */
  lemma PreparedTwice(finalizer: string, reroute: bool, re: Regexp, originalSelector: string, s: Service, s': Service,
                      s'': Service)
    requires Prepared(finalizer, reroute, re, originalSelector, s, s')
    requires Prepared(finalizer, reroute, re, originalSelector, s', s'')
    ensures s'' == s'
  {
    MarkedTwice(s.annotations, originalSelector);
    assert finalizer in s'.finalizers;
    if reroute {
      ChangeLabelsIdempotent(re, s.spec.selector, s'.spec.selector, s''.spec.selector);
    }
  }

  /** An external name that still has cluster addresses, which the API server does not store. */
  predicate Inconsistent(spec: Spec) {
    spec.isExternalName && spec.clusterIP != "None" && (spec.clusterIP != "" || spec.clusterIPs != [])
  }

  /** After a run that follows, the copy is owned, and a second run prepares nothing.  The copy is then up to date,
      so that the second run does not write it either, unless it was just created from an inconsistent service. */
  lemma FollowConverges(clusterName: string, key: Key, finalizer: string, reroute: bool, re: Regexp,
                        originalSelector: string, s: Service, s': Service, s'': Service, before: Option<Service>,
                        copy: Service)
    requires before.Some? ==> ParentControlsChild(before.value.labels, before.value.annotations, s.uid)
    requires Prepared(finalizer, reroute, re, originalSelector, s, s') && Copied(clusterName, key, s', before, copy)
    requires Prepared(finalizer, reroute, re, originalSelector, s', s'')
    ensures s'' == s' && (UpToDate(clusterName, s'', copy) <==> before.Some? || !Inconsistent(s'.spec))
    ensures ParentControlsChild(copy.labels, copy.annotations, s'.uid)
  {
    OurKeys();
    PreparedTwice(finalizer, reroute, re, originalSelector, s, s', s'');
    assert s'.uid == s.uid;
    if before.Some? {
      assert SameEntry(copy.labels, before.value.labels, LABEL_PARENT_UID);
    }
  }

  // ---- The saved selector ----

  /** A run of the controller on a service, seen from the source cluster: it follows the service if its
      recovered selector says so, and otherwise leaves it alone.  Users may reapply the original selector. */
  ghost predicate Step(codec: Codec, finalizer: string, reroute: bool, re: Regexp, original: map<string, string>,
                       s: Service, s': Service) {
    || s' == s
    || s' == s.(spec := s.spec.(selector := original))
    || (&& s.spec.selector != map[] && Recovered(codec, s).Some?
        && Prepared(finalizer, reroute, re, codec.encode(Recovered(codec, s).value), s, s'))
  }

  ghost predicate Run(codec: Codec, finalizers: seq<string>, reroute: bool, re: Regexp, original: map<string, string>,
                      states: seq<Service>) {
    && |states| == |finalizers| + 1 && states[0].spec.selector == original
    && forall i :: 0 <= i < |finalizers| ==> Step(codec, finalizers[i], reroute, re, original, states[i], states[i + 1])
  }

  /** The pattern leaves alone all of the selector or nothing of it. */
  predicate Uniform(re: Regexp, selector: map<string, string>) {
    || (forall k :: k in selector ==> Kept(re, k, selector[k]))
    || (forall k :: k in selector ==> !Kept(re, k, selector[k]))
  }

  ghost predicate Outside(selector: map<string, string>) {
    selector != map[] && forall k :: k in selector ==> !IsOurs(k)
  }

  /** Either the selector is the original, or all of it is in the domain and the original is saved. */
  ghost predicate Remembers(codec: Codec, re: Regexp, original: map<string, string>, s: Service) {
    || s.spec.selector == original
    || (&& s.spec.selector != map[]
        && (forall k :: k in s.spec.selector ==> IsOurs(k) && Rekey(re, k, s.spec.selector[k]) == k)
        && Has(s.annotations, ANNOTATION_ORIGINAL_SELECTOR) == Some(codec.encode(original)))
  }

  function Has(m: map<string, string>, k: string): Option<string> {
    if k in m then Some(m[k]) else None
  }

  lemma RemembersRecovers(codec: Codec, re: Regexp, original: map<string, string>, s: Service)
    requires RoundTrips(codec) && Outside(original) && Remembers(codec, re, original, s)
    ensures Recovered(codec, s) == Some(original)
  {
    if s.spec.selector == original {
      assert Others(original) == original;
    } else {
      assert Others(s.spec.selector) == map[];
    }
  }

  lemma MarkedSaves(a: map<string, string>, text: string)
    ensures Lookup(Marked(a, text), ANNOTATION_ORIGINAL_SELECTOR) == text
    ensures text != "" ==> Has(Marked(a, text), ANNOTATION_ORIGINAL_SELECTOR) == Some(text)
  {
  }

  lemma RewrittenInside(re: Regexp, m: map<string, string>, out: map<string, string>)
    requires Rewritten(re, m, out) && forall k :: k in m ==> !Kept(re, k, m[k])
    requires m != map[]
    ensures out != map[] && forall n :: n in out ==> IsOurs(n) && Rekey(re, n, out[n]) == n
  {
    var k :| k in m;
    assert Rekey(re, k, m[k]) in out;
    forall n | n in out ensures IsOurs(n) && Rekey(re, n, out[n]) == n {
      var k :| k in m && Rekey(re, k, m[k]) == n && m[k] == out[n];
      NewKeyTwice(k);
    }
  }

  lemma RewrittenFixed(re: Regexp, m: map<string, string>, out: map<string, string>)
    requires Rewritten(re, m, out) && forall k :: k in m ==> Rekey(re, k, m[k]) == k
    ensures out == m
  {
    forall n | n in out ensures n in m && out[n] == m[n] {
      var k :| k in m && Rekey(re, k, m[k]) == n && m[k] == out[n];
    }
    forall k | k in m ensures k in out {
      assert Rekey(re, k, m[k]) in out;
    }
  }

  lemma StepRemembers(codec: Codec, finalizer: string, reroute: bool, re: Regexp, original: map<string, string>,
                      s: Service, s': Service)
    requires RoundTrips(codec) && Outside(original) && codec.encode(original) != ""
    requires (!reroute || Uniform(re, original))
    requires Remembers(codec, re, original, s) && Step(codec, finalizer, reroute, re, original, s, s')
    ensures Remembers(codec, re, original, s')
  {
    RemembersRecovers(codec, re, original, s);
    if s' != s && s' != s.(spec := s.spec.(selector := original)) {
      MarkedSaves(s.annotations, codec.encode(original));
      if reroute {
        if s.spec.selector != original {
          RewrittenFixed(re, s.spec.selector, s'.spec.selector);
        } else if forall k :: k in original ==> Kept(re, k, original[k]) {
          KeptAll(re, original);
        } else {
          RewrittenInside(re, original, s'.spec.selector);
        }
      }
    }
  }

  lemma {:induction false} RunRemembers(codec: Codec, finalizers: seq<string>, reroute: bool, re: Regexp,
                                        original: map<string, string>, states: seq<Service>, i: nat)
    requires RoundTrips(codec) && Outside(original) && codec.encode(original) != ""
    requires (!reroute || Uniform(re, original))
    requires Run(codec, finalizers, reroute, re, original, states) && i < |states|
    ensures Remembers(codec, re, original, states[i])
    decreases i
  {
    if i > 0 {
      RunRemembers(codec, finalizers, reroute, re, original, states, i - 1);
      StepRemembers(codec, finalizers[i - 1], reroute, re, original, states[i - 1], states[i]);
    }
  }

  ghost predicate AlwaysRecovers(codec: Codec, reroute: bool, re: Regexp, original: map<string, string>) {
    forall finalizers, states, i ::
      (Run(codec, finalizers, reroute, re, original, states) && 0 <= i < |states|) ==>
        Recovered(codec, states[i]) == Some(original)
  }

  /** However often the controllers of however many targets run, each of them finds the original selector,
      exactly when services are not rerouted or the pattern treats all of the selector alike. */
  lemma OriginalSelectorKept(codec: Codec, reroute: bool, re: Regexp, original: map<string, string>)
    requires RoundTrips(codec) && Outside(original) && codec.encode(original) != ""
    ensures AlwaysRecovers(codec, reroute, re, original) <==> !reroute || Uniform(re, original)
  {
    if !reroute || Uniform(re, original) {
      forall finalizers, states, i | Run(codec, finalizers, reroute, re, original, states) && 0 <= i < |states|
        ensures Recovered(codec, states[i]) == Some(original)
      {
        RunRemembers(codec, finalizers, reroute, re, original, states, i);
        RemembersRecovers(codec, re, original, states[i]);
      }
    } else {
      var finalizers, states := PartIsLost(codec, re, original);
      assert Run(codec, finalizers, reroute, re, original, states) && Recovered(codec, states[1]) != Some(original);
    }
  }

  /** What is left outside the domain after rewriting is what was kept. */
  lemma KeptPart(re: Regexp, original: map<string, string>, out: map<string, string>, kept: string, lost: string)
    requires Outside(original) && Rewritten(re, original, out)
    requires kept in original && Kept(re, kept, original[kept]) && lost in original && !Kept(re, lost, original[lost])
    ensures kept in Others(out) && lost !in Others(out)
  {
    assert Rekey(re, kept, original[kept]) == kept;
  }

  /** A first run that rewrites the selector to the given result. */
  lemma FirstRun(codec: Codec, re: Regexp, original: map<string, string>, out: map<string, string>)
    returns (s: Service, s': Service)
    requires Outside(original) && Rewritten(re, original, out) && Others(out) != map[]
    ensures Run(codec, ["f"], true, re, original, [s, s']) && Recovered(codec, s') == Some(Others(out))
  {
    s := Service("", [], false, map[], map[], Spec(original, false, "", [], ""));
    assert Others(original) == original;
    s' := Guarded(s, "f").(annotations := Marked(s.annotations, codec.encode(original)),
                           spec := s.spec.(selector := out));
    assert Prepared("f", true, re, codec.encode(original), s, s');
  }

  /** A pattern that keeps one label of the selector and not another: the next run takes what was kept for
      the whole selector. */
  lemma PartIsLost(codec: Codec, re: Regexp, original: map<string, string>)
    returns (finalizers: seq<string>, states: seq<Service>)
    requires Outside(original) && !Uniform(re, original)
    ensures Run(codec, finalizers, true, re, original, states) && |states| == 2
    ensures Recovered(codec, states[1]) != Some(original)
  {
    var kept :| kept in original && Kept(re, kept, original[kept]);
    var lost :| lost in original && !Kept(re, lost, original[lost]);
    var out := Winner(re, original, kept);
    KeptPart(re, original, out, kept, lost);
    var s, s' := FirstRun(codec, re, original, out);
    finalizers, states := ["f"], [s, s'];
  }
}
