/** Following config maps and secrets into targets: what one run of a follow controller decides from the
    local object and the namesake in its target. */
module FollowModel {
  import opened Kube
  import opened RemoteControl

  /** The followed contents.  A config map compares all of it; a secret's type is set once, on creation. */
  datatype Payload =
    | ConfigMap(data: map<string, string>, binaryData: map<string, seq<bv8>>)
    | Secret(kind: string, bytes: map<string, seq<bv8>>)

  datatype Obj = Obj(uid: string, rv: nat, finalizers: seq<string>, terminating: bool,
                     labels: map<string, string>, annotations: map<string, string>, payload: Payload)

  predicate SameData(a: Payload, b: Payload) {
    match (a, b)
    case (ConfigMap(d, bd), ConfigMap(d', bd')) => d == d' && bd == bd'
    case (Secret(_, d), Secret(_, d')) => d == d'
    case _ => false
  }

  /** The remote contents after an update from the local ones. */
  function Refreshed(remote: Payload, local: Payload): Payload {
    if remote.Secret? && local.Secret? then remote.(bytes := local.bytes) else local
  }

  /** The UID a copy records as its parent's. */
  function ParentUID(o: Obj): string {
    Lookup(o.labels, LABEL_PARENT_UID)
  }

  predicate Owns(local: Obj, remote: Obj) {
    ParentControlsChild(remote.labels, remote.annotations, local.uid)
  }

  datatype Action =
    | Nothing
    | DeleteRemote
    | RemoveFinalizer
    | Follow(addFinalizer: bool, create: bool, update: bool)

  predicate OutOfDate(clusterName: string, local: Obj, remote: Obj) {
    !SameData(remote.payload, local.payload) || Lookup(remote.labels, LABEL_PARENT_CLUSTER) != clusterName
  }

  /** What a run does, given the objects of one name on both sides. */
  function Plan(clusterName: string, finalizer: string, local: Option<Obj>, remote: Option<Obj>,
                shouldFollow: bool): Action {
    if local.None? then
      if remote.Some? && IsRemoteControlled(remote.value.labels, clusterName) then DeleteRemote else Nothing
    else if remote.Some? && !Owns(local.value, remote.value) then Nothing
    else if local.value.terminating then
      if remote.Some? then DeleteRemote
      else if finalizer in local.value.finalizers then RemoveFinalizer
      else Nothing
    else if shouldFollow then
      Follow(finalizer !in local.value.finalizers, remote.None?,
             remote.Some? && OutOfDate(clusterName, local.value, remote.value))
    else Nothing
  }

  function WithFinalizer(o: Obj, finalizer: string): Obj {
    o.(finalizers := o.finalizers + [finalizer], labels := o.labels[LABEL_HAS_FINALIZER := "true"])
  }

  function WithoutFinalizer(o: Obj, finalizer: string): Obj
    requires finalizer in o.finalizers
  {
    o.(finalizers := Without(o.finalizers, FirstIndex(o.finalizers, finalizer)))
  }

  /** The copy of a local object: its labels and annotations, the reference to it, its contents, and
      neither finalizers nor identity. */
  function MakeRemote(clusterName: string, key: Key, o: Obj): Obj {
    Obj("", 0, [], false, ReferenceLabels(o.labels, o.uid, clusterName), ReferenceAnnotations(o.annotations, key),
        o.payload)
  }

  function UpdatedRemote(clusterName: string, remote: Obj, local: Obj): Obj {
    remote.(payload := Refreshed(remote.payload, local.payload),
            labels := remote.labels[LABEL_PARENT_CLUSTER := clusterName])
  }

  lemma MakeRemoteParent(clusterName: string, key: Key, o: Obj)
    ensures ParentUID(MakeRemote(clusterName, key, o)) == o.uid
    ensures Lookup(MakeRemote(clusterName, key, o).labels, LABEL_PARENT_CLUSTER) == clusterName
  {
    OurKeys();
  }

  lemma UpdatedRemoteParent(clusterName: string, remote: Obj, local: Obj)
    ensures ParentUID(UpdatedRemote(clusterName, remote, local)) == ParentUID(remote)
  {
    OurKeys();
  }

  /** An object that somebody deletes: finalizers of its own keep it, terminating. */
  function Deleted(o: Obj): Option<Obj> {
    if o.finalizers == [] then None else Some(o.(terminating := true))
  }

  // ---- Convergence ----

  /** The two objects of one name after a run in which no call fails and nobody interferes. */
  function AfterRun(clusterName: string, finalizer: string, key: Key, local: Option<Obj>, remote: Option<Obj>,
                    shouldFollow: bool)
    : (Option<Obj>, Option<Obj>)
  {
    match Plan(clusterName, finalizer, local, remote, shouldFollow)
    case Nothing => (local, remote)
    case DeleteRemote => (local, Deleted(remote.value))
    case RemoveFinalizer =>
      var o := WithoutFinalizer(local.value, finalizer);
      (if o.finalizers == [] then None else Some(o), remote)
    case Follow(add, create, update) =>
      var o := if add then WithFinalizer(local.value, finalizer) else local.value;
      (Some(o), if create then Some(MakeRemote(clusterName, key, o))
                else if update then Some(UpdatedRemote(clusterName, remote.value, o))
                else remote)
  }

  /** The local and the remote object are of the same kind, as one controller handles one kind. */
  ghost predicate SameKind(local: Obj, remote: Option<Obj>) {
    remote.Some? ==> (remote.value.payload.ConfigMap? <==> local.payload.ConfigMap?)
  }

  /** The copy carries the source's contents; a secret's type stays what it was set to on creation. */
  ghost predicate Carries(copy: Obj, source: Obj, before: Option<Obj>) {
    match source.payload
    case ConfigMap(data, binaryData) => copy.payload == ConfigMap(data, binaryData)
    case Secret(kind, bytes) =>
      && copy.payload.Secret? && copy.payload.bytes == bytes
      && copy.payload.kind == if before.Some? && before.value.payload.Secret? then before.value.payload.kind else kind
  }

  /** The object holds the finalizer: it did, or it was appended with the label that says so. */
  predicate Guards(finalizer: string, o: Obj, o': Obj) {
    if finalizer in o.finalizers then o' == o
    else
      && o' == o.(finalizers := o'.finalizers, labels := o'.labels)
      && o'.finalizers == o.finalizers + [finalizer] && o'.labels == o.labels[LABEL_HAS_FINALIZER := "true"]
  }

  /** What a run leaves in the target: on creation the source's labels and annotations next to the reference, no
      finalizers and no identity; otherwise the copy's own. */
  ghost predicate Copies(clusterName: string, key: Key, source: Obj, before: Option<Obj>, copy: Obj) {
    && Carries(copy, source, before)
    && Lookup(copy.labels, LABEL_PARENT_CLUSTER) == clusterName
    && if before.Some? then
         && copy == before.value.(payload := copy.payload, labels := copy.labels)
         && (forall k :: k != LABEL_PARENT_CLUSTER ==> SameEntry(copy.labels, before.value.labels, k))
       else
         && copy.finalizers == [] && !copy.terminating && Lookup(copy.labels, LABEL_PARENT_UID) == source.uid
         && Lookup(copy.annotations, ANNOTATION_PARENT_NAMESPACE) == key.ns
         && Lookup(copy.annotations, ANNOTATION_PARENT_NAME) == key.name
         && (forall k :: k !in {LABEL_PARENT_UID, LABEL_PARENT_CLUSTER} ==> SameEntry(copy.labels, source.labels, k))
         && (forall k :: k !in {ANNOTATION_PARENT_NAMESPACE, ANNOTATION_PARENT_NAME} ==>
               SameEntry(copy.annotations, source.annotations, k))
  }

  lemma MakeRemoteCopies(clusterName: string, key: Key, o: Obj)
    ensures Copies(clusterName, key, o, None, MakeRemote(clusterName, key, o))
  {
    OurKeys();
  }

  lemma UpdatedRemoteCopies(clusterName: string, key: Key, o: Obj, before: Obj)
    requires SameKind(o, Some(before))
    ensures Copies(clusterName, key, o, Some(before), UpdatedRemote(clusterName, before, o))
  {
  }

  /** One successful run makes the copy carry the source's contents and the source hold the finalizer; the next
      run has nothing to write.  A namesake that records another parent is never touched. */
  lemma FollowConverges(clusterName: string, finalizer: string, key: Key, local: Obj, remote: Option<Obj>)
    requires !local.terminating && SameKind(local, remote) && local.uid != ""
    ensures var (l, r) := AfterRun(clusterName, finalizer, key, Some(local), remote, true);
      if remote.Some? && Lookup(remote.value.labels, LABEL_PARENT_UID) != local.uid
         && Lookup(remote.value.annotations, LABEL_PARENT_UID) != local.uid
      then l == Some(local) && r == remote
      else
        && l.Some? && r.Some? && Guards(finalizer, local, l.value) && Copies(clusterName, key, l.value, remote, r.value)
        && Owns(l.value, r.value)
        && AfterRun(clusterName, finalizer, key, l, r, true) == (l, r)
        && Plan(clusterName, finalizer, l, r, true) == Follow(false, false, false)
  {
    OurKeys();
    var local' := if finalizer in local.finalizers then local else WithFinalizer(local, finalizer);
    MakeRemoteCopies(clusterName, key, local');
    if remote.Some? {
      UpdatedRemoteCopies(clusterName, key, local', remote.value);
      if !OutOfDate(clusterName, local', remote.value) {
        assert Copies(clusterName, key, local', remote, remote.value);
      }
    }
  }

  /** Without a source, a copy that carries this cluster's name is deleted, and anything else is left alone; a
      source that no pod needs is left alone too. */
  lemma UnfollowedFate(clusterName: string, finalizer: string, key: Key, local: Option<Obj>, remote: Option<Obj>)
    requires local.Some? ==> !local.value.terminating
    ensures local.Some? ==> AfterRun(clusterName, finalizer, key, local, remote, false) == (local, remote)
    ensures local.None? ==> forall shouldFollow ::
      AfterRun(clusterName, finalizer, key, local, remote, shouldFollow) ==
        (None,
         if remote.Some? && LABEL_PARENT_CLUSTER in remote.value.labels
            && remote.value.labels[LABEL_PARENT_CLUSTER] == clusterName
         then (if remote.value.finalizers == [] then None else Some(remote.value.(terminating := true)))
         else remote)
  {
  }
}
