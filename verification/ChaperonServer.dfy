/** The part of a target cluster's API server that stores pod chaperons.  Calls are atomic; every
    write takes a fresh resource version, and `Update`/`UpdateStatus` succeed only when the caller's
    copy carries the version on the server.  `served` remembers every version ever stored: it is
    exactly what a lagging informer cache may still hand out. */
module ChaperonServer {
  import opened Kube
  import opened RemoteControl

  datatype Condition = Condition(kind: string, status: string, reason: string)

  datatype Status = Status(phase: string, conditions: seq<Condition>)

  datatype Chaperon = Chaperon(key: Key, rv: nat, labels: map<string, string>, annotations: map<string, string>,
                               alwaysRestart: bool, status: Status)

  datatype Server = Server(objs: map<Key, Chaperon>, rev: nat, served: set<Chaperon>)

  datatype Reply = Stored(server: Server, obj: Chaperon) | NotFound | Conflict

  const EMPTY := Server(map[], 0, {})

  function Parent(o: Chaperon): string {
    Lookup(o.labels, LABEL_PARENT_UID)
  }

  /** The remote controller reference that ties a chaperon to its proxy pod. */
  datatype Ref = Ref(labelled: bool, uid: string, ns: string, name: string)

  function Reference(o: Chaperon): Ref {
    Ref(LABEL_PARENT_UID in o.labels, Parent(o),
        Lookup(o.annotations, ANNOTATION_PARENT_NAMESPACE), Lookup(o.annotations, ANNOTATION_PARENT_NAME))
  }

  /** Resource versions identify contents. */
  ghost predicate Valid(s: Server) {
    && (forall k :: k in s.objs ==> s.objs[k].key == k && s.objs[k] in s.served)
    && (forall o :: o in s.served ==> o.rv <= s.rev)
    && (forall o, o' :: o in s.served && o' in s.served && o.rv == o'.rv ==> o == o')
  }

  /** Chaperons in `ns` labelled with the given parent UID. */
  function ListByParent(s: Server, ns: string, uid: string): set<Key> {
    set k | k in s.objs && k.ns == ns && LABEL_PARENT_UID in s.objs[k].labels
        && s.objs[k].labels[LABEL_PARENT_UID] == uid
  }

  function Write(s: Server, o: Chaperon): Server {
    var o' := o.(rv := s.rev + 1);
    Server(s.objs[o.key := o'], s.rev + 1, s.served + {o'})
  }

  /** A write that changes nothing leaves the stored version alone. */
  function WriteIfChanged(s: Server, o: Chaperon): (r: Reply) {
    if o.key in s.objs && s.objs[o.key] == o then Stored(s, o) else Stored(Write(s, o), o.(rv := s.rev + 1))
  }

  function PatchAnnotations(s: Server, k: Key, patch: Patch): Reply {
    if k !in s.objs then NotFound
    else WriteIfChanged(s, s.objs[k].(annotations := MergePatch(s.objs[k].annotations, patch)))
  }

  function UpdateStatus(s: Server, o: Chaperon): Reply {
    if o.key !in s.objs then NotFound
    else if s.objs[o.key].rv != o.rv then Conflict
    else WriteIfChanged(s, s.objs[o.key].(status := o.status))
  }

  /** A general update replaces everything but the status. */
  function Update(s: Server, o: Chaperon): Reply {
    if o.key !in s.objs then NotFound
    else if s.objs[o.key].rv != o.rv then Conflict
    else WriteIfChanged(s, o.(status := s.objs[o.key].status))
  }

  function Delete(s: Server, ks: set<Key>): Server {
    s.(objs := s.objs - ks)
  }

  /** A generated name has never been used in the cluster. */
  ghost predicate Fresh(s: Server, k: Key) {
    forall o :: o in s.served ==> o.key != k
  }

  // ---- What a transition may do to the stored objects ----

  /** Objects keep their key and parent; none appears or disappears. */
  ghost predicate Rewrites(s: Server, s': Server) {
    && s'.objs.Keys == s.objs.Keys
    && (forall k :: k in s.objs ==> s'.objs[k].key == s.objs[k].key && Reference(s'.objs[k]) == Reference(s.objs[k]))
    && s.served <= s'.served
    && (forall o :: o in s'.served && o !in s.served ==> o.key in s.objs && Reference(o) == Reference(s.objs[o.key]))
  }

  lemma WriteValid(s: Server, o: Chaperon)
    requires Valid(s)
    ensures Valid(Write(s, o))
  {
  }

  lemma WriteRewrites(s: Server, o: Chaperon)
    requires Valid(s) && o.key in s.objs && Reference(o) == Reference(s.objs[o.key])
    ensures var s' := WriteIfChanged(s, o).server; Valid(s') && Rewrites(s, s')
    ensures var r := WriteIfChanged(s, o); r.obj in r.server.served && r.server.objs[o.key] == r.obj
  {
    WriteValid(s, o);
  }

  lemma PatchRewrites(s: Server, k: Key, patch: Patch)
    requires Valid(s)
    requires ANNOTATION_PARENT_NAME !in patch && ANNOTATION_PARENT_NAMESPACE !in patch
    ensures var r := PatchAnnotations(s, k, patch); r.Stored? ==> Valid(r.server) && Rewrites(s, r.server)
  {
    if k in s.objs {
      WriteRewrites(s, s.objs[k].(annotations := MergePatch(s.objs[k].annotations, patch)));
    }
  }

  // ---- Optimistic locking ----

  /** A copy that was served once and still carries the stored version is the stored object itself. */
  lemma MatchingVersionIsCurrent(s: Server, o: Chaperon)
    requires Valid(s) && o in s.served && o.key in s.objs && s.objs[o.key].rv == o.rv
    ensures s.objs[o.key] == o
  {
    assert s.objs[o.key] in s.served;
  }

  lemma WriteEffect(s: Server, o: Chaperon)
    requires o.key in s.objs
    ensures var r := WriteIfChanged(s, o);
      r.server.objs == s.objs[o.key := r.obj] && r.obj == o.(rv := r.obj.rv)
  {
  }

  /** A status update from any copy that was ever served is stored exactly if the copy is current, and then
      changes the status alone. */
  lemma LockedStatus(s: Server, base: Chaperon, status: Status)
    requires Valid(s) && base in s.served
    ensures var r := UpdateStatus(s, base.(status := status));
      && (r.Stored? <==> base.key in s.objs && s.objs[base.key] == base)
      && (r.Stored? ==> r.server.objs == s.objs[base.key := r.obj] && r.obj == base.(rv := r.obj.rv, status := status))
  {
    var r := UpdateStatus(s, base.(status := status));
    if r.Stored? {
      MatchingVersionIsCurrent(s, base);
      WriteEffect(s, base.(status := status));
    }
  }

  /** The same for an update of the annotations. */
  lemma LockedAnnotations(s: Server, base: Chaperon, annotations: map<string, string>)
    requires Valid(s) && base in s.served
    ensures var r := Update(s, base.(annotations := annotations));
      && (r.Stored? <==> base.key in s.objs && s.objs[base.key] == base)
      && (r.Stored? ==>
            r.server.objs == s.objs[base.key := r.obj] && r.obj == base.(rv := r.obj.rv, annotations := annotations))
  {
    var r := Update(s, base.(annotations := annotations));
    if r.Stored? {
      MatchingVersionIsCurrent(s, base);
      WriteEffect(s, base.(annotations := annotations));
    }
  }
}
