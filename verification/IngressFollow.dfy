/** Keeping the copy of an ingress up to date. */
module IngressFollow {
  import opened Kube
  import opened RemoteControl

  /** The specification is copied and compared without looking inside. */
  datatype Ingress = Ingress(uid: string, finalizers: seq<string>, labels: map<string, string>,
                             annotations: map<string, string>, spec: string)

  /** User annotations of the local ingress that the copy lacks or has with another value. */
  function AnnotationDiff(remote: map<string, string>, local: map<string, string>): map<string, string> {
    map k | k in local && !IsOurs(k) && !(k in remote && remote[k] == local[k]) :: local[k]
  }

  function Refreshed(clusterName: string, remote: Ingress, local: Ingress): Ingress {
    remote.(spec := local.spec,
            annotations := remote.annotations + AnnotationDiff(remote.annotations, local.annotations),
            labels := if Lookup(remote.labels, LABEL_PARENT_CLUSTER) == clusterName then remote.labels
                      else remote.labels[LABEL_PARENT_CLUSTER := clusterName])
  }

  method DiffAnnotations(remote: map<string, string>, local: map<string, string>) returns (diff: map<string, string>)
    ensures diff == AnnotationDiff(remote, local)
  {
    diff := map[];
    var todo := local.Keys;
    while todo != {}
      invariant todo <= local.Keys
      invariant diff == map k | k in local && k !in todo && !IsOurs(k)
          && !(k in remote && remote[k] == local[k]) :: local[k]
    {
      var k :| k in todo;
      if !HasPrefix(k, KEY_PREFIX) {
        if k in remote {
          if remote[k] != local[k] {
            diff := diff[k := local[k]];
          }
        } else {
          diff := diff[k := local[k]];
        }
      }
      todo := todo - {k};
    }
  }

  /** Reports an update exactly when there is something to write. */
  method ShouldUpdate(clusterName: string, remote: Ingress, local: Ingress) returns (copy: Ingress, shouldUpdate: bool)
    ensures copy == Refreshed(clusterName, remote, local)
    ensures shouldUpdate <==> copy != remote
  {
    copy, shouldUpdate := remote, false;
    if remote.spec != local.spec {
      copy := copy.(spec := local.spec);
      shouldUpdate := true;
    }
    var diff := DiffAnnotations(remote.annotations, local.annotations);
    if diff != map[] {
      DiffShows(remote.annotations, local.annotations);
      var annotations := Overlay(copy.annotations, diff);
      copy := copy.(annotations := annotations);
      shouldUpdate := true;
    }
    assert diff == map[] ==> remote.annotations + diff == remote.annotations;
    if Lookup(remote.labels, LABEL_PARENT_CLUSTER) != clusterName {
      copy := copy.(labels := copy.labels[LABEL_PARENT_CLUSTER := clusterName]);
      shouldUpdate := true;
    }
  }

  lemma DiffShows(remote: map<string, string>, local: map<string, string>)
    requires AnnotationDiff(remote, local) != map[]
    ensures remote + AnnotationDiff(remote, local) != remote
  {
    var diff := AnnotationDiff(remote, local);
    var k :| k in diff;
    assert (remote + diff)[k] == local[k];
  }

  /** Once refreshed, a copy carries the specification and the user annotations of the ingress and needs no
      update; this system's annotations and those only the copy has are never touched. */
  lemma RefreshConverges(clusterName: string, remote: Ingress, local: Ingress)
    ensures var r := Refreshed(clusterName, remote, local);
      && Refreshed(clusterName, r, local) == r
      && r.spec == local.spec && Lookup(r.labels, LABEL_PARENT_CLUSTER) == clusterName
      && r == remote.(spec := r.spec, annotations := r.annotations, labels := r.labels)
      && (forall k :: k in local.annotations && !IsOurs(k) ==>
            k in r.annotations && r.annotations[k] == local.annotations[k])
      && (forall k :: IsOurs(k) || k !in local.annotations ==>
            (k in r.annotations <==> k in remote.annotations)
                && (k in remote.annotations ==> r.annotations[k] == remote.annotations[k]))
      && (forall k :: k != LABEL_PARENT_CLUSTER ==>
            (k in r.labels <==> k in remote.labels) && (k in r.labels ==> r.labels[k] == remote.labels[k]))
  {
    var r := Refreshed(clusterName, remote, local);
    assert AnnotationDiff(r.annotations, local.annotations) == map[];
    assert r.annotations + map[] == r.annotations;
  }

  function AddFinalizer(ingress: Ingress, finalizer: string): Ingress {
    ingress.(finalizers := ingress.finalizers + [finalizer], labels := ingress.labels[LABEL_HAS_FINALIZER := "true"],
             annotations := ingress.annotations[ANNOTATION_GLOBAL := "true"])
  }

  function MakeRemote(clusterName: string, key: Key, ingress: Ingress): Ingress {
    Ingress("", [], ReferenceLabels(ingress.labels, ingress.uid, clusterName),
            ReferenceAnnotations(ingress.annotations[ANNOTATION_IS_DELEGATE := ""][ANNOTATION_GLOBAL := "true"], key),
                ingress.spec)
  }

  /** A copy just created needs no update and is owned; it carries the marks of a delegate and a global ingress,
      the reference, and otherwise the source's labels and annotations. */
  lemma CreatedIsUpToDate(clusterName: string, key: Key, ingress: Ingress)
    ensures var r := MakeRemote(clusterName, key, ingress);
      && Refreshed(clusterName, r, ingress) == r
      && ParentControlsChild(r.labels, r.annotations, ingress.uid)
      && r.spec == ingress.spec && r.finalizers == []
      && ANNOTATION_IS_DELEGATE in r.annotations && Lookup(r.annotations, ANNOTATION_GLOBAL) == "true"
      && Lookup(r.labels, LABEL_PARENT_CLUSTER) == clusterName && Lookup(r.labels, LABEL_PARENT_UID) == ingress.uid
      && Lookup(r.annotations, ANNOTATION_PARENT_NAMESPACE) == key.ns
      && Lookup(r.annotations, ANNOTATION_PARENT_NAME) == key.name
      && (forall k :: k !in {LABEL_PARENT_UID, LABEL_PARENT_CLUSTER} ==> SameEntry(r.labels, ingress.labels, k))
      && (forall k :: !IsOurs(k) ==> SameEntry(r.annotations, ingress.annotations, k))
  {
    OurKeys();
    var r := MakeRemote(clusterName, key, ingress);
    var n := |KEY_PREFIX|;
    assert ANNOTATION_IS_DELEGATE[n] == 'i' && ANNOTATION_GLOBAL[n] == 'g';
    assert ANNOTATION_PARENT_NAMESPACE[n] == 'p' && ANNOTATION_PARENT_NAME[n] == 'p';
    assert IsOurs(ANNOTATION_IS_DELEGATE) && IsOurs(ANNOTATION_GLOBAL);
    assert AnnotationDiff(r.annotations, ingress.annotations) == map[];
    assert r.annotations + map[] == r.annotations;
  }

  /** Guarding marks the ingress as global. */
  lemma GuardedIsGlobal(ingress: Ingress, finalizer: string)
    ensures var r := AddFinalizer(ingress, finalizer);
      && r.finalizers == ingress.finalizers + [finalizer] && r.spec == ingress.spec && r.uid == ingress.uid
      && Lookup(r.labels, LABEL_HAS_FINALIZER) == "true" && Lookup(r.annotations, ANNOTATION_GLOBAL) == "true"
      && (forall k :: k != LABEL_HAS_FINALIZER ==> SameEntry(r.labels, ingress.labels, k))
      && (forall k :: k != ANNOTATION_GLOBAL ==> SameEntry(r.annotations, ingress.annotations, k))
  {
  }
}
