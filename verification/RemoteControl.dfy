/** Remote controller references: the labels and annotations that tie an object in a target cluster
    to its parent in a source cluster, and the index keyed by the parent's namespaced name. */
module RemoteControl {
  import opened Kube

  /** A missing entry of a string map reads as the empty string. */
  function Lookup(m: map<string, string>, k: string): string {
    if k in m then m[k] else ""
  }

  /** An object whose label and annotation maps are edited in place. */
  class Meta {
    const key: Key
    const uid: string
    var labels: map<string, string>
    var annotations: map<string, string>

    constructor (key: Key, uid: string, labels: map<string, string>, annotations: map<string, string>)
      ensures this.key == key && this.uid == uid && this.labels == labels && this.annotations == annotations
    {
      this.key, this.uid, this.labels, this.annotations := key, uid, labels, annotations;
    }
  }

  function ReferenceLabels(l: map<string, string>, uid: string, cluster: string): map<string, string> {
    l[LABEL_PARENT_UID := uid][LABEL_PARENT_CLUSTER := cluster]
  }

  function ReferenceAnnotations(a: map<string, string>, parent: Key): map<string, string> {
    a[ANNOTATION_PARENT_NAMESPACE := parent.ns][ANNOTATION_PARENT_NAME := parent.name]
  }

  /** Records `parent` on `child`; the parent itself is not written. */
  method AddRemoteControllerReference(child: Meta, parent: Meta, parentClusterName: string)
    requires child != parent
    modifies child
    ensures child.labels == ReferenceLabels(old(child.labels), parent.uid, parentClusterName)
    ensures child.annotations == ReferenceAnnotations(old(child.annotations), parent.key)
    ensures Lookup(child.labels, LABEL_PARENT_UID) == parent.uid
    ensures Lookup(child.labels, LABEL_PARENT_CLUSTER) == parentClusterName
    ensures Lookup(child.annotations, ANNOTATION_PARENT_NAMESPACE) == parent.key.ns
    ensures Lookup(child.annotations, ANNOTATION_PARENT_NAME) == parent.key.name
    ensures forall k :: k !in {LABEL_PARENT_UID, LABEL_PARENT_CLUSTER} ==> SameEntry(child.labels, old(child.labels), k)
    ensures forall k :: k !in {ANNOTATION_PARENT_NAMESPACE, ANNOTATION_PARENT_NAME} ==>
      SameEntry(child.annotations, old(child.annotations), k)
  {
    OurKeys();
    child.labels := child.labels[LABEL_PARENT_UID := parent.uid];
    child.labels := child.labels[LABEL_PARENT_CLUSTER := parentClusterName];
    child.annotations := child.annotations[ANNOTATION_PARENT_NAMESPACE := parent.key.ns];
    child.annotations := child.annotations[ANNOTATION_PARENT_NAME := parent.key.name];
  }

  predicate IsRemoteControlled(labels: map<string, string>, cluster: string) {
    LABEL_PARENT_CLUSTER in labels && labels[LABEL_PARENT_CLUSTER] == cluster
  }

  predicate ParentControlsChild(labels: map<string, string>, annotations: map<string, string>, parentUID: string) {
    || Lookup(annotations, LABEL_PARENT_UID) == parentUID
    || Lookup(labels, LABEL_PARENT_UID) == parentUID
  }

  /** The work queue key of an object. */
  function QueueKey(k: Key): string {
    if k.ns != "" then k.ns + "/" + k.name else k.name
  }

  /** The work queue key of the parent, with the child's own names as fallbacks. */
  function ParentKey(child: Key, annotations: map<string, string>): string {
    var ns := Lookup(annotations, ANNOTATION_PARENT_NAMESPACE);
    var name := Lookup(annotations, ANNOTATION_PARENT_NAME);
    QueueKey(Key(if ns == "" then child.ns else ns, if name == "" then child.name else name))
  }

  /** Reading the parent back gives the parent's key, except for a cluster-scoped parent of a
      namespaced child, whose missing namespace is filled in from the child. */
  lemma ParentKeyInverts(child: Key, annotations: map<string, string>, parent: Key)
    requires parent.name != ""
    ensures ParentKey(child, ReferenceAnnotations(annotations, parent)) == QueueKey(parent)
            <==> (parent.ns != "" || child.ns == "")
  {
    OurKeys();
    if parent.ns == "" && child.ns != "" {
      assert |QueueKey(Key(child.ns, parent.name))| > |parent.name|;
    }
  }

  /** Namespaces contain no slash, so the queue key determines the object. */
  lemma QueueKeyInjective(a: Key, b: Key)
    requires a.ns != "" && b.ns != "" && '/' !in a.ns && '/' !in b.ns
    requires QueueKey(a) == QueueKey(b)
    ensures a == b
  {
    var s := QueueKey(a);
    assert s[|a.ns|] == '/' && s[|b.ns|] == '/';
    assert |a.ns| == |b.ns|;
    assert a.ns == s[..|a.ns|] == b.ns;
    assert a.name == s[|a.ns| + 1..] == b.name;
  }

  // ---- The index of children by parent key ----

  datatype Child = Child(key: Key, labels: map<string, string>, annotations: map<string, string>)

  function IndexKeys(c: Child, cluster: string): seq<string> {
    if IsRemoteControlled(c.labels, cluster) then [ParentKey(c.key, c.annotations)] else []
  }

  /** The informer's index: every stored child filed under each of its index keys. */
  method BuildIndex(children: seq<Child>, cluster: string) returns (index: map<string, set<Child>>)
    ensures forall q: string, c: Child :: (q in index && c in index[q]) <==>
      (c in children && q in IndexKeys(c, cluster))
  {
    index := map[];
    for i := 0 to |children|
      invariant forall q: string, c: Child ::
          (q in index && c in index[q]) <==> (c in children[..i] && q in IndexKeys(c, cluster))
    {
      var c := children[i];
      assert children[..i + 1] == children[..i] + [c];
      if IsRemoteControlled(c.labels, cluster) {
        var q := ParentKey(c.key, c.annotations);
        index := index[q := (if q in index then index[q] else {}) + {c}];
      }
    }
    assert children[..|children|] == children;
  }

  /** `c` was recorded as the child of `parent` in the source cluster named `cluster`. */
  ghost predicate RecordedFor(c: Child, parent: Key, cluster: string) {
    exists l: map<string, string>, a: map<string, string>, uid: string ::
      c.labels == ReferenceLabels(l, uid, cluster) && c.annotations == ReferenceAnnotations(a, parent)
  }

  /** Looking a missing parent up in the index finds exactly the children a full scan would find:
      those recorded for that parent from this source cluster. */
  lemma IndexAgreesWithScan(c: Child, parent: Key, cluster: string, other: Key, otherCluster: string)
    requires RecordedFor(c, parent, cluster)
    requires parent.ns != "" && parent.name != "" && '/' !in parent.ns
    requires other.ns != "" && '/' !in other.ns
    ensures QueueKey(other) in IndexKeys(c, otherCluster) <==> (other == parent && otherCluster == cluster)
  {
    var l, a, uid :| c.labels == ReferenceLabels(l, uid, cluster) && c.annotations == ReferenceAnnotations(a, parent);
    OurKeys();
    ParentKeyInverts(c.key, a, parent);
    if QueueKey(other) in IndexKeys(c, otherCluster) {
      QueueKeyInjective(other, parent);
    }
  }
}
