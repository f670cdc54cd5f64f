/** The config map and secret controllers of one target: which objects to follow, and the run that writes
    the local and the remote object call by call. */
module FollowController {
  import opened Kube
  import opened RemoteControl
  import opened FollowModel

  // ---- Which objects proxy pods refer to ----

  datatype Kind = ConfigMaps | Secrets

  /** Where a pod may name a config map or a secret. */
  datatype Source = Source(configMap: Option<string>, secret: Option<string>)
  datatype Volume = Volume(direct: Source, projected: seq<Source>)
  datatype Container = Container(env: seq<Source>, envFrom: seq<Source>)
  datatype Pod = Pod(ns: string, isProxy: bool, node: string, volumes: seq<Volume>, containers: seq<Container>,
                     initContainers: seq<Container>, imagePullSecrets: seq<string>)

  function Referent(kind: Kind, src: Source): Option<string> {
    if kind.ConfigMaps? then src.configMap else src.secret
  }

  ghost predicate AnySource(kind: Kind, sources: seq<Source>, name: string) {
    exists src :: src in sources && Referent(kind, src) == Some(name)
  }

  ghost predicate ByVolume(kind: Kind, v: Volume, name: string) {
    Referent(kind, v.direct) == Some(name) || AnySource(kind, v.projected, name)
  }

  ghost predicate ByContainer(kind: Kind, c: Container, name: string) {
    AnySource(kind, c.env, name) || AnySource(kind, c.envFrom, name)
  }

  ghost predicate AnyVolume(kind: Kind, volumes: seq<Volume>, name: string) {
    exists v :: v in volumes && ByVolume(kind, v, name)
  }

  ghost predicate AnyContainer(kind: Kind, containers: seq<Container>, name: string) {
    exists c :: c in containers && ByContainer(kind, c, name)
  }

  /** Somewhere in its specification, the pod names the object. */
  ghost predicate Mentions(kind: Kind, pod: Pod, name: string) {
    || AnyVolume(kind, pod.volumes, name)
    || AnyContainer(kind, pod.containers, name)
    || AnyContainer(kind, pod.initContainers, name)
    || (kind.Secrets? && name in pod.imagePullSecrets)
  }

  /** Spelled out: volumes, also projected ones, and the environments of all containers; for secrets also the
      pull secrets. */
  lemma MentionsSpelledOut(pod: Pod, name: string)
    ensures Mentions(ConfigMaps, pod, name) <==>
      || (exists v :: v in pod.volumes &&
            (v.direct.configMap == Some(name) || exists src :: src in v.projected && src.configMap == Some(name)))
      || (exists c, src ::
            c in pod.containers + pod.initContainers && src in c.env + c.envFrom && src.configMap == Some(name))
    ensures Mentions(Secrets, pod, name) <==>
      || (exists v :: v in pod.volumes &&
            (v.direct.secret == Some(name) || exists src :: src in v.projected && src.secret == Some(name)))
      || (exists c, src ::
            c in pod.containers + pod.initContainers && src in c.env + c.envFrom && src.secret == Some(name))
      || name in pod.imagePullSecrets
  {
    forall kind, c ensures ByContainer(kind, c, name) <==> AnySource(kind, c.env + c.envFrom, name) {
      if src :| src in c.env + c.envFrom && Referent(kind, src) == Some(name) {
        assert src in c.env || src in c.envFrom;
      }
    }
  }

  method AppendSources(kind: Kind, sources: seq<Source>, names: seq<string>) returns (r: seq<string>)
    ensures forall n :: n in r <==> n in names || AnySource(kind, sources, n)
  {
    r := names;
    for i := 0 to |sources|
      invariant forall n :: n in r <==> n in names || AnySource(kind, sources[..i], n)
    {
      assert sources[..i + 1] == sources[..i] + [sources[i]];
      match Referent(kind, sources[i])
      case Some(n) => r := r + [n];
      case None =>
    }
    assert sources[..|sources|] == sources;
  }

  method AppendContainers(kind: Kind, containers: seq<Container>, names: seq<string>) returns (r: seq<string>)
    ensures forall n :: n in r <==> n in names || AnyContainer(kind, containers, n)
  {
    r := names;
    for i := 0 to |containers|
      invariant forall n :: n in r <==> n in names || AnyContainer(kind, containers[..i], n)
    {
      assert containers[..i + 1] == containers[..i] + [containers[i]];
      assert forall n :: AnyContainer(kind, containers[..i + 1], n) <==>
        AnyContainer(kind, containers[..i], n) || ByContainer(kind, containers[i], n);
      r := AppendSources(kind, containers[i].env, r);
      r := AppendSources(kind, containers[i].envFrom, r);
    }
    assert containers[..|containers|] == containers;
  }

  method AppendVolumes(kind: Kind, volumes: seq<Volume>, names: seq<string>) returns (r: seq<string>)
    ensures forall n :: n in r <==> n in names || AnyVolume(kind, volumes, n)
  {
    r := names;
    for i := 0 to |volumes|
      invariant forall n :: n in r <==> n in names || AnyVolume(kind, volumes[..i], n)
    {
      assert volumes[..i + 1] == volumes[..i] + [volumes[i]];
      assert forall n :: AnyVolume(kind, volumes[..i + 1], n) <==>
        AnyVolume(kind, volumes[..i], n) || ByVolume(kind, volumes[i], n);
      r := AppendSources(kind, [volumes[i].direct], r);
      r := AppendSources(kind, volumes[i].projected, r);
      assert forall n :: AnySource(kind, [volumes[i].direct], n) <==> Referent(kind, volumes[i].direct) == Some(n);
    }
    assert volumes[..|volumes|] == volumes;
  }

  /** The names a proxy pod is indexed under, in its own namespace. */
  method IndexNames(kind: Kind, pod: Pod) returns (names: seq<string>)
    ensures forall n :: n in names <==> pod.isProxy && Mentions(kind, pod, n)
  {
    if !pod.isProxy {
      return [];
    }
    names := AppendVolumes(kind, pod.volumes, []);
    names := AppendContainers(kind, pod.containers, names);
    names := AppendContainers(kind, pod.initContainers, names);
    if kind.Secrets? {
      names := names + pod.imagePullSecrets;
    }
  }

  /** Some proxy pod that runs in the target needs the object. */
  ghost predicate Needed(kind: Kind, pods: seq<Pod>, node: string, key: Key) {
    exists p :: p in pods && p.isProxy && p.ns == key.ns && Mentions(kind, p, key.name) && p.node == node
  }

  method ShouldFollow(kind: Kind, pods: seq<Pod>, node: string, key: Key) returns (r: bool)
    ensures r <==> Needed(kind, pods, node, key)
  {
    for i := 0 to |pods|
      invariant !Needed(kind, pods[..i], node, key)
    {
      assert pods[..i + 1] == pods[..i] + [pods[i]];
      var names := IndexNames(kind, pods[i]);
      if pods[i].ns == key.ns && key.name in names && pods[i].node == node {
        return true;
      }
    }
    assert pods[..|pods|] == pods;
    return false;
  }

  // ---- The run ----

  datatype Outcome = Done | Error

  function Get(m: map<Key, Obj>, k: Key): Option<Obj> {
    if k in m then Some(m[k]) else None
  }

  class Reconciler {
    const kind: Kind
    const clusterName: string
    const node: string
    const finalizer: string
    var pods: seq<Pod>
    var local: map<Key, Obj>
    var remote: map<Key, Obj>
    /** How many more calls the servers accept. */
    var budget: nat

    constructor (kind: Kind, clusterName: string, node: string, finalizer: string, budget: nat)
      ensures this.kind == kind && this.clusterName == clusterName && this.node == node && this.finalizer == finalizer
      ensures pods == [] && local == map[] && remote == map[] && this.budget == budget
    {
      this.kind, this.clusterName, this.node, this.finalizer, this.budget := kind, clusterName, node, finalizer, budget;
      pods, local, remote := [], map[], map[];
    }

    method Accepted() returns (ok: bool)
      modifies this`budget
      ensures ok <==> old(budget) > 0
      ensures budget == old(budget) - if ok then 1 else 0
    {
      ok := budget > 0;
      if ok {
        budget := budget - 1;
      }
    }

    method DeleteRemote(key: Key) returns (outcome: Outcome)
      requires key in remote
      modifies this`remote, this`budget
      ensures outcome.Error? <==> old(budget) == 0
      ensures outcome.Error? ==> remote == old(remote)
      ensures outcome.Done? ==> Get(remote, key) == Deleted(old(remote)[key]) && remote - {key} == old(remote) - {key}
    {
      var ok := Accepted();
      if !ok {
        return Error;
      }
      if remote[key].finalizers == [] {
        remote := remote - {key};
      } else {
        remote := remote[key := remote[key].(terminating := true)];
      }
      return Done;
    }

    /** A terminating object whose last finalizer goes disappears. */
    method RemoveFinalizer(key: Key, j: nat) returns (outcome: Outcome)
      requires key in local && j < |local[key].finalizers| && local[key].terminating
      modifies this`local, this`budget
      ensures outcome.Error? <==> old(budget) == 0
      ensures outcome.Error? ==> local == old(local)
      ensures outcome.Done? ==>
        var o := old(local)[key].(finalizers := Without(old(local)[key].finalizers, j));
        Get(local, key) == (if o.finalizers == [] then None else Some(o)) && local - {key} == old(local) - {key}
    {
      var ok := Accepted();
      if !ok {
        return Error;
      }
      var o := local[key].(finalizers := local[key].finalizers[..j] + local[key].finalizers[j + 1..]);
      if o.finalizers == [] {
        local := local - {key};
      } else {
        local := local[key := o];
      }
      return Done;
    }

    method AddFinalizer(key: Key) returns (outcome: Outcome)
      requires key in local
      modifies this`local, this`budget
      ensures outcome.Error? <==> old(budget) == 0
      ensures budget == old(budget) - if outcome.Done? then 1 else 0
      ensures outcome.Error? ==> local == old(local)
      ensures outcome.Done? ==> local == old(local)[key := WithFinalizer(old(local)[key], finalizer)]
    {
      var ok := Accepted();
      if !ok {
        return Error;
      }
      var o := local[key];
      o := o.(finalizers := o.finalizers + [finalizer]);
      o := o.(labels := o.labels[LABEL_HAS_FINALIZER := "true"]);
      local := local[key := o];
      return Done;
    }

    /** Creates the copy, or brings it up to date. */
    method WriteCopy(key: Key) returns (outcome: Outcome)
      requires key in local
      modifies this`remote, this`budget
      ensures outcome.Error? ==> remote == old(remote) && old(budget) == 0
      ensures outcome.Done? ==>
        && remote - {key} == old(remote) - {key}
        && Get(remote, key) ==
             if key !in old(remote) then Some(MakeRemote(clusterName, key, local[key]))
             else if OutOfDate(clusterName, local[key], old(remote)[key])
             then Some(UpdatedRemote(clusterName, old(remote)[key], local[key]))
             else Some(old(remote)[key])
    {
      if key !in remote {
        var ok := Accepted();
        if !ok {
          return Error;
        }
        var gold := new Meta(key, "", local[key].labels, local[key].annotations);
        var parent := new Meta(key, local[key].uid, local[key].labels, local[key].annotations);
        AddRemoteControllerReference(gold, parent, clusterName);
        remote := remote[key := Obj("", 0, [], false, gold.labels, gold.annotations, local[key].payload)];
      } else if OutOfDate(clusterName, local[key], remote[key]) {
        var ok := Accepted();
        if !ok {
          return Error;
        }
        var copy := remote[key];
        copy := copy.(payload := Refreshed(copy.payload, local[key].payload));
        copy := copy.(labels := copy.labels[LABEL_PARENT_CLUSTER := clusterName]);
        remote := remote[key := copy];
      }
      return Done;
    }

    /** A run that completes leaves both objects as specified; one that is cut short by a failing call has
        written nothing to the target unless the local object is already as specified.  No other object is
        written. */
    method Handle(key: Key) returns (outcome: Outcome)
      modifies this`local, this`remote, this`budget
      ensures local - {key} == old(local) - {key} && remote - {key} == old(remote) - {key}
      ensures old(budget) >= 2 ==> outcome.Done?
      ensures var (l, r) := AfterRun(clusterName, finalizer, key, Get(old(local), key), Get(old(remote), key),
                                     Needed(kind, pods, node, key));
        && (outcome.Done? ==> Get(local, key) == l && Get(remote, key) == r)
        && (outcome.Error? ==>
              remote == old(remote) && (Get(local, key) == Get(old(local), key) || Get(local, key) == l))
    {
      if key !in local {
        if key in remote && IsRemoteControlled(remote[key].labels, clusterName) {
          outcome := DeleteRemote(key);
          return;
        }
        return Done;
      }
      var o := local[key];
      var hasFinalizer, j := HasFinalizer(o.finalizers, finalizer);
      var shouldFollow := ShouldFollow(kind, pods, node, key);
      if key in remote && !ParentControlsChild(remote[key].labels, remote[key].annotations, o.uid) {
        return Done;
      }
      if o.terminating {
        if key in remote {
          outcome := DeleteRemote(key);
        } else if hasFinalizer {
          FirstIndexIs(o.finalizers, finalizer, j);
          outcome := RemoveFinalizer(key, j);
        } else {
          outcome := Done;
        }
      } else if shouldFollow {
        if !hasFinalizer {
          outcome := AddFinalizer(key);
          if outcome.Error? {
            return;
          }
        }
        outcome := WriteCopy(key);
      } else {
        outcome := Done;
      }
    }
  }
}
