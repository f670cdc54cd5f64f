/** The labels a virtual node starts with, and what the proxy scheduler reads from them. */
module VirtualNode {
  import opened Kube
  import opened RemoteControl
  import opened ElectionModel
  import opened ElectionTheorems

  const LABEL_TARGET_NAMESPACE := KEY_PREFIX + "target-namespace"
  const LABEL_TARGET_NAME := KEY_PREFIX + "target-name"
  const LABEL_CLUSTER_TARGET_NAME := KEY_PREFIX + "cluster-target-name"

  function BaseLabels(targetNamespace: string, targetName: string): map<string, string> {
    var l := map["type" := "virtual-kubelet",
                 PROVIDER_KEY := PROVIDER,
                 "kubernetes.io/role" := "cluster",
                 "alpha.service-controller.kubernetes.io/exclude-balancer" := "true",
                 "node.kubernetes.io/exclude-from-external-load-balancers" := "true"];
    if targetNamespace == "" then l[LABEL_CLUSTER_TARGET_NAME := targetName]
    else l[LABEL_TARGET_NAMESPACE := targetNamespace][LABEL_TARGET_NAME := targetName]
  }

  /** The node as Filter sees it. */
  function Seen(labels: map<string, string>): Node {
    Node(Lookup(labels, PROVIDER_KEY) == PROVIDER, Lookup(labels, LABEL_TARGET_NAMESPACE))
  }

  /** The keys differ in length. */
  lemma KeyLengths()
    ensures |"type"| == 4 && |PROVIDER_KEY| == 27 && |"kubernetes.io/role"| == 18
    ensures |"alpha.service-controller.kubernetes.io/exclude-balancer"| == 55
    ensures |"node.kubernetes.io/exclude-from-external-load-balancers"| == 55
    ensures |LABEL_TARGET_NAMESPACE| == 42 && |LABEL_TARGET_NAME| == 37 && |LABEL_CLUSTER_TARGET_NAME| == 45
  {
  }

  lemma BaseLabelsSeen(targetNamespace: string, targetName: string)
    ensures Seen(BaseLabels(targetNamespace, targetName)) == Node(true, targetNamespace)
  {
    KeyLengths();
  }

  /** Nodes that still have their base labels meet what the cleanup after binding relies on. */
  lemma BaseLabelsMatchTargets(cfg: Config, names: map<string, string>)
    requires cfg.targets.Keys <= names.Keys
    requires forall n :: n in cfg.nodes && n in cfg.targets ==>
      cfg.nodes[n] == Seen(BaseLabels(cfg.targets[n], names[n]))
    ensures LabelsMatchTargets(cfg)
  {
    forall n | n in cfg.nodes && n in cfg.targets ensures cfg.nodes[n].ns == cfg.targets[n] {
      BaseLabelsSeen(cfg.targets[n], names[n]);
    }
  }
}
