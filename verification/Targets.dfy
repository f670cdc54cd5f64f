/** Configured targets make a valid configuration of the follow protocol, unless their names collide. */
module Targets {
  import opened Kube
  import opened Names
  import FollowSafety

  function ConfigOf(clusterName: string, ids: map<string, Target>, hash: string -> string): FollowSafety.Config {
    FollowSafety.Config(clusterName, map t | t in ids && Finalizer(ids[t], hash).Some? :: Finalizer(ids[t], hash).value)
  }

  lemma FinalizersExist(clusterName: string, ids: map<string, Target>, hash: string -> string)
    requires forall t :: t in ids ==> ValidTarget(ids[t])
    ensures var cfg := ConfigOf(clusterName, ids, hash);
      && cfg.targets.Keys == ids.Keys
      && (forall t :: t in ids ==> IsOurs(cfg.targets[t]) && Finalizer(ids[t], hash) == Some(cfg.targets[t]))
  {
    forall t | t in ids ensures Finalizer(ids[t], hash).Some? {
      AlwaysResult(SHORT, [], [0], [ids[t].ns, ids[t].name], hash);
    }
    forall t | t in ids ensures IsOurs(Finalizer(ids[t], hash).value) {
      assert KEY_PREFIX <= KEY_PREFIX + FinalizerPart(ids[t], hash).value;
    }
  }

  /** Every target gets a finalizer in this system's domain; together they are a configuration of the follow
      protocol if and only if no two targets clash. */
  lemma GeneratedFinalizersServe(clusterName: string, ids: map<string, Target>, hash: string -> string)
    requires IsHash(hash)
    requires forall t :: t in ids ==> ValidTarget(ids[t])
    requires forall t, t' :: t in ids && t' in ids && t != t' ==> ids[t] != ids[t']
    ensures ConfigOf(clusterName, ids, hash).targets.Keys == ids.Keys
    ensures FollowSafety.ValidConfig(ConfigOf(clusterName, ids, hash)) <==>
      forall t, t' :: t in ids && t' in ids && t != t' ==> !FinalizerClash(ids[t], ids[t'], hash)
  {
    FinalizersExist(clusterName, ids, hash);
    var cfg := ConfigOf(clusterName, ids, hash);
    forall t, t' | t in ids && t' in ids && t != t'
      ensures cfg.targets[t] == cfg.targets[t'] <==> FinalizerClash(ids[t], ids[t'], hash)
    {
      FinalizersCollide(ids[t], ids[t'], hash);
    }
  }
}
