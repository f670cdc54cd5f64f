/** The two-scheduler election as a transition system over single API calls.

    The proxy scheduler of one source cluster offers each proxy pod to every eligible target by
    creating a candidate pod chaperon there, waits for the target's candidate scheduler to mark it
    reserved, allows one of them, waits for it to be bound, binds the proxy pod and deletes the other
    candidates.  The candidate schedulers, the chaperon controllers, the feedback controllers, users
    and other source clusters all act on the same objects between any two of those calls. */
module ElectionModel {
  import opened Kube
  import opened RemoteControl
  import opened ChaperonServer

  // ---- Configuration ----

  /** A node as the proxy scheduler sees it; `ns` is the target namespace label, empty if absent. */
  datatype Node = Node(isVirtual: bool, ns: string)

  /** `targets` maps the virtual node name of each target to the target's namespace (empty for all). */
  datatype Config = Config(clusterName: string, nodes: map<string, Node>, targets: map<string, string>)

  /** Filter may try to create a candidate for a pod in namespace `ns` behind node `n`. */
  predicate FilterScope(cfg: Config, n: string, ns: string) {
    && n in cfg.nodes && cfg.nodes[n].isVirtual && (cfg.nodes[n].ns == "" || cfg.nodes[n].ns == ns)
  }

  /** PostBind visits target `c` for a pod in namespace `ns` bound to `node`. */
  predicate PostBindScope(cfg: Config, c: string, ns: string, node: string) {
    c in cfg.targets && c != node && (cfg.targets[c] == "" || cfg.targets[c] == ns)
  }

  // ---- State ----

  datatype ProxyPod = ProxyPod(uid: string, node: string, terminating: bool)

  /** Where a scheduling cycle is between two calls. */
  datatype Stage =
    | Filtering
    | Allowing(candidate: Key)
    | Creating
    | Waiting
    | Ready
    | Bound
    | Failed

  /** One scheduling and binding cycle of a pod: the nodes that passed Filter, the nodes whose last
      poll found no candidate, the chosen node, and the targets PostBind has visited and cleaned. */
  datatype Cycle = Cycle(key: Key, noReservation: bool, passed: set<string>, absent: set<string>,
                         stage: Stage, node: string, visited: set<string>, cleaned: set<string>)

  /** A chaperon controller run: the cached copy it started from and the copy it writes next. */
  datatype Sync = Sync(cached: Chaperon, current: Chaperon)

  /** A target cluster: its server, the chaperon controller runs in flight, and the deletions the
      target's feedback controller has decided on but not yet sent. */
  datatype Cluster = Cluster(api: Server, syncs: map<Key, Sync>, deciding: set<Key>)

  datatype State = State(pods: map<Key, ProxyPod>, issued: map<string, Key>, clusters: map<string, Cluster>,
                         cycles: map<string, Cycle>, failed: map<string, set<string>>)

  function Init(cfg: Config): State {
    State(map[], map[], map c | c in cfg.targets :: Cluster(EMPTY, map[], {}), map[], map[])
  }

  /** What a poll of getCandidate found. */
  datatype Seen = SeenNone | SeenMany | SeenReserved | SeenUnschedulable | SeenPending

  /** Calls of the proxy scheduler for one pod. */
  datatype ProxyCall =
    | StartCycle(noReservation: bool)
    | FilterSkip(n: string)
    | FilterPoll(n: string, seen: Seen)
    | FilterCreate(n: string, obj: Chaperon)
    | FilterGiveUp(n: string)
    | PostFilter
    | AbortCycle
    | Reserve(n: string)
    | ReserveAllow
    | ReserveCreate(obj: Chaperon)
    | CycleFails
    | PreBind
    | Bind
    | Unreserve
    | PostBindDelete(c: string, ok: bool)
    | PostBindDone

  /** Calls that touch one target cluster: its candidate scheduler, its chaperon controller, the
      source's feedback controller for it, users, and other source clusters. */
  datatype TargetCall =
    | CandidatePreFilter(k: Key)
    | CandidateReserve(k: Key)
    | CandidatePreBind(k: Key)
    | SyncRead(cached: Chaperon)
    | SyncStampMissing(k: Key, stamp: string)
    | SyncClearMissing(k: Key)
    | SyncStatus(k: Key, status: Status)
    | SyncAnnotate(k: Key, podAnnotations: map<string, string>)
    | SyncEnd(k: Key)
    | FeedbackRead(pod: Key)
    | FeedbackDelete(k: Key, ok: bool)
    | FeedbackRelabel(cached: Chaperon)
    | ChaperonEdited(obj: Chaperon)
    | ChaperonDeleted(k: Key)
    | ForeignCreated(obj: Chaperon)
    | ForeignWritten(obj: Chaperon)

  /** Events on proxy pods in the source cluster. */
  datatype PodEvent = Created(u: string) | Terminating | Gone

  datatype Step =
    | Proxy(u: string, call: ProxyCall)
    | Target(c: string, act: TargetCall)
    | PodStep(pod: Key, event: PodEvent)

  // ---- Reading ----

  predicate IsUnschedulable(o: Chaperon) {
    exists i :: 0 <= i < |o.status.conditions| &&
                var q := o.status.conditions[i];
                q.kind == "PodScheduled" && q.status == "False"
                    && (q.reason == "Unschedulable" || q.reason == "SchedulingGated")
  }

  /** The first PodScheduled condition decides: bound, failed, or not decided yet. */
  function ScheduledStatus(cs: seq<Condition>): Option<string> {
    if cs == [] then None
    else if cs[0].kind == "PodScheduled" then Some(cs[0].status)
    else ScheduledStatus(cs[1..])
  }

  function Candidates(s: State, n: string, u: string): set<Key>
    requires n in s.clusters && u in s.cycles
  {
    ListByParent(s.clusters[n].api, s.cycles[u].key.ns, u)
  }

  /** What one poll of Filter observes on the server. */
  ghost predicate Observes(s: State, u: string, n: string, seen: Seen)
    requires n in s.clusters && u in s.cycles
  {
    var l := Candidates(s, n, u);
    if l == {} then seen == SeenNone
    else if |l| > 1 then seen == SeenMany
    else
      exists k :: k in l && k in s.clusters[n].api.objs &&
        var o := s.clusters[n].api.objs[k];
        seen == if IsUnschedulable(o) then SeenUnschedulable
                else if ANNOTATION_IS_RESERVED in o.annotations then SeenReserved
                else SeenPending
  }

  function FailedNodes(s: State, u: string): set<string> {
    if u in s.failed then s.failed[u] else {}
  }

  /** The candidate made from the proxy pod of a cycle: no prefixed annotation of the source pod
      survives, and the reference to the proxy pod is recorded. */
  ghost predicate IsNewCandidate(cfg: Config, s: State, u: string, o: Chaperon)
    requires u in s.cycles
  {
    && o.key.ns == s.cycles[u].key.ns
    && o.status == Status("", [])
    && (exists l :: o.labels == ReferenceLabels(l, u, cfg.clusterName))
    && (exists a :: o.annotations == ReferenceAnnotations(Others(a), s.cycles[u].key))
  }

  /** The deletions a feedback run decides on from a current view of the pod and the target. */
  ghost function FeedbackDecision(cfg: Config, s: State, c: string, pod: Key): set<Key>
    requires c in s.clusters
  {
    var api := s.clusters[c].api;
    if pod !in s.pods then
      set k | k in api.objs && IsRemoteControlled(api.objs[k].labels, cfg.clusterName)
              && ParentKey(k, api.objs[k].annotations) == QueueKey(pod) :: Key(pod.ns, k.name)
    else
      var p := s.pods[pod];
      var l := ListByParent(api, pod.ns, p.uid);
      if |l| > 1 then {}
      else set k | k in l && k in api.objs
                  && (p.terminating || (p.node != "" && p.node != c)
                      || ANNOTATION_MISSING_SINCE in api.objs[k].annotations)
  }

  // ---- Enabling conditions ----

  ghost predicate ProxyEnabled(cfg: Config, s: State, u: string, call: ProxyCall) {
    if call.StartCycle? then u in s.issued && u !in s.cycles
    else if u !in s.cycles then false
    else
      var cy := s.cycles[u];
      match call
      case StartCycle(_) => true
      case FilterSkip(n) =>
        cy.stage.Filtering? && cy.noReservation && FilterScope(cfg, n, cy.key.ns) && n !in FailedNodes(s, u)
      case FilterPoll(n, seen) =>
        && cy.stage.Filtering? && !cy.noReservation && FilterScope(cfg, n, cy.key.ns) && n !in FailedNodes(s, u)
        && n in s.clusters && n !in cy.absent && Observes(s, u, n, seen)
      case FilterCreate(n, o) =>
        && cy.stage.Filtering? && n in cy.absent && n in s.clusters
        && IsNewCandidate(cfg, s, u, o) && Fresh(s.clusters[n].api, o.key)
      case FilterGiveUp(n) => cy.stage.Filtering? && n in cy.absent
      case PostFilter => cy.stage.Filtering? && cy.absent == {} && cy.passed == {}
      case AbortCycle => cy.stage.Filtering? && cy.absent == {}
      case Reserve(n) => cy.stage.Filtering? && cy.absent == {} && n in cy.passed
      case ReserveAllow => cy.stage.Allowing? && cy.node in s.clusters
      case ReserveCreate(o) =>
        && cy.stage.Creating? && cy.node in s.clusters
        && IsNewCandidate(cfg, s, u, o) && Fresh(s.clusters[cy.node].api, o.key)
      case CycleFails => cy.stage.Allowing? || cy.stage.Creating? || cy.stage.Waiting? || cy.stage.Ready?
      case PreBind =>
        && cy.stage.Waiting? && cy.node in s.clusters
        && |Candidates(s, cy.node, u)| == 1
        && (exists k :: k in Candidates(s, cy.node, u) && k in s.clusters[cy.node].api.objs
                        && ScheduledStatus(s.clusters[cy.node].api.objs[k].status.conditions) == Some("True"))
      case Bind => cy.stage.Ready? && cy.key in s.pods && s.pods[cy.key].uid == u && s.pods[cy.key].node == ""
      case Unreserve => cy.stage.Failed?
      case PostBindDelete(c, _) =>
        cy.stage.Bound? && c in s.clusters && c !in cy.visited && PostBindScope(cfg, c, cy.key.ns, cy.node)
      case PostBindDone =>
        && cy.stage.Bound?
        && (forall c :: c in cfg.targets && PostBindScope(cfg, c, cy.key.ns, cy.node) ==> c in cy.visited)
  }

  ghost predicate TargetEnabled(cfg: Config, s: State, c: string, act: TargetCall)
    requires c in s.clusters
  {
    var cl := s.clusters[c];
    var objs := cl.api.objs;
    match act
    case CandidatePreFilter(k) => k in objs
    case CandidateReserve(k) => k in objs
    case CandidatePreBind(k) => k in objs && ANNOTATION_IS_ALLOWED in objs[k].annotations
    case SyncRead(o) => o in cl.api.served && o.key !in cl.syncs
    case SyncStampMissing(k, _) => k in cl.syncs && ANNOTATION_MISSING_SINCE !in cl.syncs[k].cached.annotations
    case SyncClearMissing(k) => k in cl.syncs && ANNOTATION_MISSING_SINCE in cl.syncs[k].cached.annotations
    case SyncStatus(k, _) => k in cl.syncs
    case SyncAnnotate(k, _) => k in cl.syncs
    case SyncEnd(k) => k in cl.syncs
    case FeedbackRead(pod) => pod.ns != "" && '/' !in pod.ns
    case FeedbackDelete(k, _) => k in cl.deciding
    case FeedbackRelabel(o) => o in cl.api.served && Parent(o) in s.issued
    case ChaperonEdited(o) =>
      o.key in objs && Ours(o.labels) == Ours(objs[o.key].labels)
          && Ours(o.annotations) == Ours(objs[o.key].annotations)
    case ChaperonDeleted(k) => true
    case ForeignCreated(o) =>
      Fresh(cl.api, o.key) && Parent(o) !in s.issued && !IsRemoteControlled(o.labels, cfg.clusterName)
    case ForeignWritten(o) =>
      && o.key in objs && Parent(objs[o.key]) !in s.issued && Reference(o) == Reference(objs[o.key])
      && !IsRemoteControlled(o.labels, cfg.clusterName)
  }

  ghost predicate PodEnabled(s: State, pod: Key, event: PodEvent) {
    match event
    case Created(u) =>
      && pod !in s.pods && u !in s.issued && u != "" && pod.ns != "" && pod.name != "" && '/' !in pod.ns
      && (forall c, o :: c in s.clusters && o in s.clusters[c].api.served ==> Parent(o) != u)
    case Terminating => pod in s.pods
    case Gone => pod in s.pods
  }

  ghost predicate Enabled(cfg: Config, s: State, step: Step) {
    match step
    case Proxy(u, call) => ProxyEnabled(cfg, s, u, call)
    case Target(c, act) => c in s.clusters && TargetEnabled(cfg, s, c, act)
    case PodStep(pod, event) => PodEnabled(s, pod, event)
  }

  // ---- Effects ----

  function SetCycle(s: State, u: string, cy: Cycle): State {
    s.(cycles := s.cycles[u := cy])
  }

  function SetApi(s: State, c: string, api: Server): State
    requires c in s.clusters
  {
    s.(clusters := s.clusters[c := s.clusters[c].(api := api)])
  }

  /** The server after a call: changed if the call was answered, untouched on an error. */
  function After(api: Server, r: Reply): Server {
    if r.Stored? then r.server else api
  }

  /** The stage Reserve reaches after its first call, getCandidate. */
  ghost function AfterReserveRead(s: State, u: string, n: string): Stage
    requires u in s.cycles
  {
    if n !in s.clusters then Failed
    else
      var l := Candidates(s, n, u);
      if |l| > 1 then Failed
      else if l == {} then (if s.cycles[u].noReservation then Creating else Failed)
      else Allowing(TheOne(l))
  }

  ghost function TheOne(l: set<Key>): (k: Key)
    requires l != {}
    ensures k in l
  {
    var k :| k in l; k
  }

  const ALLOW: Patch := map[ANNOTATION_IS_ALLOWED := Some("true")]
  const RESERVE: Patch := map[ANNOTATION_IS_RESERVED := Some("true")]
  const UNRESERVE: Patch := map[ANNOTATION_IS_RESERVED := None]
  const CLEAR_MISSING: Patch := map[ANNOTATION_MISSING_SINCE := None]

  function StampMissing(stamp: string): Patch {
    map[ANNOTATION_MISSING_SINCE := Some(stamp)]
  }

  ghost function ApplyProxy(cfg: Config, s: State, u: string, call: ProxyCall): State
    requires ProxyEnabled(cfg, s, u, call)
  {
    if call.StartCycle? then
      SetCycle(s, u, Cycle(s.issued[u], call.noReservation, {}, {}, Filtering, "", {}, {}))
    else
      var cy := s.cycles[u];
      match call
      case StartCycle(_) => s
      case FilterSkip(n) => SetCycle(s, u, cy.(passed := cy.passed + {n}))
      case FilterPoll(n, seen) =>
        if seen.SeenNone? then SetCycle(s, u, cy.(absent := cy.absent + {n}))
        else if seen.SeenReserved? then SetCycle(s, u, cy.(passed := cy.passed + {n}))
        else s
      case FilterCreate(n, o) =>
        SetApi(SetCycle(s, u, cy.(absent := cy.absent - {n})), n, Write(s.clusters[n].api, o))
      case FilterGiveUp(n) => SetCycle(s, u, cy.(absent := cy.absent - {n}))
      case PostFilter => s.(cycles := s.cycles - {u}, failed := s.failed[u := {}])
      case AbortCycle => s.(cycles := s.cycles - {u})
      case Reserve(n) => SetCycle(s, u, cy.(node := n, stage := AfterReserveRead(s, u, n)))
      case ReserveAllow =>
        var r := PatchAnnotations(s.clusters[cy.node].api, cy.stage.candidate, ALLOW);
        SetApi(SetCycle(s, u, cy.(stage := if r.Stored? then Waiting else Failed)),
               cy.node, After(s.clusters[cy.node].api, r))
      case ReserveCreate(o) =>
        SetApi(SetCycle(s, u, cy.(stage := Waiting)), cy.node, Write(s.clusters[cy.node].api, o))
      case CycleFails => SetCycle(s, u, cy.(stage := Failed))
      case PreBind => SetCycle(s, u, cy.(stage := Ready))
      case Bind =>
        SetCycle(s, u, cy.(stage := Bound)).(pods := s.pods[cy.key := s.pods[cy.key].(node := cy.node)])
      case Unreserve => s.(cycles := s.cycles - {u}, failed := s.failed[u := FailedNodes(s, u) + {cy.node}])
      case PostBindDelete(c, ok) =>
        if ok then
          SetApi(SetCycle(s, u, cy.(visited := cy.visited + {c}, cleaned := cy.cleaned + {c})),
                 c, Delete(s.clusters[c].api, ListByParent(s.clusters[c].api, cy.key.ns, u)))
        else SetCycle(s, u, cy.(visited := cy.visited + {c}))
      case PostBindDone => s.(cycles := s.cycles - {u}, failed := s.failed - {u})
  }

  /** The effect of a call on the target cluster it touches; nothing else changes. */
  ghost function ApplyTarget(cfg: Config, s: State, c: string, act: TargetCall): Cluster
    requires c in s.clusters && TargetEnabled(cfg, s, c, act)
  {
    var cl := s.clusters[c];
    var api := cl.api;
    match act
    case CandidatePreFilter(k) => cl.(api := After(api, PatchAnnotations(api, k, UNRESERVE)))
    case CandidateReserve(k) => cl.(api := After(api, PatchAnnotations(api, k, RESERVE)))
    case CandidatePreBind(k) => cl
    case SyncRead(o) => cl.(syncs := cl.syncs[o.key := Sync(o, o)])
    case SyncStampMissing(k, stamp) =>
      cl.(api := After(api, PatchAnnotations(api, k, StampMissing(stamp))), syncs := cl.syncs - {k})
    case SyncClearMissing(k) => cl.(api := After(api, PatchAnnotations(api, k, CLEAR_MISSING)))
    case SyncStatus(k, status) =>
      var r := UpdateStatus(api, cl.syncs[k].current.(status := status));
      if r.Stored? then cl.(api := r.server, syncs := cl.syncs[k := Sync(cl.syncs[k].cached, r.obj)])
      else cl.(syncs := cl.syncs - {k})
    case SyncAnnotate(k, podAnnotations) =>
      var y := cl.syncs[k];
      var r := Update(api, y.current.(annotations := Ours(y.cached.annotations) + Others(podAnnotations)));
      cl.(api := After(api, r), syncs := cl.syncs - {k})
    case SyncEnd(k) => cl.(syncs := cl.syncs - {k})
    case FeedbackRead(pod) => cl.(deciding := cl.deciding + FeedbackDecision(cfg, s, c, pod))
    case FeedbackDelete(k, ok) =>
      cl.(api := if ok then Delete(api, {k}) else api, deciding := cl.deciding - {k})
    case FeedbackRelabel(o) =>
      cl.(api := After(api, Update(api, o.(labels := o.labels[LABEL_PARENT_CLUSTER := cfg.clusterName]))))
    case ChaperonEdited(o) => cl.(api := Write(api, o))
    case ChaperonDeleted(k) => cl.(api := Delete(api, {k}))
    case ForeignCreated(o) => cl.(api := Write(api, o))
    case ForeignWritten(o) => cl.(api := Write(api, o))
  }

  ghost function ApplyPod(s: State, pod: Key, event: PodEvent): State
    requires PodEnabled(s, pod, event)
  {
    match event
    case Created(u) => s.(pods := s.pods[pod := ProxyPod(u, "", false)], issued := s.issued[u := pod])
    case Terminating => s.(pods := s.pods[pod := s.pods[pod].(terminating := true)])
    case Gone => s.(pods := s.pods - {pod})
  }

  ghost function Apply(cfg: Config, s: State, step: Step): State
    requires Enabled(cfg, s, step)
  {
    match step
    case Proxy(u, call) => ApplyProxy(cfg, s, u, call)
    case Target(c, act) => s.(clusters := s.clusters[c := ApplyTarget(cfg, s, c, act)])
    case PodStep(pod, event) => ApplyPod(s, pod, event)
  }

  // ---- Runs ----

  /** The state reached by a run of enabled steps from the initial state, or nothing. */
  ghost function Exec(cfg: Config, run: seq<Step>): Option<State> {
    if run == [] then Some(Init(cfg))
    else
      var before := Exec(cfg, run[..|run| - 1]);
      var step := run[|run| - 1];
      if before.Some? && Enabled(cfg, before.value, step) then Some(Apply(cfg, before.value, step)) else None
  }

  ghost predicate Reaches(cfg: Config, run: seq<Step>, s: State) {
    Exec(cfg, run) == Some(s)
  }
}
