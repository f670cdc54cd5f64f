/** Deleting a followed object terminates.  Runs of the targets' controllers and whoever takes out the copies'
    own finalizers, for instance because copies are followed onward, take turns in any order. */
module FollowDeletion {
  import opened Kube
  import opened FollowModel

  /** One name in the source cluster and in every target; `finalizers` gives each target's finalizer. */
  datatype State = State(local: Option<Obj>, copies: map<string, Option<Obj>>)

  datatype Config = Config(clusterName: string, key: Key, finalizers: map<string, string>)

  ghost predicate Distinct(cfg: Config) {
    forall t, t' :: t in cfg.finalizers && t' in cfg.finalizers && cfg.finalizers[t] == cfg.finalizers[t'] ==> t == t'
  }

  predicate IsTarget(cfg: Config, f: string) {
    f in cfg.finalizers.Values
  }

  function Finalizers(s: State): seq<string> {
    if s.local.Some? then s.local.value.finalizers else []
  }

  /** The finalizers that belong to nobody here, in order. */
  function Foreign(cfg: Config, fs: seq<string>): seq<string> {
    if fs == [] then []
    else (if IsTarget(cfg, fs[0]) then [] else [fs[0]]) + Foreign(cfg, fs[1..])
  }

  /** The object is on its way out: it terminates, and every target holds nothing of that name or a copy of
      this object, guarded by the target's finalizer.  What terminates has finalizers, or it would be gone. */
  ghost predicate Leaving(cfg: Config, s: State, uid: string) {
    && s.copies.Keys == cfg.finalizers.Keys
    && (s.local.Some? ==> s.local.value.terminating && s.local.value.uid == uid && s.local.value.finalizers != [])
    && (forall t :: t in s.copies && s.copies[t].Some? ==>
          && s.local.Some? && Owns(s.local.value, s.copies[t].value) && cfg.finalizers[t] in s.local.value.finalizers
          && (s.copies[t].value.terminating ==> s.copies[t].value.finalizers != []))
  }

  // ---- Turns ----

  /** A run of target t's controller, or somebody taking out one of the finalizers of t's copy. */
  datatype Turn = Run(t: string, shouldFollow: bool) | Release(t: string, j: nat)

  function Handle(cfg: Config, s: State, t: string, shouldFollow: bool): State
    requires t in cfg.finalizers && t in s.copies
  {
    var (local, copy) := AfterRun(cfg.clusterName, cfg.finalizers[t], cfg.key, s.local, s.copies[t], shouldFollow);
    State(local, s.copies[t := copy])
  }

  /** The copy without one of its finalizers, any of them; a terminating one disappears with its last. */
  function Released(copy: Option<Obj>, j: nat): Option<Obj> {
    if copy.None? || copy.value.finalizers == [] then copy
    else
      var fs := Without(copy.value.finalizers, j % |copy.value.finalizers|);
      if copy.value.terminating && fs == [] then None else Some(copy.value.(finalizers := fs))
  }

  function Take(cfg: Config, s: State, turn: Turn): State
    requires turn.t in cfg.finalizers && turn.t in s.copies
  {
    match turn
    case Run(t, shouldFollow) => Handle(cfg, s, t, shouldFollow)
    case Release(t, j) => s.(copies := s.copies[t := Released(s.copies[t], j)])
  }

  // ---- What a target still has to do ----

  /** A copy by the number of its own finalizers. */
  datatype Copy = Gone | Live(own: nat) | Going(own: nat)

  datatype Task = Task(copy: Copy, finalizers: nat)

  function CopyOf(o: Option<Obj>): Copy {
    if o.None? then Gone
    else if o.value.terminating then Going(|o.value.finalizers|)
    else Live(|o.value.finalizers|)
  }

  function TaskOf(cfg: Config, s: State, t: string): Task
    requires t in cfg.finalizers && t in s.copies
  {
    Task(CopyOf(s.copies[t]), Count(Finalizers(s), cfg.finalizers[t]))
  }

  /** One turn of the target, by numbers. */
  function Worked(task: Task, turn: Turn): Task {
    match (task.copy, turn)
    case (Live(own), Run(_, _)) => task.(copy := if own == 0 then Gone else Going(own))
    case (Going(_), Run(_, _)) => task
    case (Gone, Run(_, _)) => task.(finalizers := if task.finalizers == 0 then 0 else task.finalizers - 1)
    case (Live(own), Release(_, _)) => task.(copy := Live(if own == 0 then 0 else own - 1))
    case (Going(own), Release(_, _)) => task.(copy := if own <= 1 then Gone else Going(own - 1))
    case (Gone, Release(_, _)) => task
  }

  /** Whether the turn achieves anything: a run waits for the finalizers of a terminating copy. */
  predicate Effective(task: Task, turn: Turn) {
    match turn
    case Run(_, _) => task.copy.Live? || (task.copy.Gone? && task.finalizers > 0)
    case Release(_, _) => !task.copy.Gone? && task.copy.own > 0
  }

  /** The copy, its finalizers and the target's finalizers on the object. */
  function Outstanding(task: Task): nat {
    (match task.copy case Gone => 0 case Live(own) => 1 + own case Going(own) => own) + task.finalizers
  }

  predicate Done(task: Task) {
    task.copy.Gone? && task.finalizers == 0
  }

  lemma {:induction false} ForeignConcat(cfg: Config, a: seq<string>, b: seq<string>)
    ensures Foreign(cfg, a + b) == Foreign(cfg, a) + Foreign(cfg, b)
  {
    if a == [] {
      assert a + b == b;
    } else {
      assert (a + b)[1..] == a[1..] + b;
      ForeignConcat(cfg, a[1..], b);
    }
  }

  lemma ForeignWithout(cfg: Config, fs: seq<string>, j: nat)
    requires j < |fs| && IsTarget(cfg, fs[j])
    ensures Foreign(cfg, Without(fs, j)) == Foreign(cfg, fs)
  {
    assert fs == fs[..j] + ([fs[j]] + fs[j + 1..]);
    ForeignConcat(cfg, fs[..j], [fs[j]] + fs[j + 1..]);
    ForeignConcat(cfg, [fs[j]], fs[j + 1..]);
    ForeignConcat(cfg, fs[..j], fs[j + 1..]);
    assert [fs[j]][1..] == [];
  }

  lemma CountsAfter(cfg: Config, fs: seq<string>, t: string)
    requires Distinct(cfg) && t in cfg.finalizers && cfg.finalizers[t] in fs
    ensures var gs := Without(fs, FirstIndex(fs, cfg.finalizers[t]));
      && Foreign(cfg, gs) == Foreign(cfg, fs)
      && (forall t' :: t' in cfg.finalizers ==>
            Count(gs, cfg.finalizers[t']) == Count(fs, cfg.finalizers[t']) - if t' == t then 1 else 0)
      && (forall t' :: t' in cfg.finalizers && t' != t && cfg.finalizers[t'] in fs ==> cfg.finalizers[t'] in gs)
  {
    var j := FirstIndex(fs, cfg.finalizers[t]);
    ForeignWithout(cfg, fs, j);
    forall t' | t' in cfg.finalizers
      ensures Count(Without(fs, j), cfg.finalizers[t']) == Count(fs, cfg.finalizers[t']) - if t' == t then 1 else 0
      ensures t' != t && cfg.finalizers[t'] in fs ==> cfg.finalizers[t'] in Without(fs, j)
    {
      CountWithout(fs, j, cfg.finalizers[t']);
      CountZero(fs, cfg.finalizers[t']);
      CountZero(Without(fs, j), cfg.finalizers[t']);
    }
  }

  lemma RunEffect(cfg: Config, s: State, t: string, shouldFollow: bool, uid: string)
    requires t in cfg.finalizers && Leaving(cfg, s, uid)
    ensures var f, s' := cfg.finalizers[t], Handle(cfg, s, t, shouldFollow);
      if s.copies[t].Some? then s' == State(s.local, s.copies[t := Deleted(s.copies[t].value)])
      else if f in Finalizers(s) then
        && s.local.Some? && s'.copies == s.copies
        && Finalizers(s') == Without(Finalizers(s), FirstIndex(Finalizers(s), f))
        && (s'.local.Some? <==> Finalizers(s') != [])
        && (s'.local.Some? ==> s'.local.value.terminating && s'.local.value.uid == uid)
      else s' == s
  {
    assert s.copies[t := s.copies[t]] == s.copies;
  }

  ghost predicate Advances(cfg: Config, s: State, s': State, turn: Turn)
    requires s.copies.Keys == cfg.finalizers.Keys == s'.copies.Keys
  {
    forall t :: t in cfg.finalizers ==>
      TaskOf(cfg, s', t) == if t == turn.t then Worked(TaskOf(cfg, s, t), turn) else TaskOf(cfg, s, t)
  }

  /** The target's finalizer goes. */
  lemma FinalizerGoes(cfg: Config, s: State, s': State, turn: Turn, uid: string)
    requires Distinct(cfg) && turn.Run? && turn.t in cfg.finalizers && Leaving(cfg, s, uid)
    requires s.copies[turn.t].None? && cfg.finalizers[turn.t] in Finalizers(s) && s'.copies == s.copies
    requires Finalizers(s') == Without(Finalizers(s), FirstIndex(Finalizers(s), cfg.finalizers[turn.t]))
    requires s'.local.Some? <==> Finalizers(s') != []
    requires s'.local.Some? ==> s'.local.value.terminating && s'.local.value.uid == uid
    ensures Leaving(cfg, s', uid) && Advances(cfg, s, s', turn)
    ensures Foreign(cfg, Finalizers(s')) == Foreign(cfg, Finalizers(s))
  {
    var fs := Finalizers(s);
    CountsAfter(cfg, fs, turn.t);
    CountZero(fs, cfg.finalizers[turn.t]);
    forall t | t in s'.copies && s'.copies[t].Some?
      ensures s'.local.Some? && Owns(s'.local.value, s'.copies[t].value)
      ensures cfg.finalizers[t] in s'.local.value.finalizers
    {
      assert cfg.finalizers[t] in Finalizers(s');
    }
  }

  /** Only the copy changes. */
  lemma CopyChanges(cfg: Config, s: State, turn: Turn, copy: Option<Obj>, uid: string)
    requires turn.t in cfg.finalizers && Leaving(cfg, s, uid) && s.copies[turn.t].Some?
    requires copy.Some? ==>
      copy.value.labels == s.copies[turn.t].value.labels && copy.value.annotations == s.copies[turn.t].value.annotations
    requires copy.Some? && copy.value.terminating ==> copy.value.finalizers != []
    requires Task(CopyOf(copy), Count(Finalizers(s), cfg.finalizers[turn.t])) == Worked(TaskOf(cfg, s, turn.t), turn)
    ensures var s' := s.(copies := s.copies[turn.t := copy]); Leaving(cfg, s', uid) && Advances(cfg, s, s', turn)
  {
  }

  /** A turn does to its own target's task what the numbers say and nothing to another's; foreign finalizers
      stay in order. */
  lemma TurnEffect(cfg: Config, s: State, turn: Turn, uid: string)
    requires Distinct(cfg) && turn.t in cfg.finalizers && Leaving(cfg, s, uid)
    ensures var s' := Take(cfg, s, turn);
      Leaving(cfg, s', uid) && Advances(cfg, s, s', turn) && Foreign(cfg, Finalizers(s')) == Foreign(cfg, Finalizers(s))
  {
    var t, s' := turn.t, Take(cfg, s, turn);
    assert s.copies[t := s.copies[t]] == s.copies;
    match turn
    case Run(_, shouldFollow) =>
      RunEffect(cfg, s, t, shouldFollow, uid);
      if s.copies[t].Some? {
        CopyChanges(cfg, s, turn, Deleted(s.copies[t].value), uid);
      } else if cfg.finalizers[t] in Finalizers(s) {
        FinalizerGoes(cfg, s, s', turn, uid);
      } else {
        CountZero(Finalizers(s), cfg.finalizers[t]);
      }
    case Release(_, j) =>
      if s.copies[t].Some? {
        CopyChanges(cfg, s, turn, Released(s.copies[t], j), uid);
      }
  }

  // ---- The measure ----

  ghost predicate WellFormed(task: Task) {
    task.copy.Going? ==> task.copy.own > 0
  }

  /** Every effective turn takes one unit off; the others leave the task as it is. */
  lemma EffectiveDecreases(task: Task, turn: Turn)
    requires WellFormed(task)
    ensures WellFormed(Worked(task, turn))
    ensures if Effective(task, turn) then Outstanding(Worked(task, turn)) == Outstanding(task) - 1
        else Worked(task, turn) == task
    ensures Done(task) <==> Outstanding(task) == 0
  {
  }

  /** The total over any list of distinct targets. */
  function Total(cfg: Config, s: State, ts: seq<string>): nat
    requires s.copies.Keys == cfg.finalizers.Keys && forall t :: t in ts ==> t in cfg.finalizers
  {
    if ts == [] then 0 else Outstanding(TaskOf(cfg, s, ts[0])) + Total(cfg, s, ts[1..])
  }

  lemma {:induction false} TotalSum(cfg: Config, s: State, s': State, ts: seq<string>, t: string)
    requires s.copies.Keys == cfg.finalizers.Keys == s'.copies.Keys && forall x :: x in ts ==> x in cfg.finalizers
    requires forall i, j :: 0 <= i < j < |ts| ==> ts[i] != ts[j]
    requires forall x :: x in ts ==>
      Outstanding(TaskOf(cfg, s', x)) == Outstanding(TaskOf(cfg, s, x)) - if x == t then 1 else 0
    ensures Total(cfg, s', ts) == Total(cfg, s, ts) - if t in ts then 1 else 0
    decreases |ts|
  {
    if ts != [] {
      assert ts[0] !in ts[1..];
      TotalSum(cfg, s, s', ts[1..], t);
    }
  }

  lemma TasksWellFormed(cfg: Config, s: State, uid: string)
    requires Leaving(cfg, s, uid)
    ensures forall t :: t in cfg.finalizers ==> WellFormed(TaskOf(cfg, s, t))
  {
  }

  /** Copies, their finalizers and target finalizers strictly decrease with every effective turn. */
  lemma TotalDecreases(cfg: Config, s: State, ts: seq<string>, turn: Turn, uid: string)
    requires Distinct(cfg) && Leaving(cfg, s, uid) && turn.t in ts && forall x :: x in ts ==> x in cfg.finalizers
    requires forall i, j :: 0 <= i < j < |ts| ==> ts[i] != ts[j]
    requires Effective(TaskOf(cfg, s, turn.t), turn)
    ensures Take(cfg, s, turn).copies.Keys == cfg.finalizers.Keys
    ensures Total(cfg, Take(cfg, s, turn), ts) == Total(cfg, s, ts) - 1
  {
    TurnEffect(cfg, s, turn, uid);
    TasksWellFormed(cfg, s, uid);
    EffectiveDecreases(TaskOf(cfg, s, turn.t), turn);
    TotalSum(cfg, s, Take(cfg, s, turn), ts, turn.t);
  }

  // ---- Schedules ----

  function TakeAll(cfg: Config, s: State, schedule: seq<Turn>): State
    requires s.copies.Keys == cfg.finalizers.Keys && forall i :: 0 <= i < |schedule| ==> schedule[i].t in cfg.finalizers
    decreases |schedule|
  {
    if schedule == [] then s else TakeAll(cfg, Take(cfg, s, schedule[0]), schedule[1..])
  }

  /** What becomes of one target's task. */
  function WorkAll(task: Task, schedule: seq<Turn>, t: string): Task
    decreases |schedule|
  {
    if schedule == [] then task else WorkAll(After(task, schedule[0], t), schedule[1..], t)
  }

  function After(task: Task, turn: Turn, t: string): Task {
    if turn.t == t then Worked(task, turn) else task
  }

  function Runs(schedule: seq<Turn>, t: string): nat {
    if schedule == [] then 0 else (if schedule[0].Run? && schedule[0].t == t then 1 else 0) + Runs(schedule[1..], t)
  }

  function Releases(schedule: seq<Turn>, t: string): nat {
    if schedule == [] then 0
        else (if schedule[0].Release? && schedule[0].t == t then 1 else 0) + Releases(schedule[1..], t)
  }

  /** The number of the target's runs that achieve something. */
  function EffectiveRuns(task: Task, schedule: seq<Turn>, t: string): nat
    decreases |schedule|
  {
    if schedule == [] then 0
    else
      (if schedule[0].t == t && schedule[0].Run? && Effective(task, schedule[0]) then 1 else 0)
      + EffectiveRuns(After(task, schedule[0], t), schedule[1..], t)
  }

  /** One run for a live copy and one for each occurrence of the finalizer: two in all, in any schedule. */
  lemma {:induction false} FewRunsMatter(task: Task, schedule: seq<Turn>, t: string)
    ensures EffectiveRuns(task, schedule, t) <= (if task.copy.Live? then 1 else 0) + task.finalizers
    decreases |schedule|
  {
    if schedule != [] {
      FewRunsMatter(After(task, schedule[0], t), schedule[1..], t);
    }
  }

  lemma {:induction false} ScheduleEffect(cfg: Config, s: State, schedule: seq<Turn>, uid: string)
    requires Distinct(cfg) && Leaving(cfg, s, uid) && forall i :: 0 <= i < |schedule| ==>
      schedule[i].t in cfg.finalizers
    ensures var s' := TakeAll(cfg, s, schedule);
      && Leaving(cfg, s', uid)
      && Foreign(cfg, Finalizers(s')) == Foreign(cfg, Finalizers(s))
      && (forall t :: t in cfg.finalizers ==> TaskOf(cfg, s', t) == WorkAll(TaskOf(cfg, s, t), schedule, t))
    decreases |schedule|
  {
    if schedule != [] {
      TurnEffect(cfg, s, schedule[0], uid);
      ScheduleEffect(cfg, Take(cfg, s, schedule[0]), schedule[1..], uid);
    }
  }

  // ---- Which schedules finish ----

  /** By position i a live copy has had its run and the copy's finalizers are out; from there on enough runs
      follow to take out the target's finalizer. */
  ghost predicate ServedBy(task: Task, schedule: seq<Turn>, t: string, i: nat)
    requires !task.copy.Gone? && i <= |schedule|
  {
    && (task.copy.Live? ==> Runs(schedule[..i], t) >= 1)
    && Releases(schedule[..i], t) >= task.copy.own
    && Runs(schedule[i..], t) >= task.finalizers
  }

  ghost predicate Served(task: Task, schedule: seq<Turn>, t: string) {
    if task.copy.Gone? then Runs(schedule, t) >= task.finalizers
    else exists i :: 0 <= i <= |schedule| && ServedBy(task, schedule, t, i)
  }

  lemma {:induction false} RunsLater(schedule: seq<Turn>, t: string, i: nat)
    requires i <= |schedule|
    ensures Runs(schedule[i..], t) <= Runs(schedule, t)
  {
    if i > 0 {
      RunsLater(schedule[1..], t, i - 1);
      assert schedule[1..][i - 1..] == schedule[i..];
    } else {
      assert schedule[0..] == schedule;
    }
  }

  /** Positions move by one when the first turn is taken off. */
  lemma Shift(schedule: seq<Turn>, t: string, i: nat)
    requires 0 < i <= |schedule|
    ensures Runs(schedule[..i], t) == Runs(schedule[..1], t) + Runs(schedule[1..][..i - 1], t)
    ensures Releases(schedule[..i], t) == Releases(schedule[..1], t) + Releases(schedule[1..][..i - 1], t)
    ensures schedule[i..] == schedule[1..][i - 1..]
    ensures Runs(schedule[..1], t) == if schedule[0].Run? && schedule[0].t == t then 1 else 0
    ensures Releases(schedule[..1], t) == if schedule[0].Release? && schedule[0].t == t then 1 else 0
  {
    assert schedule[..i][1..] == schedule[1..][..i - 1];
    assert schedule[..1][1..] == [];
    assert schedule[..i][0] == schedule[0] == schedule[..1][0];
  }

  lemma ServedByFirst(task: Task, schedule: seq<Turn>, t: string, i: nat)
    requires WellFormed(task) && 0 < i <= |schedule| && !task.copy.Gone? && !After(task, schedule[0], t).copy.Gone?
    ensures ServedBy(task, schedule, t, i) <==> ServedBy(After(task, schedule[0], t), schedule[1..], t, i - 1)
  {
    Shift(schedule, t, i);
  }

  /** The first turn finishes the copy off. */
  lemma GoneFirst(task: Task, schedule: seq<Turn>, t: string)
    requires WellFormed(task) && schedule != [] && !task.copy.Gone? && After(task, schedule[0], t).copy.Gone?
    ensures ServedBy(task, schedule, t, 1) <==> Runs(schedule[1..], t) >= task.finalizers
    ensures After(task, schedule[0], t).finalizers == task.finalizers
  {
    Shift(schedule, t, 1);
    assert schedule[1..][..0] == [] && schedule[1..][0..] == schedule[1..];
  }

  /** If the rest of the schedule serves what the first turn leaves, the schedule serves the task. */
  lemma ServedFirst(task: Task, schedule: seq<Turn>, t: string)
    requires WellFormed(task) && schedule != [] && Served(After(task, schedule[0], t), schedule[1..], t)
    ensures Served(task, schedule, t)
  {
    var next, rest := After(task, schedule[0], t), schedule[1..];
    if !task.copy.Gone? {
      if next.copy.Gone? {
        GoneFirst(task, schedule, t);
      } else {
        var i :| 0 <= i <= |rest| && ServedBy(next, rest, t, i);
        ServedByFirst(task, schedule, t, i + 1);
      }
    }
  }

  lemma NotServedAtOnce(task: Task, schedule: seq<Turn>, t: string)
    requires WellFormed(task) && !task.copy.Gone?
    ensures !ServedBy(task, schedule, t, 0)
  {
    assert schedule[..0] == [];
  }

  lemma ServedRest(task: Task, schedule: seq<Turn>, t: string)
    requires WellFormed(task) && schedule != [] && Served(task, schedule, t)
    ensures Served(After(task, schedule[0], t), schedule[1..], t)
  {
    var next, rest := After(task, schedule[0], t), schedule[1..];
    if !task.copy.Gone? {
      NotServedAtOnce(task, schedule, t);
      var i :| 0 <= i <= |schedule| && ServedBy(task, schedule, t, i);
      if next.copy.Gone? {
        GoneFirst(task, schedule, t);
        Shift(schedule, t, i);
        RunsLater(rest, t, i - 1);
      } else {
        ServedByFirst(task, schedule, t, i);
      }
    }
  }

  lemma {:induction false} DoneIffServed(task: Task, schedule: seq<Turn>, t: string)
    requires WellFormed(task)
    ensures Done(WorkAll(task, schedule, t)) <==> Served(task, schedule, t)
    decreases |schedule|
  {
    if schedule == [] {
      assert forall i | 0 <= i <= |schedule| :: schedule[..i] == [] && schedule[i..] == [];
    } else {
      var next := After(task, schedule[0], t);
      EffectiveDecreases(task, schedule[0]);
      DoneIffServed(next, schedule[1..], t);
      if Served(task, schedule, t) {
        ServedRest(task, schedule, t);
      } else if Served(next, schedule[1..], t) {
        ServedFirst(task, schedule, t);
      }
    }
  }

  /** With no finalizers on the copy and one on the object, two runs serve, and nothing less. */
  lemma TwoRuns(task: Task, schedule: seq<Turn>, t: string)
    requires task == Task(Live(0), 1)
    ensures Served(task, schedule, t) <==> Runs(schedule, t) >= 2
  {
    if Served(task, schedule, t) {
      var i :| 0 <= i <= |schedule| && ServedBy(task, schedule, t, i);
      RunsSplit(schedule, t, i);
    } else if Runs(schedule, t) >= 2 {
      var i := FirstRun(schedule, t);
      RunsSplit(schedule, t, i);
      assert ServedBy(task, schedule, t, i);
    }
  }

  lemma {:induction false} RunsSplit(schedule: seq<Turn>, t: string, i: nat)
    requires i <= |schedule|
    ensures Runs(schedule, t) == Runs(schedule[..i], t) + Runs(schedule[i..], t)
  {
    if i == 0 {
      assert schedule[..0] == [] && schedule[0..] == schedule;
    } else {
      Shift(schedule, t, i);
      RunsSplit(schedule[1..], t, i - 1);
    }
  }

  lemma {:induction false} FirstRun(schedule: seq<Turn>, t: string) returns (i: nat)
    requires Runs(schedule, t) > 0
    ensures i <= |schedule| && Runs(schedule[..i], t) == 1
  {
    if schedule[0].Run? && schedule[0].t == t {
      i := 1;
      Shift(schedule, t, 1);
      assert schedule[1..][..0] == [];
    } else {
      i := FirstRun(schedule[1..], t);
      i := i + 1;
      Shift(schedule, t, i);
    }
  }

  // ---- The theorem ----

  lemma {:induction false} OnlyForeignLeft(cfg: Config, fs: seq<string>)
    requires forall t :: t in cfg.finalizers ==> Count(fs, cfg.finalizers[t]) == 0
    ensures Foreign(cfg, fs) == fs
  {
    if fs != [] {
      forall t | t in cfg.finalizers ensures cfg.finalizers[t] != fs[0] {
        CountZero(fs, cfg.finalizers[t]);
      }
      OnlyForeignLeft(cfg, fs[1..]);
      assert [fs[0]] + fs[1..] == fs;
    }
  }

  lemma {:induction false} ForeignHasNone(cfg: Config, fs: seq<string>, f: string)
    requires IsTarget(cfg, f)
    ensures Count(Foreign(cfg, fs), f) == 0
  {
    if fs != [] {
      ForeignHasNone(cfg, fs[1..], f);
      var head := if IsTarget(cfg, fs[0]) then [] else [fs[0]];
      CountConcat(head, Foreign(cfg, fs[1..]), f);
      assert head != [] ==> head[1..] == [];
    }
  }

  /** No copy is left, nor any finalizer but the foreign ones among `fs`, in order; without those the
      object is gone. */
  ghost predicate Finished(cfg: Config, fs: seq<string>, s: State) {
    && (forall t :: t in s.copies ==> s.copies[t].None?)
    && Finalizers(s) == Foreign(cfg, fs)
    && (s.local.None? <==> Foreign(cfg, fs) == [])
  }

  lemma FinishedIffDone(cfg: Config, s: State, fs: seq<string>, uid: string)
    requires Leaving(cfg, s, uid) && Foreign(cfg, Finalizers(s)) == Foreign(cfg, fs)
    ensures Finished(cfg, fs, s) <==> forall t :: t in cfg.finalizers ==> Done(TaskOf(cfg, s, t))
  {
    if Finished(cfg, fs, s) {
      forall t | t in cfg.finalizers ensures Done(TaskOf(cfg, s, t)) {
        ForeignHasNone(cfg, fs, cfg.finalizers[t]);
      }
    }
    if forall t :: t in cfg.finalizers ==> Done(TaskOf(cfg, s, t)) {
      forall t | t in s.copies ensures s.copies[t].None? && Count(Finalizers(s), cfg.finalizers[t]) == 0 {
        assert Done(TaskOf(cfg, s, t));
      }
      OnlyForeignLeft(cfg, Finalizers(s));
    }
  }

  /** In any order of turns, the deletion is finished if and only if every target has been served: its copy
      has had a run, the copy's own finalizers have been taken out, and another run came after that. */
  lemma DeletionTerminates(cfg: Config, s: State, schedule: seq<Turn>, uid: string)
    requires Distinct(cfg) && Leaving(cfg, s, uid) && forall i :: 0 <= i < |schedule| ==>
      schedule[i].t in cfg.finalizers
    ensures Finished(cfg, Finalizers(s), TakeAll(cfg, s, schedule)) <==>
      forall t :: t in cfg.finalizers ==> Served(TaskOf(cfg, s, t), schedule, t)
  {
    ScheduleEffect(cfg, s, schedule, uid);
    FinishedIffDone(cfg, TakeAll(cfg, s, schedule), Finalizers(s), uid);
    TasksWellFormed(cfg, s, uid);
    forall t | t in cfg.finalizers
      ensures Done(TaskOf(cfg, TakeAll(cfg, s, schedule), t)) <==> Served(TaskOf(cfg, s, t), schedule, t)
    {
      DoneIffServed(TaskOf(cfg, s, t), schedule, t);
    }
  }
}
