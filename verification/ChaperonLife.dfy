/** The creating half of the chaperon controller: when it creates the delegate pod, when it records that
    the pod is missing, and when it may create it again. */
module ChaperonLife {
  import opened Kube

  // Time is counted in nanoseconds.
  const SECOND := 1_000_000_000
  const RECREATE_AFTER := 60 * SECOND

  /** Time stamps are written with one-second precision, as in section 5.6 of RFC 3339. */
  datatype Codec = Codec(format: nat -> string, parse: string -> Option<nat>)

  ghost predicate RoundTrips(codec: Codec) {
    forall seconds: nat :: codec.parse(codec.format(seconds)) == Some(seconds)
  }

  datatype Delegate = Delegate(controlled: bool, phase: string)

  /** One chaperon and the pod of the same name: the clock, the recorded phase, the missing mark, the
      restart policy and the pod. */
  datatype Life = Life(now: nat, phase: string, missing: Option<string>, always: bool, pod: Option<Delegate>)

  /** Which calls of a run fail. */
  datatype Faults = Faults(create: bool, stamp: bool, clear: bool, status: bool)

  // ---- One run of the controller, on values ----

  function Synced(s: Life, faults: Faults): Life
    requires s.pod.Some?
  {
    if s.missing.Some? then
      // the cached version is outdated by the clearing patch, so a status update cannot succeed
      if faults.clear then s else s.(missing := None)
    else if s.phase != s.pod.value.phase && !faults.status then s.(phase := s.pod.value.phase)
    else s
  }

  predicate MayCreate(codec: Codec, s: Life) {
    || s.phase == ""
    || (s.missing.Some? && codec.parse(s.missing.value).Some?
        && s.now - codec.parse(s.missing.value).value * SECOND > RECREATE_AFTER && s.always)
  }

  function AfterHandle(codec: Codec, s: Life, faults: Faults): Life {
    if s.missing.Some? && codec.parse(s.missing.value).None? then s
    else if s.pod.None? then
      if MayCreate(codec, s) then
        if faults.create then s else Synced(s.(pod := Some(Delegate(true, "Pending"))), faults)
      else if s.missing.None? && !faults.stamp then s.(missing := Some(codec.format(s.now / SECOND)))
      else s
    else if !s.pod.value.controlled then s
    else Synced(s, faults)
  }

  // ---- What that means, case by case ----

  /** A pod may be created if none was ever seen, or if it has been marked missing for more than a minute and is
      always to be restarted. */
  predicate Due(codec: Codec, s: Life) {
    || s.phase == ""
    || (&& s.always && s.missing.Some? && codec.parse(s.missing.value).Some?
        && s.now > codec.parse(s.missing.value).value * 1_000_000_000 + 60_000_000_000)
  }

  /** The mark is cleared unless the call fails; the phase is recorded only by a run that had no mark to clear. */
  predicate Records(s: Life, pod: Delegate, faults: Faults, s': Life) {
    && s'.missing == (if s.missing.Some? && !faults.clear then None else s.missing)
    && s'.phase == (if s.missing.None? && !faults.status then pod.phase else s.phase)
  }

  predicate Proceeds(codec: Codec, s: Life, faults: Faults, s': Life, ok: bool) {
    && s'.now == s.now && s'.always == s.always
    && if s.missing.Some? && codec.parse(s.missing.value).None? then s' == s && !ok
       else if s.pod.Some? && !s.pod.value.controlled then s' == s && !ok
       else if s.pod.Some? then
         s'.pod == s.pod && Records(s, s.pod.value, faults, s') && (ok <==> !(s.missing.Some? && faults.clear))
       else if Due(codec, s) then
         if faults.create then s' == s && !ok
         else
           && s'.pod == Some(Delegate(true, "Pending")) && Records(s, Delegate(true, "Pending"), faults, s')
           && (ok <==> !(s.missing.Some? && faults.clear))
       else
         && s'.pod == None && s'.phase == s.phase
         && s'.missing ==
              (if s.missing.None? && !faults.stamp then Some(codec.format(s.now / 1_000_000_000)) else s.missing)
         && (ok <==> !(s.missing.None? && faults.stamp))
  }

  lemma AfterHandleProceeds(codec: Codec, s: Life, faults: Faults)
    ensures exists ok :: Proceeds(codec, s, faults, AfterHandle(codec, s, faults), ok)
  {
    var s' := AfterHandle(codec, s, faults);
    assert Proceeds(codec, s, faults, s', true) || Proceeds(codec, s, faults, s', false);
  }

  // ---- The same run, as the controller performs it ----

  class Controller {
    const codec: Codec
    const always: bool
    var now: nat
    var phase: string
    var missing: Option<string>
    var pod: Option<Delegate>

    function Now(): Life
      reads this
    {
      Life(now, phase, missing, always, pod)
    }

    constructor (codec: Codec, always: bool)
      ensures this.codec == codec && Now() == Life(0, "", None, always, None)
    {
      this.codec, this.always := codec, always;
      now, phase, missing, pod := 0, "", None, None;
    }

    method Handle(faults: Faults) returns (ok: bool)
      modifies this
      ensures Now() == AfterHandle(codec, old(Now()), faults)
      ensures Proceeds(codec, old(Now()), faults, Now(), ok)
    {
      AfterHandleProceeds(codec, Now(), faults);
      var podMissing := missing.Some?;
      var podMissingSince := 0;
      if podMissing {
        var parsed := codec.parse(missing.value);
        if parsed.None? {
          return false;
        }
        podMissingSince := parsed.value;
      }
      if pod.None? {
        var podNeverExisted := phase == "";
        if podNeverExisted || (podMissing && now - podMissingSince * SECOND > RECREATE_AFTER && always) {
          if faults.create {
            return false;
          }
          pod := Some(Delegate(true, "Pending"));
        } else if !podMissing {
          if faults.stamp {
            return false;
          }
          missing := Some(codec.format(now / SECOND));
          return true;
        } else {
          return true;
        }
      }
      if !pod.value.controlled {
        return false;
      }
      var locked := true;
      if podMissing {
        if faults.clear {
          return false;
        }
        missing := None;
        locked := false;
      }
      if phase != pod.value.phase {
        if !locked || faults.status {
          return true;
        }
        phase := pod.value.phase;
      }
      return true;
    }
  }

  // ---- Runs ----

  datatype Event =
    | Handled(faults: Faults)
    | Tick(d: nat)
    | Vanished
    | Reported(phase: string)
    | Squatted(pod: Delegate)

  /** The API server gives every pod a phase, and only the controller creates pods under the chaperon. */
  predicate Possible(s: Life, e: Event) {
    match e
    case Handled(_) => true
    case Tick(_) => true
    case Vanished => s.pod.Some?
    case Reported(phase) => s.pod.Some? && phase != ""
    case Squatted(pod) => s.pod.None? && !pod.controlled && pod.phase != ""
  }

  function Next(codec: Codec, s: Life, e: Event): Life
    requires Possible(s, e)
  {
    match e
    case Handled(faults) => AfterHandle(codec, s, faults)
    case Tick(d) => s.(now := s.now + d)
    case Vanished => s.(pod := None)
    case Reported(phase) => s.(pod := Some(s.pod.value.(phase := phase)))
    case Squatted(pod) => s.(pod := Some(pod))
  }

  /** A history of states, each following from the one before. */
  ghost predicate History(codec: Codec, states: seq<Life>, events: seq<Event>) {
    && |states| == |events| + 1
    && states[0].missing.None? && states[0].pod.None? && states[0].phase == ""
    && (forall i :: 0 <= i < |events| ==>
          Possible(states[i], events[i]) && states[i + 1] == Next(codec, states[i], events[i]))
  }

  predicate HasDelegate(s: Life) {
    s.pod.Some? && s.pod.value.controlled
  }

  predicate CreatesAt(states: seq<Life>, events: seq<Event>, i: nat)
    requires |states| == |events| + 1 && i < |events|
  {
    events[i].Handled? && states[i].pod.None? && states[i + 1].pod.Some?
  }

  lemma {:induction false} PhaseRemembered(codec: Codec, states: seq<Life>, events: seq<Event>, i: nat, j: nat)
    requires History(codec, states, events) && i <= j < |states| && states[i].phase != ""
    ensures states[j].phase != "" && states[j].always == states[i].always
    decreases j
  {
    if i < j {
      PhaseRemembered(codec, states, events, i, j - 1);
      PhasesOfPods(codec, states, events, j - 1);
      assert states[j] == Next(codec, states[j - 1], events[j - 1]);
    }
  }

  lemma {:induction false} PhasesOfPods(codec: Codec, states: seq<Life>, events: seq<Event>, i: nat)
    requires History(codec, states, events) && i < |states|
    ensures states[i].pod.Some? ==> states[i].pod.value.phase != ""
    decreases i
  {
    if i > 0 {
      PhasesOfPods(codec, states, events, i - 1);
      assert states[i] == Next(codec, states[i - 1], events[i - 1]);
    }
  }

  /** Once a phase has been recorded, a chaperon whose restart policy is not Always never creates a pod
      again, whatever happens. */
  lemma NeverRecreated(codec: Codec, states: seq<Life>, events: seq<Event>, i: nat, j: nat)
    requires History(codec, states, events) && i <= j < |events| && states[i].phase != "" && !states[i].always
    ensures !CreatesAt(states, events, j)
  {
    PhaseRemembered(codec, states, events, i, j);
    assert states[j + 1] == Next(codec, states[j], events[j]);
  }

  lemma {:induction false} TimePasses(codec: Codec, states: seq<Life>, events: seq<Event>, i: nat, j: nat)
    requires History(codec, states, events) && i <= j < |states|
    ensures states[i].now <= states[j].now
    decreases j
  {
    if i < j {
      TimePasses(codec, states, events, i, j - 1);
      assert states[j] == Next(codec, states[j - 1], events[j - 1]);
    }
  }

  // ---- What the mark says about the delegate ----

  /** The run finds the delegate, or creates it, while the mark is there, and its clearing patch fails. */
  predicate FailsClear(codec: Codec, s: Life, e: Event) {
    && e.Handled? && e.faults.clear && s.missing.Some? && codec.parse(s.missing.value).Some?
    && (HasDelegate(s) || (s.pod.None? && MayCreate(codec, s) && !e.faults.create))
  }

  /** The mark was set by the event at position j and has been there until i. */
  ghost predicate MarkedSince(states: seq<Life>, j: nat, i: nat) {
    j < i < |states| && states[j].missing.None? && forall m :: j < m <= i ==> states[m].missing.Some?
  }

  ghost predicate ClearFailedBetween(codec: Codec, states: seq<Life>, events: seq<Event>, j: nat, i: nat)
    requires |states| == |events| + 1 && i < |states|
  {
    exists m :: j < m < i && FailsClear(codec, states[m], events[m])
  }

  lemma {:induction false} FindStamp(codec: Codec, states: seq<Life>, events: seq<Event>, i: nat) returns (j: nat)
    requires History(codec, states, events) && i < |states| && states[i].missing.Some?
    ensures MarkedSince(states, j, i)
  {
    if states[i - 1].missing.None? {
      j := i - 1;
    } else {
      j := FindStamp(codec, states, events, i - 1);
    }
  }

  /** The event that sets the mark finds no pod, and records the current second. */
  lemma Stamping(codec: Codec, states: seq<Life>, events: seq<Event>, j: nat)
    requires History(codec, states, events) && j < |events| && states[j].missing.None? && states[j + 1].missing.Some?
    ensures states[j + 1].pod.None? && states[j + 1].missing.value == codec.format(states[j].now / SECOND)
  {
    assert Possible(states[j], events[j]) && states[j + 1] == Next(codec, states[j], events[j]);
  }

  /** The mark does not change while it is there. */
  lemma {:induction false} MarkStays(codec: Codec, states: seq<Life>, events: seq<Event>, j: nat, i: nat)
    requires RoundTrips(codec) && History(codec, states, events) && MarkedSince(states, j, i)
    ensures states[i].missing.value == codec.format(states[j].now / SECOND)
    ensures codec.parse(states[i].missing.value) == Some(states[j].now / SECOND)
    decreases i
  {
    if i == j + 1 {
      Stamping(codec, states, events, j);
    } else {
      MarkStays(codec, states, events, j, i - 1);
      assert states[i] == Next(codec, states[i - 1], events[i - 1]);
    }
  }

  /** A delegate that is there in spite of the mark was left there by a run whose clearing patch failed. */
  lemma {:induction false} PresentMeansFailed(codec: Codec, states: seq<Life>, events: seq<Event>, j: nat, i: nat,
                                              m: nat)
    requires RoundTrips(codec) && History(codec, states, events) && MarkedSince(states, j, i) && j < m <= i
    requires HasDelegate(states[m])
    ensures ClearFailedBetween(codec, states, events, j, i)
    decreases m
  {
    Stamping(codec, states, events, j);
    assert Possible(states[m - 1], events[m - 1]) && states[m] == Next(codec, states[m - 1], events[m - 1]);
    if HasDelegate(states[m - 1]) {
      PresentMeansFailed(codec, states, events, j, i, m - 1);
    } else {
      MarkStays(codec, states, events, j, m - 1);
      assert FailsClear(codec, states[m - 1], events[m - 1]);
    }
  }

  /** Since the mark was set the delegate has been there if and only if some clearing patch has failed. */
  lemma PresentIffClearFailed(codec: Codec, states: seq<Life>, events: seq<Event>, j: nat, i: nat)
    requires RoundTrips(codec) && History(codec, states, events) && MarkedSince(states, j, i)
    ensures (exists m :: j < m <= i && HasDelegate(states[m])) <==> ClearFailedBetween(codec, states, events, j, i)
  {
    if ClearFailedBetween(codec, states, events, j, i) {
      var m :| j < m < i && FailsClear(codec, states[m], events[m]);
      assert states[m + 1] == Next(codec, states[m], events[m]);
      assert HasDelegate(states[m + 1]);
    } else if m :| j < m <= i && HasDelegate(states[m]) {
      PresentMeansFailed(codec, states, events, j, i, m);
    }
  }

  // ---- Recreation ----

  /** Once a phase has been recorded, a pod is created only while the mark is there; if no clearing patch has
      failed since it was set, the delegate has been continuously absent for more than 59 seconds: every
      earlier state that has it is that far back. */
  lemma RecreatedOnlyAfterAbsence(codec: Codec, states: seq<Life>, events: seq<Event>, i: nat, m: nat) returns (j: nat)
    requires RoundTrips(codec) && History(codec, states, events)
    requires i < |events| && Recreates(states, events, i) && m <= i && HasDelegate(states[m])
    ensures MarkedSince(states, j, i)
    ensures !ClearFailedBetween(codec, states, events, j, i) ==> m <= j && states[i].now - states[m].now > 59 * SECOND
  {
    assert states[i + 1] == Next(codec, states[i], events[i]);
    assert MayCreate(codec, states[i]);
    j := FindStamp(codec, states, events, i);
    MarkStays(codec, states, events, j, i);
    PresentIffClearFailed(codec, states, events, j, i);
    if !ClearFailedBetween(codec, states, events, j, i) {
      assert m <= j;
      TimePasses(codec, states, events, m, j);
    }
  }

  predicate Recreates(states: seq<Life>, events: seq<Event>, i: nat)
    requires |states| == |events| + 1 && i < |events|
  {
    CreatesAt(states, events, i) && states[i].phase != ""
  }

  /** Every recreation comes after 59 seconds of absence. */
  ghost predicate Disciplined(states: seq<Life>, events: seq<Event>)
    requires |states| == |events| + 1
  {
    forall i, m :: 0 <= m <= i < |events| && Recreates(states, events, i) && HasDelegate(states[m]) ==>
      states[i].now - states[m].now > 59 * SECOND
  }

  /** The clearing patch never fails. */
  ghost predicate ClearsReliably(events: seq<Event>) {
    forall i :: 0 <= i < |events| && events[i].Handled? ==> !events[i].faults.clear
  }

  lemma ReliableIsDisciplined(codec: Codec, states: seq<Life>, events: seq<Event>)
    requires RoundTrips(codec) && History(codec, states, events) && ClearsReliably(events)
    ensures Disciplined(states, events)
  {
    forall i, m | 0 <= m <= i < |events| && Recreates(states, events, i) && HasDelegate(states[m])
      ensures states[i].now - states[m].now > 59 * SECOND
    {
      var j := RecreatedOnlyAfterAbsence(codec, states, events, i, m);
    }
  }

  const NO_FAULTS := Faults(false, false, false, false)
  const NO_CLEAR := Faults(false, false, true, false)

  /** The pod is created, vanishes and is marked missing; a minute later it is created again, but the mark
      cannot be cleared; it vanishes once more and is created on the spot. */
  lemma FailedClearForgetsAbsence(codec: Codec) returns (states: seq<Life>, events: seq<Event>)
    requires RoundTrips(codec)
    ensures History(codec, states, events) && !Disciplined(states, events)
  {
    var t, mark := 61 * SECOND, Some(codec.format(0));
    var pod := Some(Delegate(true, "Pending"));
    events := [Handled(NO_FAULTS), Vanished, Handled(NO_FAULTS), Tick(t), Handled(NO_CLEAR), Vanished,
               Handled(NO_FAULTS)];
    states := [Life(0, "", None, true, None),
               Life(0, "Pending", None, true, pod),
               Life(0, "Pending", None, true, None),
               Life(0, "Pending", mark, true, None),
               Life(t, "Pending", mark, true, None),
               Life(t, "Pending", mark, true, pod),
               Life(t, "Pending", mark, true, None),
               Life(t, "Pending", None, true, pod)];
    assert Recreates(states, events, 6) && HasDelegate(states[5]);
  }

  /** Recreation is disciplined in all histories if and only if clearing patches cannot fail. */
  lemma ClearsDecide(codec: Codec, mayFail: bool)
    requires RoundTrips(codec)
    ensures (forall states, events :: History(codec, states, events) && (mayFail || ClearsReliably(events)) ==>
             Disciplined(states, events))
            <==> !mayFail
  {
    if mayFail {
      var states, events := FailedClearForgetsAbsence(codec);
    } else {
      forall states, events | History(codec, states, events) && ClearsReliably(events)
        ensures Disciplined(states, events) {
        ReliableIsDisciplined(codec, states, events);
      }
    }
  }
}
