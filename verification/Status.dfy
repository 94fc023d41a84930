/** The status reporter: applying one status to the operator's ClusterOperator. */
module Status {
  import opened Common
  import opened ApiTypes
  import opened ApiServer
  import opened GoHeap
  import opened ResourceMerge

  // The clock

  /** A strictly increasing clock; `ticks` decides how far each reading jumps ahead. */
  datatype ClockState = ClockState(now: Time, ticks: seq<nat>)

  function Tick(c: ClockState): ClockState {
    if c.ticks == [] then c.(now := c.now + 1) else ClockState(c.now + 1 + c.ticks[0], c.ticks[1..])
  }

  /** The clock after n readings. */
  function Advance(c: ClockState, n: nat): (c': ClockState)
    ensures c.now + n <= c'.now
  {
    if n == 0 then c else Tick(Advance(c, n - 1))
  }

  class Clock {
    var now: Time
    var ticks: seq<nat>

    constructor (state: ClockState)
      ensures State() == state
    {
      now, ticks := state.now, state.ticks;
    }

    function State(): ClockState
      reads this
    {
      ClockState(now, ticks)
    }

    method Now() returns (t: Time)
      modifies this
      ensures State() == Tick(old(State())) && t == now
    {
      if ticks == [] {
        now := now + 1;
      } else {
        now, ticks := now + 1 + ticks[0], ticks[1..];
      }
      t := now;
    }
  }

  // Transition times

  const AVAILABLE := "Available"
  const PROGRESSING := "Progressing"
  const DEGRADED := "Degraded"
  const TRUE := "True"
  const FALSE := "False"

  /** What one turn of the loop over the conditions makes of `c`. */
  function Stamped(stored: seq<Condition>, c: Condition, reading: Time): Condition {
    var i := FindCondition(stored, c.ctype);
    var time :=
      if i == |stored| then c.time
      else if stored[i].status != c.status then reading
      else stored[i].time;
    c.(time := if time == 0 then reading else time)
  }

  function StampedAll(stored: seq<Condition>, conditions: seq<Condition>, clock: ClockState): seq<Condition> {
    seq(|conditions|, i requires 0 <= i < |conditions| => Stamped(stored, conditions[i], Advance(clock, i + 1).now))
  }

  datatype TimedConditions = TimedConditions(conditions: seq<Condition>, clock: ClockState)

  function ProgressingReset(conditions: seq<Condition>, clock: ClockState): TimedConditions {
    var i := FindCondition(conditions, PROGRESSING);
    if i < |conditions| then
      TimedConditions(conditions[i := conditions[i].(time := Tick(clock).now)], Tick(clock))
    else
      var later := Tick(Tick(clock));
      TimedConditions(conditions + [Condition(PROGRESSING, FALSE, "", "", later.now)], later)
  }

  /** The library's update-or-append of one condition. */
  method SetOperatorStatusCondition(conditions: Ref<seq<Condition>>, newCondition: Condition, clock: Clock)
    modifies conditions, clock
    ensures var i := FindCondition(old(conditions.value), newCondition.ctype);
      if i == |old(conditions.value)| then
        && clock.State() == Tick(old(clock.State()))
        && conditions.value == old(conditions.value) + [newCondition.(time := clock.now)]
      else
        var c := old(conditions.value)[i];
        && clock.State() == (if c.status == newCondition.status then old(clock.State()) else Tick(old(clock.State())))
        && conditions.value == old(conditions.value)[i := newCondition.(time :=
             if c.status == newCondition.status then c.time else clock.now)]
  {
    var found := FindOperatorStatusCondition(conditions.value, newCondition.ctype);
    if found == None {
      var now := clock.Now();
      conditions.value := conditions.value + [newCondition.(time := now)];
      return;
    }
    var c := conditions.value[found.value];
    if c.status != newCondition.status {
      var now := clock.Now();
      c := c.(status := newCondition.status, time := now);
    }
    conditions.value := conditions.value[found.value := c.(reason := newCondition.reason,
      message := newCondition.message)];
  }

  method ResetProgressingTime(conditions: Ref<seq<Condition>>, clock: Clock)
    modifies conditions, clock
    ensures TimedConditions(conditions.value, clock.State()) ==
            ProgressingReset(old(conditions.value), old(clock.State()))
  {
    var found := FindOperatorStatusCondition(conditions.value, PROGRESSING);
    var now := clock.Now();
    var progressing := Condition(PROGRESSING, FALSE, "", "", now);
    if found != None {
      progressing := conditions.value[found.value].(time := now);
      conditions.value := conditions.value[found.value := progressing];
      SameTypesSameIndex(old(conditions.value), conditions.value, PROGRESSING);
    }
    SetOperatorStatusCondition(conditions, progressing, clock);
  }

  lemma SameTypesSameIndex(a: seq<Condition>, b: seq<Condition>, ctype: string)
    requires |a| == |b| && forall i :: 0 <= i < |a| ==> a[i].ctype == b[i].ctype
    ensures FindCondition(a, ctype) == FindCondition(b, ctype)
  {
    var i, j := FindCondition(a, ctype), FindCondition(b, ctype);
    assert i < |a| ==> b[i].ctype == ctype;
    assert j < |b| ==> a[j].ctype == ctype;
  }

  /** The loop of ApplyStatus over the conditions it is about to report. */
  method StampConditions(stored: seq<Condition>, conditions: Ref<seq<Condition>>, clock: Clock)
    modifies conditions, clock
    ensures conditions.value == StampedAll(stored, old(conditions.value), old(clock.State()))
    ensures |conditions.value| == |old(conditions.value)|
    ensures clock.State() == Advance(old(clock.State()), |conditions.value|)
  {
    for i := 0 to |conditions.value|
      invariant |conditions.value| == |old(conditions.value)|
      invariant clock.State() == Advance(old(clock.State()), i)
      invariant forall j :: 0 <= j < i ==>
        conditions.value[j] == Stamped(stored, old(conditions.value)[j], Advance(old(clock.State()), j + 1).now)
      invariant forall j :: i <= j < |conditions.value| ==> conditions.value[j] == old(conditions.value)[j]
    {
      var c := conditions.value[i];
      var timestamp := clock.Now();
      var found := FindOperatorStatusCondition(stored, c.ctype);
      if found != None && stored[found.value].status != c.status {
        c := c.(time := timestamp);
      }
      if found != None && stored[found.value].status == c.status {
        c := c.(time := stored[found.value].time);
      }
      if c.time == 0 {
        c := c.(time := timestamp);
      }
      conditions.value := conditions.value[i := c];
    }
    assert conditions.value == StampedAll(stored, old(conditions.value), old(clock.State()));
  }

  // Applying a status

  const OPERATOR_NAME := "vertical-pod-autoscaler"
  const OPERATOR_KEY := Key(ClusterOperatorKind, "", OPERATOR_NAME)

  const BLANK_OPERATOR := ClusterOperator(EmptyMeta("", OPERATOR_NAME), OperatorStatus([], None, "", None, []))

  datatype ReporterState = ReporterState(api: ApiState, clock: ClockState)

  datatype OperatorReply = OperatorReply(api: ApiState, result: Result<ClusterOperator, Error>)

  function GotOrCreated(s: ApiState): OperatorReply {
    var got := Fetched(s, OPERATOR_KEY);
    match got.result
    case Ok(o) => OperatorReply(got.api, Ok(o.clusterOperator))
    case Err(e) =>
      if e == NotFound then
        var created := Created(got.api, ClusterOperatorObject(BLANK_OPERATOR));
        OperatorReply(created.api, if created.error == None then Ok(BLANK_OPERATOR) else Err(created.error.value))
      else OperatorReply(got.api, Err(e))
  }

  function EffectiveVersions(stored: OperatorStatus, status: OperatorStatus): Option<seq<OperandVersion>> {
    if status.versions == None then stored.versions else status.versions
  }

  predicate VersionsChange(stored: OperatorStatus, status: OperatorStatus) {
    VersionList(EffectiveVersions(stored, status)) != VersionList(stored.versions)
  }

  function TimedFor(stored: OperatorStatus, status: OperatorStatus, clock: ClockState): TimedConditions {
    var stamped := StampedAll(stored.conditions, status.conditions, clock);
    var later := Advance(clock, |status.conditions|);
    if VersionsChange(stored, status) then ProgressingReset(stamped, later) else TimedConditions(stamped, later)
  }

  /** The status that is merged into the stored object. */
  function DesiredStatus(stored: OperatorStatus, status: OperatorStatus, related: seq<ObjectReference>,
                         clock: ClockState): OperatorStatus {
    status.(conditions := TimedFor(stored, status, clock).conditions, versions := EffectiveVersions(stored, status),
            relatedObjects := related)
  }

  /** `issued` tells whether UpdateStatus was called. */
  datatype ApplyReply = ApplyReply(state: ReporterState, issued: bool, error: Option<Error>)

  ghost function Applied(s: ReporterState, status: OperatorStatus, related: seq<ObjectReference>): ApplyReply {
    var got := GotOrCreated(s.api);
    match got.result
    case Err(e) => ApplyReply(s.(api := got.api), false, Some(e))
    case Ok(co) =>
      var required := co.(status := DesiredStatus(co.status, status, related, s.clock));
      var clock := TimedFor(co.status, status, s.clock).clock;
      if Satisfied(co, required) then ApplyReply(ReporterState(got.api, clock), false, None)
      else
        var updated := Updated(got.api, ClusterOperatorObject(Ensured(co, required)));
        ApplyReply(ReporterState(updated.api, clock), true, updated.error)
  }

  datatype ReporterConfig = ReporterConfig(name: string, namespace: string, releaseVersion: string,
                                           relatedObjects: seq<ObjectReference>)

  class StatusReporter {
    const client: Client
    const clock: Clock
    var config: ReporterConfig

    constructor (client: Client, clock: Clock, config: ReporterConfig)
      ensures this.client == client && this.clock == clock && this.config == config
    {
      this.client, this.clock, this.config := client, clock, config;
    }

    function State(): ReporterState
      reads this, client, clock
    {
      ReporterState(client.State(), clock.State())
    }

    method GetOrCreateClusterOperator() returns (result: Result<ClusterOperator, Error>)
      modifies client
      ensures OperatorReply(client.State(), result) == GotOrCreated(old(client.State()))
    {
      var existing := client.Get(OPERATOR_KEY);
      if existing == Err(NotFound) {
        var error := client.Create(ClusterOperatorObject(BLANK_OPERATOR));
        result := if error == None then Ok(BLANK_OPERATOR) else Err(error.value);
      } else {
        match existing
        case Ok(o) => result := Ok(o.clusterOperator);
        case Err(e) => result := Err(e);
      }
    }

    method ApplyStatus(given: OperatorStatus) returns (ghost issued: bool, error: Option<Error>)
      modifies client, clock
      ensures ApplyReply(State(), issued, error) == Applied(old(State()), given, config.relatedObjects)
    {
      hide GotOrCreated, StampedAll, ProgressingReset, Ensured, Satisfied, Updated, FindCondition;
      issued := false;
      ghost var start := clock.State();
      var got := GetOrCreateClusterOperator();
      if got.Err? {
        return false, Some(got.error);
      }
      var stored := got.value;
      var co := new LiveOperator(stored);
      var status := given.(relatedObjects := config.relatedObjects);
      if status.versions == None {
        status := status.(versions := co.versions);
      }
      var conditions := new Ref(status.conditions);
      StampConditions(co.conditions, conditions, clock);
      if VersionList(status.versions) != VersionList(co.versions) {
        ResetProgressingTime(conditions, clock);
      }
      var required := stored.(status := status.(conditions := conditions.value));
      assert required == stored.(status := DesiredStatus(stored.status, given, config.relatedObjects, start));
      var modified := new Ref(false);
      co.EnsureClusterOperatorStatus(modified, required);
      if modified.value {
        issued := true;
        var updated := co.Snapshot();
        error := client.Update(ClusterOperatorObject(updated));
        return issued, error;
      }
      return issued, None;
    }
  }
}
