/** Laws of the transition times and of repeated reports, for all inputs and over all runs of ApplyStatus. */
module TransitionTimes {
  import opened Common
  import opened ApiTypes
  import opened ApiServer
  import opened ResourceMerge
  import opened Status

  // One call

  /** Every stored time has been read from the clock: it is not zero and not ahead of the clock. */
  ghost predicate Timed(conditions: seq<Condition>, now: Time) {
    forall i :: 0 <= i < |conditions| ==> 0 < conditions[i].time <= now
  }

  lemma ReadingsAhead(c: ClockState, m: nat, n: nat)
    requires m < n
    ensures Advance(c, m).now < Advance(c, n).now
  {
    if m < n - 1 {
      ReadingsAhead(c, m, n - 1);
    }
  }

  /** Position i of the reported conditions is the one a version change resets. */
  ghost predicate IsReset(stored: OperatorStatus, status: OperatorStatus, i: nat) {
    && status.versions.Some? && status.versions.value != stored.versions.GetOr([])
    && i == FindCondition(status.conditions, "Progressing")
  }

  lemma ReportedPositions(stored: OperatorStatus, status: OperatorStatus, clock: ClockState)
    ensures var conditions := TimedFor(stored, status, clock).conditions;
      var n := |status.conditions|;
      && n <= |conditions|
      && (|conditions| == n <==> !IsReset(stored, status, n))
      && (|conditions| > n ==> |conditions| == n + 1 && conditions[n].ctype == PROGRESSING)
      && forall i :: 0 <= i < n ==>
           conditions[i] == if IsReset(stored, status, i) then status.conditions[i].(time := Advance(clock, n + 1).now)
                            else Stamped(stored.conditions, status.conditions[i], Advance(clock, i + 1).now)
  {
    var stamped := StampedAll(stored.conditions, status.conditions, clock);
    SameTypesSameIndex(stamped, status.conditions, PROGRESSING);
  }

  /** Where the time of condition i of a report comes from: the stored time exactly when the condition was stored with
      the same status and is not the Progressing condition of a version change; otherwise a reading of this call, except
      that a condition not stored before keeps a time its caller set.  Reasons and messages play no role. */
  ghost predicate TimeLaw(stored: OperatorStatus, status: OperatorStatus, before: Time, i: nat, result: Condition,
                          after: Time)
    requires i < |status.conditions|
  {
    var c, j := status.conditions[i], FindCondition(stored.conditions, status.conditions[i].ctype);
    var fresh_ := before < result.time <= after;
    && result.(time := c.time) == c
    && 0 < result.time
    && if j < |stored.conditions| then
         && (result.time == stored.conditions[j].time <==>
              stored.conditions[j].status == c.status && !IsReset(stored, status, i))
         && (result.time != stored.conditions[j].time ==> fresh_)
       else if c.time != 0 && !IsReset(stored, status, i) then result.time == c.time
       else fresh_
  }

  lemma TransitionTimeLaw(stored: OperatorStatus, status: OperatorStatus, clock: ClockState, i: nat)
    requires i < |status.conditions|
    requires Timed(stored.conditions, clock.now)
    ensures var timed := TimedFor(stored, status, clock);
      |timed.conditions| > i && TimeLaw(stored, status, clock.now, i, timed.conditions[i], timed.clock.now)
  {
    ReportedPositions(stored, status, clock);
    ReadingsWithin(stored, status, clock, i);
  }

  /** The readings given to position i lie within the call. */
  lemma ReadingsWithin(stored: OperatorStatus, status: OperatorStatus, clock: ClockState, i: nat)
    requires i < |status.conditions|
    ensures clock.now < Advance(clock, i + 1).now <= TimedFor(stored, status, clock).clock.now
    ensures IsReset(stored, status, i) ==>
      clock.now < Advance(clock, |status.conditions| + 1).now <= TimedFor(stored, status, clock).clock.now
  {
    hide FindCondition;
    var n := |status.conditions|;
    ReadingsAhead(clock, 0, i + 1);
    ReadingsAhead(clock, 0, n + 1);
    if i + 1 < n {
      ReadingsAhead(clock, i + 1, n);
    }
    SameTypesSameIndex(StampedAll(stored.conditions, status.conditions, clock), status.conditions, PROGRESSING);
  }

  // Runs

  datatype Report = Report(status: OperatorStatus, related: seq<ObjectReference>)

  function Stored(s: ApiState): Option<ClusterOperator> {
    if OPERATOR_KEY in s.store then Some(s.store[OPERATOR_KEY].clusterOperator) else None
  }

  function StoredStatus(s: ApiState): OperatorStatus {
    Stored(s).GetOr(BLANK_OPERATOR).status
  }

  ghost function AfterReports(s: ReporterState, reports: seq<Report>): ReporterState
    decreases |reports|
  {
    if reports == [] then s
    else
      var n := |reports| - 1;
      Applied(AfterReports(s, reports[..n]), reports[n].status, reports[n].related).state
  }

  /** The caller leaves the times to the reporter, as all reporters of the operator do. */
  predicate Unset(status: OperatorStatus) {
    forall i :: 0 <= i < |status.conditions| ==> status.conditions[i].time == 0
  }

  /** No type has a time in `conditions` that is before the time it has in `base`. */
  ghost predicate NotBefore(base: seq<Condition>, conditions: seq<Condition>) {
    forall ctype :: var i, j := FindCondition(base, ctype), FindCondition(conditions, ctype);
      i < |base| && j < |conditions| ==> base[i].time <= conditions[j].time
  }

  lemma GotStored(s: ApiState)
    ensures var got := GotOrCreated(s);
      && StoredStatus(got.api) == StoredStatus(s)
      && (got.result.Ok? ==> Stored(got.api) == Some(got.result.value))
  {
  }

  lemma UpdateStores(s: ApiState, co: ClusterOperator)
    requires Stored(s).Some? && ClusterOperatorObject(co).GetKey() == OPERATOR_KEY
    ensures var updated := Updated(s, ClusterOperatorObject(co));
      && (Stored(updated.api) == Some(co) || (updated.error != None && Stored(updated.api) == Stored(s)))
  {
  }

  /** The status part of a reporter state. */
  datatype Told = Told(status: OperatorStatus, clock: ClockState)

  function Telling(s: ReporterState): Told {
    Told(StoredStatus(s.api), s.clock)
  }

  /** One call leaves in the store the status it found, or that status brought to the desired one. */
  ghost predicate TellingStep(before: Told, report: Report, after: Told) {
    var timed := TimedFor(before.status, report.status, before.clock);
    var desired := DesiredStatus(before.status, report.status, report.related, before.clock);
    || after == before
    || (after.clock == timed.clock
        && (after.status == before.status || after.status == EnsuredStatus(before.status, desired)))
  }

  lemma AppliedTells(s: ReporterState, report: Report)
    ensures var r := Applied(s, report.status, report.related);
      && TellingStep(Telling(s), report, Telling(r.state))
      && (r.error == None ==>
           && Stored(r.state.api).Some?
           && SameStatus(Telling(r.state).status,
                DesiredStatus(Telling(s).status, report.status, report.related, s.clock)))
  {
    var got := GotOrCreated(s.api);
    GotStored(s.api);
    if got.result.Ok? {
      var co := got.result.value;
      var required := co.(status := DesiredStatus(co.status, report.status, report.related, s.clock));
      UpdateStores(got.api, Ensured(co, required));
    }
  }

  /** What a call that returns nil leaves in the store, field by field: the given conditions in their places, with
      times; the given versions, or the ones before when none are given; the given extension and the configured
      objects. */
  ghost predicate StoredAsGiven(before: OperatorStatus, given: OperatorStatus, related: seq<ObjectReference>,
                                after: OperatorStatus)
  {
    var n, conditions := |given.conditions|, after.conditions;
    && n <= |conditions| <= n + 1
    && (forall i :: 0 <= i < n ==> conditions[i] == given.conditions[i].(time := conditions[i].time))
    && (|conditions| == n + 1 <==> IsReset(before, given, n))
    && (|conditions| == n + 1 ==> conditions[n] == Condition("Progressing", "False", "", "", conditions[n].time))
    && after.versions.GetOr([]) == (if given.versions == None then before.versions else given.versions).GetOr([])
    && after.extensionRaw == given.extensionRaw && after.extensionObject == given.extensionObject
    && after.relatedObjects == related
  }

  lemma DesiredAsGiven(before: OperatorStatus, given: OperatorStatus, related: seq<ObjectReference>, clock: ClockState)
    ensures StoredAsGiven(before, given, related, DesiredStatus(before, given, related, clock))
  {
    hide FindCondition;
    ReportedPositions(before, given, clock);
    SameTypesSameIndex(StampedAll(before.conditions, given.conditions, clock), given.conditions, PROGRESSING);
  }

  lemma NilStoresTheReport(s: ReporterState, report: Report)
    requires Applied(s, report.status, report.related).error == None
    ensures var after := Applied(s, report.status, report.related).state;
      StoredAsGiven(StoredStatus(s.api), report.status, report.related, StoredStatus(after.api))
  {
    hide Applied, DesiredStatus, TellingStep, IsReset;
    AppliedTells(s, report);
    DesiredAsGiven(StoredStatus(s.api), report.status, report.related, s.clock);
  }

  /** Under any fates, nothing but the operator is touched, and its metadata stay as they were, unless its owners
      disagree on a UID. */
  lemma OnlyTheStatus(s: ReporterState, report: Report, k: Key)
    ensures var after := Applied(s, report.status, report.related).state.api.store;
      && (k != OPERATOR_KEY ==> Lookup(after, k) == Lookup(s.api.store, k))
      && (Stored(s.api).Some? && ConsistentUids(Stored(s.api).value.meta.owners) ==>
            OPERATOR_KEY in after && after[OPERATOR_KEY].GetMeta() == s.api.store[OPERATOR_KEY].GetMeta())
  {
    hide DesiredStatus, Satisfied, Ensured, ConsistentUids, GotOrCreated, Updated;
    var got := GotOrCreated(s.api);
    GotFrame(s.api, k);
    if got.result.Ok? {
      var co := got.result.value;
      var required := co.(status := DesiredStatus(co.status, report.status, report.related, s.clock));
      SelfMerge(co, required.status);
      UpdatedFrame(got.api, Ensured(co, required), k);
    }
  }

  lemma SelfMerge(co: ClusterOperator, status: OperatorStatus)
    ensures var merged := Ensured(co, co.(status := status));
      && ClusterOperatorObject(merged).GetKey() == ClusterOperatorObject(co).GetKey()
      && (ConsistentUids(co.meta.owners) ==> merged.meta == co.meta)
  {
    hide EnsuredStatus, MergedOwners, MergedMap, ConsistentUids, SameStatus;
    EnsureSelf(co, status);
  }

  lemma GotFrame(s: ApiState, k: Key)
    ensures var got := GotOrCreated(s);
      && (k != OPERATOR_KEY ==> Lookup(got.api.store, k) == Lookup(s.store, k))
      && (Stored(s).Some? ==> got.api.store == s.store)
      && (got.result.Ok? ==> Stored(got.api) == Some(got.result.value))
      && (got.result.Ok? && Stored(s).Some? ==> Stored(s) == Some(got.result.value))
  {
  }

  lemma UpdatedFrame(s: ApiState, co: ClusterOperator, k: Key)
    requires Stored(s).Some? && ClusterOperatorObject(co).GetKey() == OPERATOR_KEY
    ensures var updated := Updated(s, ClusterOperatorObject(co)).api.store;
      && (k != OPERATOR_KEY ==> Lookup(updated, k) == Lookup(s.store, k))
      && OPERATOR_KEY in updated
      && (updated[OPERATOR_KEY] == ClusterOperatorObject(co) || updated[OPERATOR_KEY] == s.store[OPERATOR_KEY])
  {
  }

  lemma AppliedKeepsStored(s: ReporterState, report: Report)
    requires Stored(s.api).Some?
    ensures Stored(Applied(s, report.status, report.related).state.api).Some?
  {
    hide DesiredStatus, Satisfied, EnsuredStatus, MergedOwners, MergedMap;
    var got := GotOrCreated(s.api);
    GotStored(s.api);
    if got.result.Ok? {
      var co := got.result.value;
      UpdateStores(got.api, Ensured(co, co.(status := DesiredStatus(co.status, report.status, report.related,
        s.clock))));
    }
  }

  lemma StepTimes(base: seq<Condition>, before: Told, report: Report, after: Told)
    requires TellingStep(before, report, after)
    requires Unset(report.status)
    requires Timed(base, before.clock.now) && Timed(before.status.conditions, before.clock.now)
    requires NotBefore(base, before.status.conditions)
    ensures before.clock.now <= after.clock.now
    ensures Timed(after.status.conditions, after.clock.now)
    ensures NotBefore(base, after.status.conditions)
  {
    hide TimedFor, IsReset;
    var timed := TimedFor(before.status, report.status, before.clock);
    TimedPositions(before.status, report.status, before.clock);
    forall i | 0 <= i < |timed.conditions|
      ensures 0 < timed.conditions[i].time <= timed.clock.now
      ensures var j := FindCondition(base, timed.conditions[i].ctype);
        j < |base| ==> base[j].time <= timed.conditions[i].time
    {
      if i < |report.status.conditions| {
        TransitionTimeLaw(before.status, report.status, before.clock, i);
      }
    }
  }

  /** Times that the caller has set are not ahead of the clock. */
  predicate PresetBy(status: OperatorStatus, now: Time) {
    forall i :: 0 <= i < |status.conditions| ==> status.conditions[i].time <= now
  }

  /** One step, whatever times the caller has set: no type that stays gets an earlier time; and if the set times are not
      ahead of the clock, no stored one is. */
  lemma StepNotBefore(before: Told, report: Report, after: Told)
    requires TellingStep(before, report, after) && Timed(before.status.conditions, before.clock.now)
    ensures before.clock.now <= after.clock.now
    ensures NotBefore(before.status.conditions, after.status.conditions)
    ensures PresetBy(report.status, before.clock.now) ==> Timed(after.status.conditions, after.clock.now)
  {
    hide TimedFor, IsReset;
    var stored, timed := before.status.conditions, TimedFor(before.status, report.status, before.clock);
    TimedPositions(before.status, report.status, before.clock);
    forall i | 0 <= i < |timed.conditions|
      ensures var j := FindCondition(stored, timed.conditions[i].ctype);
        j < |stored| ==> stored[j].time <= timed.conditions[i].time
      ensures PresetBy(report.status, before.clock.now) ==> 0 < timed.conditions[i].time <= timed.clock.now
    {
      if i < |report.status.conditions| {
        TransitionTimeLaw(before.status, report.status, before.clock, i);
      }
    }
  }

  /** A condition that the reset has invented has a reading of the call. */
  lemma TimedPositions(stored: OperatorStatus, status: OperatorStatus, clock: ClockState)
    ensures var timed := TimedFor(stored, status, clock);
      && clock.now <= timed.clock.now
      && forall i :: |status.conditions| <= i < |timed.conditions| ==>
           clock.now < timed.conditions[i].time <= timed.clock.now
  {
    ReportedPositions(stored, status, clock);
    ReadingsAhead(clock, 0, |status.conditions| + 1);
  }

  /** Each state follows from the one before by a report; the callers leave the times to the reporter. */
  ghost predicate ToldRun(tolds: seq<Told>, reports: seq<Report>) {
    && |tolds| == |reports| + 1
    && forall i :: 0 <= i < |reports| ==> TellingStep(tolds[i], reports[i], tolds[i + 1]) && Unset(reports[i].status)
  }

  lemma RunTimed(tolds: seq<Told>, reports: seq<Report>, m: nat)
    requires ToldRun(tolds, reports) && m < |tolds|
    requires Timed(tolds[0].status.conditions, tolds[0].clock.now)
    ensures Timed(tolds[m].status.conditions, tolds[m].clock.now)
  {
    hide TellingStep;
    if m > 0 {
      RunTimed(tolds, reports, m - 1);
      StepTimes([], tolds[m - 1], reports[m - 1], tolds[m]);
    }
  }

  lemma RunNotBefore(tolds: seq<Told>, reports: seq<Report>, k: nat, m: nat)
    requires ToldRun(tolds, reports) && k <= m < |tolds|
    requires Timed(tolds[0].status.conditions, tolds[0].clock.now)
    ensures tolds[k].clock.now <= tolds[m].clock.now
    ensures Timed(tolds[m].status.conditions, tolds[m].clock.now)
    ensures NotBefore(tolds[k].status.conditions, tolds[m].status.conditions)
    decreases m
  {
    hide TellingStep;
    RunTimed(tolds, reports, k);
    RunTimed(tolds, reports, m);
    if k < m {
      RunNotBefore(tolds, reports, k, m - 1);
      StepTimes(tolds[k].status.conditions, tolds[m - 1], reports[m - 1], tolds[m]);
    }
  }

  /** Over every run, with any fates of the calls: no stored time is zero, and no stored time is before the time that
      any earlier state of the run held for the same type, even if the type was gone in between. */
  lemma TimesNeverGoBack(s: ReporterState, reports: seq<Report>, k: nat)
    requires k <= |reports|
    requires Timed(StoredStatus(s.api).conditions, s.clock.now)
    requires forall i :: 0 <= i < |reports| ==> Unset(reports[i].status)
    ensures var earlier, later := AfterReports(s, reports[..k]), AfterReports(s, reports);
      && earlier.clock.now <= later.clock.now
      && Timed(StoredStatus(later.api).conditions, later.clock.now)
      && NotBefore(StoredStatus(earlier.api).conditions, StoredStatus(later.api).conditions)
  {
    var tolds := seq(|reports| + 1, i requires 0 <= i <= |reports| => Telling(AfterReports(s, reports[..i])));
    forall i | 0 <= i < |reports|
      ensures TellingStep(tolds[i], reports[i], tolds[i + 1])
    {
      assert reports[..i + 1][..i] == reports[..i];
      AppliedTells(AfterReports(s, reports[..i]), reports[i]);
    }
    RunNotBefore(tolds, reports, k, |reports|);
    assert reports[..|reports|] == reports;
  }

  // Quiescence

  /** The API declares conditions a list keyed by type. */
  ghost predicate DistinctTypes(conditions: seq<Condition>) {
    forall i, j :: 0 <= i < j < |conditions| ==> conditions[i].ctype != conditions[j].ctype
  }

  /** The same report again; the times its caller passes do not matter. */
  ghost predicate SameReport(a: OperatorStatus, b: OperatorStatus) {
    && a == b.(conditions := a.conditions)
    && |a.conditions| == |b.conditions|
    && forall i :: 0 <= i < |a.conditions| ==> a.conditions[i] == b.conditions[i].(time := a.conditions[i].time)
  }

  /** Reporting what was just stored: every time is copied forward. */
  lemma SecondDesired(stored: OperatorStatus, status: OperatorStatus, again: OperatorStatus,
                      related: seq<ObjectReference>, clock: ClockState, later: ClockState, now: OperatorStatus)
    requires DistinctTypes(status.conditions) && SameReport(again, status)
    requires SameStatus(now, DesiredStatus(stored, status, related, clock))
    ensures SameStatus(now, DesiredStatus(now, again, related, later)) <==>
            !IsReset(stored, status, |status.conditions|)
  {
    ReportedPositions(stored, status, clock);
    ReportedPositions(now, again, later);
    assert !VersionsChange(now, again);
    if |now.conditions| == |status.conditions| {
      forall i | 0 <= i < |now.conditions|
        ensures Stamped(now.conditions, again.conditions[i], Advance(later, i + 1).now) == now.conditions[i]
      {
        assert FindCondition(now.conditions, again.conditions[i].ctype) == i;
      }
    }
  }

  /** Applying the same status a second time, for distinct condition types: UpdateStatus is called again exactly when
      the first call had to invent a Progressing condition for a version change, or when the stored owners disagree on
      a UID. In every other case the second call is silent. */
  lemma SecondApplyIsSilent(s: ReporterState, first: Report, again: OperatorStatus)
    requires DistinctTypes(first.status.conditions) && SameReport(again, first.status)
    requires Applied(s, first.status, first.related).error == None
    ensures var s1 := Applied(s, first.status, first.related).state;
      var second := Applied(s1, again, first.related);
      Stored(s1.api).Some? &&
      if NextFate(s1.api) != Served then !second.issued
      else
        second.issued <==>
          IsReset(StoredStatus(s.api), first.status, |first.status.conditions|)
          || !ConsistentUids(Stored(s1.api).value.meta.owners)
  {
    AppliedTells(s, first);
    var s1 := Applied(s, first.status, first.related).state;
    var co := Stored(s1.api).value;
    var desired := DesiredStatus(co.status, again, first.related, s1.clock);
    SecondDesired(StoredStatus(s.api), first.status, again, first.related, s.clock, s1.clock, co.status);
    EnsureSelf(co, desired);
    IssuedWhen(s1, again, first.related);
  }

  /** The exception does occur: on a blank operator, a report of a version without conditions is followed by an update
      when it is applied again. */
  lemma SecondApplyMayIssue(version: string)
    ensures var status := OperatorStatus([], Some([OperandVersion("operator", version)]), "", None, []);
      var api := ApiState(map[OPERATOR_KEY := ClusterOperatorObject(BLANK_OPERATOR)], [], []);
      var first := Applied(ReporterState(api, ClockState(1, [])), status, []);
      first.error == None && Applied(first.state, status, []).issued
  {
    hide DesiredStatus, Satisfied, Ensured, TimedFor;
    var status := OperatorStatus([], Some([OperandVersion("operator", version)]), "", None, []);
    var s := ReporterState(ApiState(map[OPERATOR_KEY := ClusterOperatorObject(BLANK_OPERATOR)], [], []),
      ClockState(1, []));
    NoFatesNoError(s, status, []);
    assert VersionList(status.versions) != VersionList(BLANK_OPERATOR.status.versions);
    assert IsReset(BLANK_OPERATOR.status, status, 0);
    NoFatesLeft(s, status, []);
    SecondApplyIsSilent(s, Report(status, []), status);
  }

  lemma NoFatesNoError(s: ReporterState, status: OperatorStatus, related: seq<ObjectReference>)
    requires s.api.fates == [] && Stored(s.api).Some?
    ensures Applied(s, status, related).error == None
  {
    hide DesiredStatus, Satisfied, EnsuredStatus, MergedOwners, MergedMap, TimedFor;
  }

  lemma NoFatesLeft(s: ReporterState, status: OperatorStatus, related: seq<ObjectReference>)
    requires s.api.fates == []
    ensures Applied(s, status, related).state.api.fates == []
  {
    hide DesiredStatus, Satisfied, Ensured, TimedFor;
  }

  lemma IssuedWhen(s: ReporterState, status: OperatorStatus, related: seq<ObjectReference>)
    requires Stored(s.api).Some?
    ensures var co := Stored(s.api).value;
      Applied(s, status, related).issued <==>
        NextFate(s.api) == Served && !Satisfied(co, co.(status := DesiredStatus(co.status, status, related, s.clock)))
  {
  }

  /** A call that finds the operator and does not issue an update leaves every stored object as it was. */
  lemma NotIssuedKeepsStore(s: ReporterState, status: OperatorStatus, related: seq<ObjectReference>)
    requires Stored(s.api).Some? && !Applied(s, status, related).issued
    ensures Applied(s, status, related).state.api.store == s.api.store
    ensures Applied(s, status, related).state.api.writes == s.api.writes
  {
  }
}
