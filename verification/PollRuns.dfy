/** What the reports promise over every sequence of polls: by operators of any versions, with any fates of the calls,
    while others change everything but the ClusterOperator. */
module PollRuns {
  import opened Common
  import opened ApiTypes
  import opened ApiServer
  import opened ResourceMerge
  import opened Status
  import opened TransitionTimes
  import opened Reporting

  /** What a poll amounts to as a report. */
  function ReportOf(s: ReporterState, poll: Poll): Report {
    var check := Checked(Interfered(s.api, poll.cluster), poll.cfg);
    Report(ChosenStatus(check.result, poll.cfg.releaseVersion), poll.cfg.relatedObjects)
  }

  /** Neither the others nor the check touch the stored operator. */
  lemma UpToTheReport(s: ReporterState, poll: Poll)
    ensures var s1 := s.(api := Checked(Interfered(s.api, poll.cluster), poll.cfg).api);
      && Stored(s1.api) == Stored(s.api)
      && Polled(s, poll).state == Applied(s1, ReportOf(s, poll).status, ReportOf(s, poll).related).state
      && Polled(s, poll).error == Applied(s1, ReportOf(s, poll).status, ReportOf(s, poll).related).error
  {
    hide Checked, Applied, ChosenStatus;
    CheckIsTruthful(Interfered(s.api, poll.cluster), poll.cfg);
  }

  lemma PollTells(s: ReporterState, poll: Poll)
    ensures TellingStep(Telling(s), ReportOf(s, poll), Telling(Polled(s, poll).state))
    ensures Unset(ReportOf(s, poll).status)
    ensures var polled := Polled(s, poll);
      polled.error == None ==>
        && Stored(polled.state.api).Some?
        && SameStatus(Telling(polled.state).status,
             DesiredStatus(Telling(s).status, ReportOf(s, poll).status, poll.cfg.relatedObjects, s.clock))
  {
    hide Applied, Polled, TellingStep, DesiredStatus, Checked, Interfered;
    UpToTheReport(s, poll);
    AppliedTells(s.(api := Checked(Interfered(s.api, poll.cluster), poll.cfg).api), ReportOf(s, poll));
  }

  lemma StoredSurvives(s: ReporterState, poll: Poll)
    requires Stored(s.api).Some?
    ensures Stored(Polled(s, poll).state.api).Some?
  {
    hide Applied, Polled, Checked, Interfered;
    UpToTheReport(s, poll);
    AppliedKeepsStored(s.(api := Checked(Interfered(s.api, poll.cluster), poll.cfg).api), ReportOf(s, poll));
  }

  // The shape of what is reported

  /** Available, Progressing and Degraded, once each and in this order: available, and not both progressing and
      degraded. */
  predicate WellReported(conditions: seq<Condition>) {
    && |conditions| == 3
    && conditions[0].ctype == AVAILABLE && conditions[0].status == TRUE
    && conditions[1].ctype == PROGRESSING && conditions[1].status in {TRUE, FALSE}
    && conditions[2].ctype == DEGRADED && conditions[2].status in {TRUE, FALSE}
    && !(conditions[1].status == TRUE && conditions[2].status == TRUE)
  }

  lemma ChosenIsWellReported(check: Result<bool, Error>, version: string, stored: OperatorStatus,
                             related: seq<ObjectReference>, clock: ClockState)
    ensures var given := ChosenStatus(check, version);
      var desired := DesiredStatus(stored, given, related, clock);
      && WellReported(desired.conditions)
      && (check == Ok(true) <==> desired.conditions[1].status == FALSE && desired.conditions[2].status == FALSE)
      && VersionList(desired.versions) == if check == Ok(true) then Claim(version) else VersionList(stored.versions)
  {
    var given := ChosenStatus(check, version);
    assert given.conditions[1].ctype == PROGRESSING;
    ReportedPositions(stored, given, clock);
  }

  ghost predicate Settled(s: ReporterState) {
    Stored(s.api).Some? && WellReported(StoredStatus(s.api).conditions)
  }

  lemma ShapeStep(s: ReporterState, poll: Poll)
    requires Polled(s, poll).error == None || Settled(s)
    ensures Settled(Polled(s, poll).state)
  {
    hide Polled, DesiredStatus, ChosenStatus, Checked, WellReported, TimedFor;
    PollTells(s, poll);
    var check := Checked(Interfered(s.api, poll.cluster), poll.cfg).result;
    ChosenIsWellReported(check, poll.cfg.releaseVersion, StoredStatus(s.api), poll.cfg.relatedObjects, s.clock);
    if Stored(s.api).Some? {
      StoredSurvives(s, poll);
    }
  }

  lemma LastPoll(s: ReporterState, polls: seq<Poll>, n: nat)
    requires n < |polls|
    ensures AfterPolls(s, polls[..n + 1]) == Polled(AfterPolls(s, polls[..n]), polls[n]).state
  {
    assert polls[..n + 1][..n] == polls[..n];
  }

  lemma {:induction false} StaysSettled(s: ReporterState, polls: seq<Poll>, k: nat, m: nat)
    requires k <= m <= |polls| && Settled(AfterPolls(s, polls[..k]))
    ensures Settled(AfterPolls(s, polls[..m]))
    decreases m
  {
    hide Polled, Settled;
    if k < m {
      StaysSettled(s, polls, k, m - 1);
      LastPoll(s, polls, m - 1);
      ShapeStep(AfterPolls(s, polls[..m - 1]), polls[m - 1]);
    }
  }

  /** From the first report that succeeded on, the stored ClusterOperator always has the three conditions, is available,
      and is never progressing and degraded at once, whatever happens to later calls. */
  lemma ReportedStateInvariant(s: ReporterState, polls: seq<Poll>, k: nat, m: nat)
    requires k < m <= |polls| && Polled(AfterPolls(s, polls[..k]), polls[k]).error == None
    ensures Settled(AfterPolls(s, polls[..m]))
  {
    ShapeStep(AfterPolls(s, polls[..k]), polls[k]);
    LastPoll(s, polls, k);
    StaysSettled(s, polls, k + 1, m);
  }

  lemma DoneWhen(s: ReporterState, poll: Poll)
    requires Polled(s, poll).done
    ensures Polled(s, poll).error == None && Checked(Interfered(s.api, poll.cluster), poll.cfg).result == Ok(true)
  {
    hide Checked, Applied, ChosenStatus, Interfered;
  }

  /** A report that is done, and so ends the polling, leaves the operator stored as available, neither progressing nor
      degraded, at its own version and with its own related objects. */
  lemma DoneMeansAvailable(s: ReporterState, poll: Poll)
    requires Polled(s, poll).done
    ensures var status := StoredStatus(Polled(s, poll).state.api);
      && UpToDate(poll.cluster, poll.cfg)
      && WellReported(status.conditions)
      && status.conditions[1].status == FALSE && status.conditions[2].status == FALSE
      && VersionList(status.versions) == [OperandVersion("operator", poll.cfg.releaseVersion)]
      && status.relatedObjects == poll.cfg.relatedObjects
  {
    hide Polled, ChosenStatus, Checked, WellReported, TellingStep, TimedFor;
    PollTells(s, poll);
    DoneWhen(s, poll);
    CheckIsTruthful(Interfered(s.api, poll.cluster), poll.cfg);
    ChosenIsWellReported(Ok(true), poll.cfg.releaseVersion, StoredStatus(s.api), poll.cfg.relatedObjects, s.clock);
  }

  lemma StatusOf(s: ReporterState, poll: Poll)
    ensures var given := ReportOf(s, poll).status;
      var desired := DesiredStatus(StoredStatus(s.api), given, poll.cfg.relatedObjects, s.clock);
      && |desired.conditions| == |given.conditions| == 3
      && (forall i :: 0 <= i < 3 ==> desired.conditions[i] == given.conditions[i].(time := desired.conditions[i].time))
      && desired.versions == (if given.versions == None then StoredStatus(s.api).versions else given.versions)
      && desired.relatedObjects == poll.cfg.relatedObjects
  {
    hide Checked, ReportOf, TimedFor, Stamped;
    var given := ReportOf(s, poll).status;
    ThreeConditions(s, poll);
    ReportedPositions(StoredStatus(s.api), given, s.clock);
    StampedKeeps(StoredStatus(s.api).conditions, given.conditions);
  }

  lemma ThreeConditions(s: ReporterState, poll: Poll)
    ensures |ReportOf(s, poll).status.conditions| == 3 && ReportOf(s, poll).status.conditions[1].ctype == PROGRESSING
  {
    hide Checked;
  }

  lemma StampedKeeps(stored: seq<Condition>, conditions: seq<Condition>)
    ensures forall i, t :: 0 <= i < |conditions| ==>
      Stamped(stored, conditions[i], t) == conditions[i].(time := Stamped(stored, conditions[i], t).time)
  {
  }

  /** What a condition says, its time aside. */
  predicate Says(c: Condition, ctype: string, holds: bool, reason: string, message: string) {
    c.ctype == ctype && c.status == (if holds then "True" else "False") && c.reason == reason && c.message == message
  }

  /** After a poll that reported, the stored conditions and versions say what the cluster was like: degraded if and
      only if a read of the check was refused or lost; progressing if and only if the reads were served and the
      resource is there without an up-to-date recommender; the poll's own version if and only if neither. */
  lemma PollStoresTheVerdict(s: ReporterState, poll: Poll)
    requires Polled(s, poll).error == None
    ensures var status, version := StoredStatus(Polled(s, poll).state.api), poll.cfg.releaseVersion;
      var read := FirstServed(s.api.fates, ReadsNeeded(poll.cluster, poll.cfg));
      var ready := read && UpToDate(poll.cluster, poll.cfg);
      var syncing := read && !ready;
      && |status.conditions| == 3
      && Says(status.conditions[0], "Available", true, "", if ready then "at version " + version else "")
      && Says(status.conditions[1], "Progressing", syncing, if syncing then "SyncingResources" else "",
              if syncing then "updating to " + version else "")
      && Says(status.conditions[2], "Degraded", !read, if read then "" else "UnableToCheckAutoscalers",
              if read then "" else "error checking VPA controllers status: unavailable")
      && VersionList(status.versions) ==
           (if ready then [OperandVersion("operator", version)] else VersionList(StoredStatus(s.api).versions))
      && status.relatedObjects == poll.cfg.relatedObjects
  {
    hide Polled, ReportOf, DesiredStatus, TellingStep, Checked, FirstServed, UpToDate, ReadsNeeded;
    PollTells(s, poll);
    StatusOf(s, poll);
    var interfered := Interfered(s.api, poll.cluster);
    CheckFailsWhen(interfered, poll.cfg);
    CheckIsTruthful(interfered, poll.cfg);
    SameForTheCheck(s.api, poll);
    ReportFollowsCheck(s, poll);
  }

  lemma SameForTheCheck(api: ApiState, poll: Poll)
    ensures var store := Interfered(api, poll.cluster).store;
      && UpToDate(store, poll.cfg) == UpToDate(poll.cluster, poll.cfg)
      && ReadsNeeded(store, poll.cfg) == ReadsNeeded(poll.cluster, poll.cfg)
  {
    hide Serves;
  }

  lemma ReportFollowsCheck(s: ReporterState, poll: Poll)
    ensures var result := Checked(Interfered(s.api, poll.cluster), poll.cfg).result;
      ReportOf(s, poll).status == ChosenStatus(result, poll.cfg.releaseVersion)
  {
    hide Checked, ChosenStatus;
  }

  // The versions that are claimed

  function Claimed(s: ReporterState): seq<OperandVersion> {
    VersionList(StoredStatus(s.api).versions)
  }

  lemma ClaimStep(s: ReporterState, poll: Poll)
    requires Claimed(Polled(s, poll).state) != Claimed(s)
    ensures UpToDate(poll.cluster, poll.cfg) && Claimed(Polled(s, poll).state) == Claim(poll.cfg.releaseVersion)
  {
    hide Polled, DesiredStatus, ChosenStatus, Checked, WellReported;
    PollTells(s, poll);
    var interfered := Interfered(s.api, poll.cluster);
    CheckIsTruthful(interfered, poll.cfg);
    var check := Checked(interfered, poll.cfg).result;
    ChosenIsWellReported(check, poll.cfg.releaseVersion, StoredStatus(s.api), poll.cfg.relatedObjects, s.clock);
  }

  /** Poll k made the claim that stands from then on up to state m. */
  ghost predicate ClaimMadeAt(s: ReporterState, polls: seq<Poll>, k: nat, m: nat)
    requires k < m <= |polls|
  {
    && UpToDate(polls[k].cluster, polls[k].cfg)
    && forall i :: k < i <= m ==>
         Claimed(AfterPolls(s, polls[..i])) == [OperandVersion("operator", polls[k].cfg.releaseVersion)]
  }

  /** Over every run: if the stored versions are not what they were at the start, then some poll at which the operands
      were up to date with its version claimed that version, and the claim stood in every state after it. */
  lemma {:induction false} VersionClaimSafety(s: ReporterState, polls: seq<Poll>, m: nat)
    requires m <= |polls| && Claimed(AfterPolls(s, polls[..m])) != Claimed(s)
    ensures exists k :: 0 <= k < m && ClaimMadeAt(s, polls, k, m)
    decreases m
  {
    hide Polled, Claimed, UpToDate, AfterPolls;
    NoPolls(s);
    assert m > 0 by {
      assert polls[..0] == [];
    }
    var before, after := AfterPolls(s, polls[..m - 1]), AfterPolls(s, polls[..m]);
    LastPoll(s, polls, m - 1);
    if Claimed(after) != Claimed(before) {
      ClaimStep(before, polls[m - 1]);
      assert ClaimMadeAt(s, polls, m - 1, m);
    } else {
      VersionClaimSafety(s, polls, m - 1);
      ClaimStands(s, polls, m - 1, m);
    }
  }

  lemma NoPolls(s: ReporterState)
    ensures AfterPolls(s, []) == s
  {
  }

  lemma ClaimStands(s: ReporterState, polls: seq<Poll>, n: nat, m: nat)
    requires n + 1 == m <= |polls| && Claimed(AfterPolls(s, polls[..m])) == Claimed(AfterPolls(s, polls[..n]))
    requires exists k :: 0 <= k < n && ClaimMadeAt(s, polls, k, n)
    ensures exists k :: 0 <= k < m && ClaimMadeAt(s, polls, k, m)
  {
    hide AfterPolls, Claimed, UpToDate;
    var k :| 0 <= k < n && ClaimMadeAt(s, polls, k, n);
    assert ClaimMadeAt(s, polls, k, m);
  }

  /** The transition times of polled reports obey the law of runs as well. */
  lemma PollTimesNeverGoBack(s: ReporterState, polls: seq<Poll>, k: nat, m: nat)
    requires k <= m <= |polls|
    requires Timed(StoredStatus(s.api).conditions, s.clock.now)
    ensures var earlier, later := AfterPolls(s, polls[..k]), AfterPolls(s, polls[..m]);
      && earlier.clock.now <= later.clock.now
      && Timed(StoredStatus(later.api).conditions, later.clock.now)
      && NotBefore(StoredStatus(earlier.api).conditions, StoredStatus(later.api).conditions)
  {
    var tolds := seq(|polls| + 1, i requires 0 <= i <= |polls| => Telling(AfterPolls(s, polls[..i])));
    var reports := seq(|polls|, i requires 0 <= i < |polls| => ReportOf(AfterPolls(s, polls[..i]), polls[i]));
    forall i | 0 <= i < |polls|
      ensures TellingStep(tolds[i], reports[i], tolds[i + 1]) && Unset(reports[i].status)
    {
      LastPoll(s, polls, i);
      PollTells(AfterPolls(s, polls[..i]), polls[i]);
    }
    RunNotBefore(tolds, reports, k, m);
  }

  // When polling ends

  /** The calls that applying a status takes when all are served: the read, the creation of a missing operator, and the
      update of one that is not yet as desired. */
  ghost function CallsNeeded(s: ReporterState, report: Report): nat {
    var co := Stored(s.api).GetOr(BLANK_OPERATOR);
    var required := co.(status := DesiredStatus(co.status, report.status, report.related, s.clock));
    1 + (if Stored(s.api) == None then 1 else 0) + (if Satisfied(co, required) then 0 else 1)
  }

  lemma GotWhen(s: ApiState, m: nat)
    ensures var n := 1 + if Stored(s) == None then 1 else 0;
      var got := GotOrCreated(s);
      && (got.result.Ok? <==> FirstServed(s.fates, n))
      && (got.result.Ok? ==>
            && got.result.value == Stored(s).GetOr(BLANK_OPERATOR)
            && (FirstServed(s.fates, n + m) <==> FirstServed(got.api.fates, m)))
  {
    hide FirstServed;
    var s1 := Consume(s);
    NoneServed(s1.fates);
    NoneServed(Consume(s1).fates);
    FirstServedStep(s, 0);
    FirstServedStep(s, 1);
    FirstServedStep(s1, 0);
    FirstServedStep(s, m);
    FirstServedStep(s, m + 1);
    FirstServedStep(s1, m);
  }

  /** Applying a status fails if and only if one of the calls it takes is refused or lost. */
  lemma AppliedFailsWhen(s: ReporterState, report: Report)
    ensures Applied(s, report.status, report.related).error == None <==>
      FirstServed(s.api.fates, CallsNeeded(s, report))
  {
    hide FirstServed, DesiredStatus, Satisfied, GotOrCreated, MergedOwners, MergedMap, EnsuredStatus;
    GotWhen(s.api, 0);
    GotWhen(s.api, 1);
    GotStored(s.api);
    var got := GotOrCreated(s.api);
    if got.result.Ok? {
      FirstServedStep(got.api, 0);
      NoneServed(got.api.fates);
      NoneServed(Consume(got.api).fates);
    } else if FirstServed(s.api.fates, CallsNeeded(s, report)) {
      FewerServed(s.api.fates, 1 + (if Stored(s.api) == None then 1 else 0), CallsNeeded(s, report));
    }
  }

  /** A poll ends the polling if and only if its check says yes or a call of its own report is refused or lost.  A
      check that fails or says no does not end it, but a report of that which cannot be written does. */
  lemma PollEndsWhen(s: ReporterState, poll: Poll)
    ensures var checked := Checked(Interfered(s.api, poll.cluster), poll.cfg);
      var written := FirstServed(checked.api.fates, CallsNeeded(s.(api := checked.api), ReportOf(s, poll)));
      var polled := Polled(s, poll);
      && (polled.error != None <==> !written)
      && (polled.done <==> checked.result == Ok(true) && written)
      && (polled.done || polled.error != None <==> checked.result == Ok(true) || !written)
  {
    hide Checked, Applied, FirstServed, CallsNeeded, ChosenStatus, Interfered;
    AppliedFailsWhen(s.(api := Checked(Interfered(s.api, poll.cluster), poll.cfg).api), ReportOf(s, poll));
  }
}
