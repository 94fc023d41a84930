/** The TLS profile in use as the outcome of the whole history of attempts, and how it arrives in the admission
    plugin. */
module TlsHistory {
  import opened Common
  import opened ApiTypes
  import opened ApiServer
  import opened Flags
  import opened PodSpecs
  import opened Reconcile
  import opened ManagedObjects
  import opened ReconcileRuns
  import opened Tls

  /** One attempt, in a cluster that others may have left in any state. */
  datatype Turn = Turn(request: Key, store: Store, fates: seq<Fate>)

  ghost predicate Requests(turns: seq<Turn>) {
    forall i :: 0 <= i < |turns| ==> turns[i].request.kind == VpaKind
  }

  function TurnResult(turn: Turn, cfg: Config): Attempt
    requires turn.request.kind == VpaKind
  {
    Reconciled(turn.request, cfg, ApiState(turn.store, turn.fates, []))
  }

  ghost function ConfigAfter(cfg: Config, turns: seq<Turn>): Config
    requires Requests(turns)
    decreases |turns|
  {
    if turns == [] then cfg
    else TurnResult(turns[|turns| - 1], ConfigAfter(cfg, turns[..|turns| - 1])).cfg
  }

  /** What the attempt finds out about the cluster's profile: nothing when its first call fails, when there is no
      APIServer configuration, or when that cannot be resolved. */
  function Finding(turn: Turn): Option<Option<TlsProfile>> {
    if (turn.fates != [] && turn.fates[0] != Served) || API_SERVER_KEY !in turn.store then None
    else
      var o := turn.store[API_SERVER_KEY].apiServer;
      if !o.honoured then Some(None) else if o.resolved == None then None else Some(o.resolved)
  }

  /** The last thing found out, if anything was. */
  function LastFinding(turns: seq<Turn>): Option<Option<TlsProfile>>
    decreases |turns|
  {
    if turns == [] then None
    else
      var last := Finding(turns[|turns| - 1]);
      if last.Some? then last else LastFinding(turns[..|turns| - 1])
  }

  lemma OneTurn(turn: Turn, cfg: Config)
    requires turn.request.kind == VpaKind
    ensures TurnResult(turn, cfg).cfg == cfg.(tls := Finding(turn).GetOr(cfg.tls))
  {
    hide EnsuredSlots;
  }

  /** Over every history: the profile in use is the last one found out, or else the initial one; nothing else in the
      configuration ever changes. */
  lemma {:induction false} ProfileIsTheLastFinding(cfg: Config, turns: seq<Turn>)
    requires Requests(turns)
    ensures ConfigAfter(cfg, turns) == cfg.(tls := LastFinding(turns).GetOr(cfg.tls))
    decreases |turns|
  {
    hide TurnResult, Finding;
    if turns != [] {
      var n := |turns| - 1;
      ProfileIsTheLastFinding(cfg, turns[..n]);
      OneTurn(turns[n], ConfigAfter(cfg, turns[..n]));
    }
  }

  // The admission plugin

  const ADMISSION_SLOT := DeploymentSlot(Admission)

  /** The arguments in the stored admission deployment. */
  function StoredArgs(vpa: VpaController, cfg: Config, store: Store): Option<seq<string>> {
    var k := SlotKey(ADMISSION_SLOT, vpa, cfg);
    if k in store && store[k].DeploymentObject? && |store[k].deployment.template.spec.containers| == 1
    then Some(store[k].deployment.template.spec.containers[0].args) else None
  }

  lemma ConformingArgs(vpa: VpaController, cfg: Config, store: Store)
    requires ConformsAt(ADMISSION_SLOT, vpa, cfg, store)
    ensures StoredArgs(vpa, cfg, store) == Some(ContainerArgs(Admission, vpa.spec, cfg))
  {
    hide AdmissionPluginArgs, DefaultResources, DefaultNodeSelector, DefaultTolerations;
    var containers := store[SlotKey(ADMISSION_SLOT, vpa, cfg)].deployment.template.spec.containers;
    assert NormalContainer(containers[0]) == NormalContainer(ExpectedPodSpec(Admission, vpa.spec, cfg).containers[0]);
  }

  lemma StoredAfter(turn: Turn, vpa: VpaController, cfg: Config)
    requires Present(turn.request, vpa, turn.store) && TurnResult(turn, cfg).error == None
    ensures var a := TurnResult(turn, cfg);
      StoredArgs(vpa, a.cfg, a.api.store) == Some(ContainerArgs(Admission, vpa.spec, a.cfg))
  {
    hide Reconciled, ConformsAt, StoredArgs, ContainerArgs;
    var s := ApiState(turn.store, turn.fates, []);
    var n, f := Attempted(turn.request, vpa, cfg, s);
    assert SLOTS[2] == ADMISSION_SLOT;
    ConformingArgs(vpa, TurnResult(turn, cfg).cfg, TurnResult(turn, cfg).api.store);
  }

  /** What the admission plugin calls the versions; other names are passed on as they are. */
  const VERSION_NAMES := map["VersionTLS10" := "tls1_0", "VersionTLS11" := "tls1_1", "VersionTLS12" := "tls1_2",
                             "VersionTLS13" := "tls1_3"]

  function VersionOf(profile: Option<TlsProfile>): Option<string> {
    if profile == None || profile.value.minVersion == "" then None
    else if profile.value.minVersion in VERSION_NAMES then Some(VERSION_NAMES[profile.value.minVersion])
    else Some(profile.value.minVersion)
  }

  function CiphersOf(profile: Option<TlsProfile>): seq<string> {
    if profile.Some? then profile.value.ciphers else []
  }

  /** The text joins the converted ciphers, and splits back into them unless a converted name has a comma. */
  ghost predicate CarriesCiphers(text: string, names: map<string, string>, ciphers: seq<string>) {
    exists converted :: ConvertedBy(names, ciphers, converted) && text == Join(converted)
      && (Split(text) == converted <==> forall i :: 0 <= i < |converted| ==> ',' !in converted[i])
  }

  /** The stored arguments carry the profile: its minimum version, and its ciphers under their names in the table. */
  ghost predicate CarriesProfile(args: seq<string>, vpa: VpaController, cfg: Config, profile: Option<TlsProfile>) {
    && (NotOverridden(Admission, vpa.spec, cfg, "--min-tls-version") ==>
          Effective(args, "--min-tls-version") == VersionOf(profile))
    && (NotOverridden(Admission, vpa.spec, cfg, "--tls-ciphers") ==>
          var flag := Effective(args, "--tls-ciphers");
          && (flag == None <==> CiphersOf(profile) == [])
          && (flag.Some? ==> CarriesCiphers(flag.value, cfg.ianaNames, CiphersOf(profile))))
  }

  lemma ArgsCarryProfile(vpa: VpaController, cfg: Config)
    ensures CarriesProfile(ContainerArgs(Admission, vpa.spec, cfg), vpa, cfg, cfg.tls)
  {
    hide ContainerArgs, AdmissionPluginArgs, Effective, ConvertedBy, Join, Split, TLSCiphersToArgs, TLSVersionToArg;
    var ciphers := CiphersOf(cfg.tls);
    AdmissionSettings(vpa.spec, cfg);
    TlsKeys();
    VersionNames();
    SomeCiphers(cfg.ianaNames, ciphers);
    SplitJoin(TLSCiphersToArgs(cfg.ianaNames, ciphers));
    CiphersAreConverted(cfg.ianaNames, ciphers);
  }

  lemma VersionNames()
    ensures forall version ::
      TLSVersionToArg(version) == (if version in VERSION_NAMES then VERSION_NAMES[version] else version)
  {
  }

  lemma SomeCiphers(names: map<string, string>, ciphers: seq<string>)
    ensures ciphers != [] ==> TLSCiphersToArgs(names, ciphers) != []
  {
  }

  lemma TlsKeys()
    ensures MIN_TLS_VERSION in ADMISSION_KEYS[6..] && TLS_CIPHERS in ADMISSION_KEYS[6..]
    ensures Distinct([KUBE_API_QPS, KUBE_API_BURST, MIN_TLS_VERSION, TLS_CIPHERS])
  {
    assert ADMISSION_KEYS[6..] == [KUBE_API_QPS, KUBE_API_BURST, MIN_TLS_VERSION, TLS_CIPHERS];
    assert |KUBE_API_QPS| == 14 && |KUBE_API_BURST| == 16 && |MIN_TLS_VERSION| == 17 && |TLS_CIPHERS| == 13;
  }

  /** After any history, and a last attempt that returned nil with the resource present, the admission deployment runs
      with the profile that was last found out. */
  lemma HistoryReachesThePlugin(cfg: Config, turns: seq<Turn>, last: Turn, vpa: VpaController)
    requires Requests(turns) && Present(last.request, vpa, last.store)
    requires TurnResult(last, ConfigAfter(cfg, turns)).error == None
    ensures var a := TurnResult(last, ConfigAfter(cfg, turns));
      var profile := LastFinding(turns + [last]).GetOr(cfg.tls);
      StoredArgs(vpa, cfg, a.api.store).Some?
        && CarriesProfile(StoredArgs(vpa, cfg, a.api.store).value, vpa, cfg, profile)
  {
    hide TurnResult, StoredArgs, CarriesProfile, Finding, ContainerArgs;
    var before := ConfigAfter(cfg, turns);
    var a := TurnResult(last, before);
    ProfileIsTheLastFinding(cfg, turns);
    OneTurn(last, before);
    assert (turns + [last])[..|turns|] == turns;
    StoredAfter(last, vpa, before);
    ArgsCarryProfile(vpa, a.cfg);
    OnlyTheProfile(vpa, a.cfg, cfg, a.api.store);
  }

  lemma OnlyTheProfile(vpa: VpaController, later: Config, cfg: Config, store: Store)
    requires later == cfg.(tls := later.tls)
    ensures StoredArgs(vpa, later, store) == StoredArgs(vpa, cfg, store)
    ensures forall args :: CarriesProfile(args, vpa, later, later.tls) <==> CarriesProfile(args, vpa, cfg, later.tls)
  {
    hide Effective, Split, TLSCiphersToArgs;
  }
}
