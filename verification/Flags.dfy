/** Command line flags `key=value`, read with the last one winning, and the arguments of the three operands. */
module Flags {
  import opened Common
  import opened ApiTypes
  import opened GoHeap
  import opened Tls

  // Reading flags

  /** The text before the first `=`. */
  function FlagKey(arg: string): string {
    if arg == "" || arg[0] == '=' then "" else [arg[0]] + FlagKey(arg[1..])
  }

  /** The text after the first `=`. */
  function FlagValue(arg: string): string {
    if arg == "" then "" else if arg[0] == '=' then arg[1..] else FlagValue(arg[1..])
  }

  predicate Sets(arg: string, key: string) {
    '=' in arg && FlagKey(arg) == key
  }

  /** What a parser that lets the last setting win makes of a key. */
  function Effective(args: seq<string>, key: string): Option<string> {
    if args == [] then None
    else
      var last := args[|args| - 1];
      if Sets(last, key) then Some(FlagValue(last)) else Effective(args[..|args| - 1], key)
  }

  function Flag(key: string, value: string): string {
    key + "=" + value
  }

  predicate HasPrefix(s: string, prefix: string) {
    prefix <= s
  }

  predicate ArgExists(args: seq<string>, arg: string) {
    exists i :: 0 <= i < |args| && HasPrefix(args[i], arg + "=")
  }

  lemma {:induction false} FlagParts(key: string, value: string)
    requires '=' !in key
    ensures FlagKey(Flag(key, value)) == key && FlagValue(Flag(key, value)) == value
  {
    var flag := Flag(key, value);
    if key == "" {
      assert flag == "=" + value;
    } else {
      FlagParts(key[1..], value);
      assert flag[1..] == Flag(key[1..], value);
    }
  }

  lemma {:induction false} PrefixIsKey(arg: string, key: string)
    requires '=' !in key
    ensures HasPrefix(arg, key + "=") <==> Sets(arg, key)
  {
    if key == "" {
      assert HasPrefix(arg, key + "=") <==> arg != "" && arg[0] == '=';
    } else if arg != "" {
      PrefixIsKey(arg[1..], key[1..]);
      assert key + "=" == [key[0]] + (key[1..] + "=");
      assert arg[1..] == arg[1..][..];
      assert HasPrefix(arg, key + "=") <==> arg[0] == key[0] && HasPrefix(arg[1..], key[1..] + "=");
    }
  }

  lemma KeysHaveNoEquals(arg: string)
    ensures '=' !in FlagKey(arg)
  {
  }

  /** Looking for the prefix finds an argument exactly when one sets the key, for every argument list,
      if and only if the key has no `=`. */
  lemma ArgExistsIsKeyEquality(key: string)
    ensures (forall args :: ArgExists(args, key) <==> exists i :: 0 <= i < |args| && Sets(args[i], key)) <==>
      '=' !in key
  {
    if '=' in key {
      var args := [key + "="];
      assert HasPrefix(args[0], key + "=");
      KeysHaveNoEquals(args[0]);
      assert ArgExists(args, key);
    } else {
      forall args: seq<string>, i | 0 <= i < |args|
        ensures HasPrefix(args[i], key + "=") <==> Sets(args[i], key)
      {
        PrefixIsKey(args[i], key);
      }
    }
  }

  lemma {:induction false} ArgExistsIsEffective(args: seq<string>, key: string)
    requires '=' !in key
    ensures ArgExists(args, key) <==> Effective(args, key).Some?
  {
    if args != [] {
      var n := |args| - 1;
      ArgExistsIsEffective(args[..n], key);
      PrefixIsKey(args[n], key);
      if ArgExists(args, key) && !Sets(args[n], key) {
        var i :| 0 <= i < |args| && HasPrefix(args[i], key + "=");
        assert HasPrefix(args[..n][i], key + "=");
      }
    }
  }

  lemma {:induction false} EffectiveAppend(front: seq<string>, back: seq<string>, key: string)
    ensures Effective(front + back, key) ==
            if Effective(back, key).Some? then Effective(back, key) else Effective(front, key)
  {
    if back == [] {
      assert front + back == front;
    } else {
      var n := |back| - 1;
      EffectiveAppend(front, back[..n], key);
      assert (front + back)[..|front| + n] == front + back[..n];
    }
  }

  // The configuration and the arguments of the operands

  /** `ianaNames` is the table of the TLS library. */
  datatype Config = Config(releaseVersion: string, name: string, namespace: string, image: string, verbosity: Printed,
                           extraArgs: string, tls: Option<TlsProfile>, externalControlPlane: bool,
                           ianaNames: map<string, string>)

  /** The spec of a resource in memory: the user's arguments are slices and the node selectors maps, which whoever
      holds the resource shares with whoever is handed a part of it. */
  datatype LiveOverride = LiveOverride(args: Slice<string>, resources: Resources,
                                       nodeSelector: Ref<map<string, string>>, tolerations: seq<Toleration>)
  {
    function Value(): DeploymentOverride
      requires args.Valid()
      reads args.data, nodeSelector
    {
      DeploymentOverride(args.Elements(), resources, nodeSelector.value, tolerations)
    }
  }

  datatype LiveSpec = LiveSpec(safetyMarginFraction: Option<Printed>, podMinCpu: Option<Printed>,
                               podMinMemory: Option<Printed>, recommendationOnly: Option<bool>,
                               minReplicas: Option<Printed>, admission: LiveOverride, recommender: LiveOverride,
                               updater: LiveOverride)
  {
    predicate Valid() {
      admission.args.Valid() && recommender.args.Valid() && updater.args.Valid()
    }

    function Value(): VpaSpec
      requires Valid()
      reads admission.args.data, admission.nodeSelector, recommender.args.data, recommender.nodeSelector,
            updater.args.data, updater.nodeSelector
    {
      VpaSpec(safetyMarginFraction, podMinCpu, podMinMemory, recommendationOnly, minReplicas, admission.Value(),
              recommender.Value(), updater.Value())
    }
  }

  method LoadOverride(o: DeploymentOverride) returns (live: LiveOverride)
    ensures live.args.Valid() && fresh(live.args.data) && fresh(live.nodeSelector) && live.Value() == o
  {
    var args := Literal(o.args);
    var nodeSelector := new Ref(o.nodeSelector);
    live := LiveOverride(args, o.resources, nodeSelector, o.tolerations);
  }

  /** The resource as it is read from the API server. */
  method LoadSpec(vpa: VpaSpec) returns (live: LiveSpec)
    ensures live.Valid() && live.Value() == vpa
  {
    var admission := LoadOverride(vpa.admission);
    var recommender := LoadOverride(vpa.recommender);
    var updater := LoadOverride(vpa.updater);
    live := LiveSpec(vpa.safetyMarginFraction, vpa.podMinCpu, vpa.podMinMemory, vpa.recommendationOnly, vpa.minReplicas,
                     admission, recommender, updater);
  }

  const LOG_TO_STDERR := "--logtostderr"
  const VERBOSITY := "--v"
  const SAFETY_MARGIN_FRACTION := "--recommendation-margin-fraction"
  const POD_MIN_CPU := "--pod-recommendation-min-cpu-millicores"
  const POD_MIN_MEMORY := "--pod-recommendation-min-memory-mb"
  const MIN_REPLICAS := "--min-replicas"
  const TLS_CERT_FILE := "--tls-cert-file"
  const TLS_KEY_FILE := "--tls-private-key"
  const TLS_CA_CERT_FILE := "--client-ca-file"
  const WEBHOOK_TIMEOUT := "--webhook-timeout-seconds"
  const KUBE_API_QPS := "--kube-api-qps"
  const KUBE_API_BURST := "--kube-api-burst"
  const MIN_TLS_VERSION := "--min-tls-version"
  const TLS_CIPHERS := "--tls-ciphers"

  function Optional(key: string, value: Option<string>): seq<string> {
    match value
    case Some(v) => [Flag(key, v)]
    case None => []
  }

  function RecommenderArgs(vpa: VpaSpec, cfg: Config): seq<string> {
    [LOG_TO_STDERR, Flag(VERBOSITY, cfg.verbosity)]
    + Optional(SAFETY_MARGIN_FRACTION, vpa.safetyMarginFraction)
    + Optional(POD_MIN_CPU, vpa.podMinCpu)
    + Optional(POD_MIN_MEMORY, vpa.podMinMemory)
  }

  function UpdaterArgs(vpa: VpaSpec, cfg: Config): seq<string> {
    [LOG_TO_STDERR, Flag(VERBOSITY, cfg.verbosity)] + Optional(MIN_REPLICAS, vpa.minReplicas)
  }

  function MinTlsVersion(cfg: Config): Option<string> {
    if cfg.tls.Some? && cfg.tls.value.minVersion != "" then Some(TLSVersionToArg(cfg.tls.value.minVersion)) else None
  }

  function TlsCiphers(cfg: Config): Option<string> {
    if cfg.tls.Some? && cfg.tls.value.ciphers != []
      then Some(Join(TLSCiphersToArgs(cfg.ianaNames, cfg.tls.value.ciphers)))
    else None
  }

  function FixedAdmissionArgs(cfg: Config): seq<string> {
    [LOG_TO_STDERR, Flag(VERBOSITY, cfg.verbosity), Flag(TLS_CERT_FILE, "/data/tls-certs/tls.crt"),
     Flag(TLS_KEY_FILE, "/data/tls-certs/tls.key"), Flag(TLS_CA_CERT_FILE, "/data/tls-ca-certs/service-ca.crt"),
     Flag(WEBHOOK_TIMEOUT, "10")]
  }

  /** A default that gives way to the user's own flag. */
  function Default(user: seq<string>, key: string, value: string): Option<string> {
    if ArgExists(user, key) then None else Some(value)
  }

  function AdmissionPluginArgs(vpa: VpaSpec, cfg: Config): seq<string> {
    FixedAdmissionArgs(cfg)
    + Optional(KUBE_API_QPS, Default(vpa.admission.args, KUBE_API_QPS, "25.0"))
    + Optional(KUBE_API_BURST, Default(vpa.admission.args, KUBE_API_BURST, "50.0"))
    + Optional(MIN_TLS_VERSION, MinTlsVersion(cfg))
    + Optional(TLS_CIPHERS, TlsCiphers(cfg))
  }

  method BuildRecommenderArgs(vpa: LiveSpec, cfg: Config) returns (args: Slice<string>)
    requires vpa.Valid()
    ensures args.Valid() && fresh(args.data) && args.Elements() == RecommenderArgs(vpa.Value(), cfg)
  {
    args := Literal([LOG_TO_STDERR, Flag(VERBOSITY, cfg.verbosity)]);
    if vpa.safetyMarginFraction != None {
      args := Append(args, [Flag(SAFETY_MARGIN_FRACTION, vpa.safetyMarginFraction.value)]);
    }
    if vpa.podMinCpu != None {
      args := Append(args, [Flag(POD_MIN_CPU, vpa.podMinCpu.value)]);
    }
    if vpa.podMinMemory != None {
      args := Append(args, [Flag(POD_MIN_MEMORY, vpa.podMinMemory.value)]);
    }
  }

  method BuildUpdaterArgs(vpa: LiveSpec, cfg: Config) returns (args: Slice<string>)
    requires vpa.Valid()
    ensures args.Valid() && fresh(args.data) && args.Elements() == UpdaterArgs(vpa.Value(), cfg)
  {
    args := Literal([LOG_TO_STDERR, Flag(VERBOSITY, cfg.verbosity)]);
    if vpa.minReplicas != None {
      args := Append(args, [Flag(MIN_REPLICAS, vpa.minReplicas.value)]);
    }
  }

  method BuildAdmissionPluginArgs(vpa: LiveSpec, cfg: Config) returns (args: Slice<string>)
    requires vpa.Valid()
    ensures args.Valid() && fresh(args.data) && args.Elements() == AdmissionPluginArgs(vpa.Value(), cfg)
  {
    hide ArgExists, TlsCiphers, MinTlsVersion, Flag;
    var user := vpa.admission.args.Elements();
    args := Literal([LOG_TO_STDERR, Flag(VERBOSITY, cfg.verbosity), Flag(TLS_CERT_FILE, "/data/tls-certs/tls.crt"),
                     Flag(TLS_KEY_FILE, "/data/tls-certs/tls.key"),
                     Flag(TLS_CA_CERT_FILE, "/data/tls-ca-certs/service-ca.crt"), Flag(WEBHOOK_TIMEOUT, "10")]);
    ghost var fixed := args.Elements();
    if !ArgExists(user, KUBE_API_QPS) {
      args := Append(args, [Flag(KUBE_API_QPS, "25.0")]);
    }
    ghost var qps := args.Elements();
    assert qps == fixed + Optional(KUBE_API_QPS, Default(user, KUBE_API_QPS, "25.0"));
    if !ArgExists(user, KUBE_API_BURST) {
      args := Append(args, [Flag(KUBE_API_BURST, "50.0")]);
    }
    ghost var burst := args.Elements();
    assert burst == qps + Optional(KUBE_API_BURST, Default(user, KUBE_API_BURST, "50.0"));
    args := AppendTls(args, cfg);
  }

  method AppendTls(given: Slice<string>, cfg: Config) returns (args: Slice<string>)
    requires given.Valid()
    modifies given.data
    ensures args.Valid() && (args.data == given.data || fresh(args.data))
    ensures args.Elements() ==
            old(given.Elements()) + Optional(MIN_TLS_VERSION, MinTlsVersion(cfg)) +
              Optional(TLS_CIPHERS, TlsCiphers(cfg))
  {
    args := given;
    if cfg.tls != None && cfg.tls.value.minVersion != "" {
      args := Append(args, [Flag(MIN_TLS_VERSION, TLSVersionToArg(cfg.tls.value.minVersion))]);
    }
    if cfg.tls != None && |cfg.tls.value.ciphers| > 0 {
      args := Append(args, [Flag(TLS_CIPHERS, Join(TLSCiphersToArgs(cfg.ianaNames, cfg.tls.value.ciphers)))]);
    }
  }

  // What the admission arguments amount to

  const ADMISSION_KEYS := [LOG_TO_STDERR, VERBOSITY, TLS_CERT_FILE, TLS_KEY_FILE, TLS_CA_CERT_FILE, WEBHOOK_TIMEOUT,
                           KUBE_API_QPS, KUBE_API_BURST, MIN_TLS_VERSION, TLS_CIPHERS]

  /** Ten different names: they differ in length or in their first letter. */
  lemma AdmissionKeysDistinct()
    ensures Distinct(ADMISSION_KEYS)
    ensures forall i :: 0 <= i < |ADMISSION_KEYS| ==> '=' !in ADMISSION_KEYS[i]
  {
  }

  function FlagKeys(args: seq<string>): seq<string> {
    seq(|args|, i requires 0 <= i < |args| => FlagKey(args[i]))
  }

  ghost predicate ProperKeys(keys: seq<string>) {
    Distinct(keys) && forall i :: 0 <= i < |keys| ==> '=' !in keys[i]
  }

  /** The keys of `args` are different, and are among the first n of `keys`. */
  ghost predicate KeysWithin(keys: seq<string>, args: seq<string>, n: nat)
    requires n <= |keys|
  {
    Distinct(FlagKeys(args)) && forall i :: 0 <= i < |args| ==> FlagKey(args[i]) in keys[..n]
  }

  lemma NextKeyWithin(keys: seq<string>, args: seq<string>, n: nat, value: Option<string>)
    requires ProperKeys(keys) && n < |keys| && KeysWithin(keys, args, n)
    ensures KeysWithin(keys, args + Optional(keys[n], value), n + 1)
  {
    var key, more := keys[n], args + Optional(keys[n], value);
    assert keys[..n + 1] == keys[..n] + [key];
    assert key !in keys[..n];
    if value.Some? {
      FlagParts(key, value.value);
      assert FlagKeys(more) == FlagKeys(args) + [key];
      assert forall i :: 0 <= i < |args| ==> FlagKeys(args)[i] in keys[..n];
    } else {
      assert more == args;
    }
  }

  /** A bare flag and five flags with values. */
  lemma FixedKeysWithin(keys: seq<string>, args: seq<string>, values: seq<string>)
    requires ProperKeys(keys) && |keys| >= |args| == |values| > 0
    requires args[0] == keys[0] && forall i :: 0 < i < |args| ==> args[i] == Flag(keys[i], values[i])
    ensures KeysWithin(keys, args, |args|)
  {
    NoEqualsIsKey(keys[0]);
    assert keys[..1][0] == keys[0];
    for n := 1 to |args|
      invariant KeysWithin(keys, args[..n], n)
    {
      NextKeyWithin(keys, args[..n], n, Some(values[n]));
      assert args[..n + 1] == args[..n] + Optional(keys[n], Some(values[n]));
    }
    assert args[..|args|] == args;
  }

  lemma FixedAdmissionKeys(cfg: Config)
    ensures ProperKeys(ADMISSION_KEYS) && KeysWithin(ADMISSION_KEYS, FixedAdmissionArgs(cfg), 6)
  {
    AdmissionKeysDistinct();
    FixedKeysWithin(ADMISSION_KEYS, FixedAdmissionArgs(cfg),
      ["", cfg.verbosity, "/data/tls-certs/tls.crt", "/data/tls-certs/tls.key", "/data/tls-ca-certs/service-ca.crt",
        "10"]);
  }

  lemma {:induction false} NoEqualsIsKey(arg: string)
    requires '=' !in arg
    ensures FlagKey(arg) == arg
  {
    if arg != "" {
      NoEqualsIsKey(arg[1..]);
    }
  }

  /** No key is generated twice, for any resource and configuration. */
  lemma AdmissionArgsDistinct(vpa: VpaSpec, cfg: Config)
    ensures Distinct(FlagKeys(AdmissionPluginArgs(vpa, cfg)))
  {
    var keys, user := ADMISSION_KEYS, vpa.admission.args;
    FixedAdmissionKeys(cfg);
    AdditionsDistinct(keys, FixedAdmissionArgs(cfg), Default(user, KUBE_API_QPS, "25.0"),
      Default(user, KUBE_API_BURST, "50.0"),
                      MinTlsVersion(cfg), TlsCiphers(cfg));
  }

  lemma AdditionsDistinct(keys: seq<string>, args: seq<string>, a: Option<string>, b: Option<string>, c: Option<string>,
                          d: Option<string>)
    requires ProperKeys(keys) && |keys| == 10 && KeysWithin(keys, args, 6)
    ensures var all := args + Optional(keys[6], a) + Optional(keys[7], b) + Optional(keys[8], c) + Optional(keys[9], d);
      Distinct(FlagKeys(all))
  {
    NextKeyWithin(keys, args, 6, a);
    NextKeyWithin(keys, args + Optional(keys[6], a), 7, b);
    NextKeyWithin(keys, args + Optional(keys[6], a) + Optional(keys[7], b), 8, c);
    NextKeyWithin(keys, args + Optional(keys[6], a) + Optional(keys[7], b) + Optional(keys[8], c), 9, d);
  }

  lemma EffectiveOptional(key: string, value: Option<string>, asked: string)
    requires '=' !in key
    ensures Effective(Optional(key, value), asked) == if asked == key then value else None
  {
    if value.Some? {
      FlagParts(key, value.value);
      assert '=' in Flag(key, value.value) by {
        assert Flag(key, value.value)[|key|] == '=';
      }
    }
  }

  lemma {:induction false} EffectiveAbsent(args: seq<string>, key: string)
    requires forall i :: 0 <= i < |args| ==> FlagKey(args[i]) != key
    ensures Effective(args, key) == None
  {
    if args != [] {
      var n := |args| - 1;
      assert forall i :: 0 <= i < n ==> args[..n][i] == args[i];
      EffectiveAbsent(args[..n], key);
    }
  }

  lemma FixedLacks(args: seq<string>, key: string)
    requires ProperKeys(ADMISSION_KEYS) && KeysWithin(ADMISSION_KEYS, args, 6) && key in ADMISSION_KEYS[6..]
    ensures forall i :: 0 <= i < |args| ==> FlagKey(args[i]) != key
  {
    assert forall k :: k in ADMISSION_KEYS[..6] ==> k !in ADMISSION_KEYS[6..];
  }

  /** What the generated arguments say about each of the four settings that may be missing. */
  lemma AdmissionEffective(vpa: VpaSpec, cfg: Config, key: string)
    requires key in ADMISSION_KEYS[6..]
    ensures Effective(AdmissionPluginArgs(vpa, cfg), key) ==
            if key == KUBE_API_QPS then Default(vpa.admission.args, KUBE_API_QPS, "25.0")
            else if key == KUBE_API_BURST then Default(vpa.admission.args, KUBE_API_BURST, "50.0")
            else if key == MIN_TLS_VERSION then MinTlsVersion(cfg)
            else TlsCiphers(cfg)
  {
    AdmissionKeysDistinct();
    var qps, burst := Default(vpa.admission.args, KUBE_API_QPS, "25.0"),
      Default(vpa.admission.args, KUBE_API_BURST, "50.0");
    var a := FixedAdmissionArgs(cfg);
    var b := a + Optional(KUBE_API_QPS, qps);
    var c := b + Optional(KUBE_API_BURST, burst);
    var d := c + Optional(MIN_TLS_VERSION, MinTlsVersion(cfg));
    FixedAdmissionKeys(cfg);
    FixedLacks(a, key);
    EffectiveAbsent(a, key);
    EffectiveAppend(a, Optional(KUBE_API_QPS, qps), key);
    EffectiveAppend(b, Optional(KUBE_API_BURST, burst), key);
    EffectiveAppend(c, Optional(MIN_TLS_VERSION, MinTlsVersion(cfg)), key);
    EffectiveAppend(d, Optional(TLS_CIPHERS, TlsCiphers(cfg)), key);
    EffectiveOptional(KUBE_API_QPS, qps, key);
    EffectiveOptional(KUBE_API_BURST, burst, key);
    EffectiveOptional(MIN_TLS_VERSION, MinTlsVersion(cfg), key);
    EffectiveOptional(TLS_CIPHERS, TlsCiphers(cfg), key);
  }

  /** When no key occurs twice, every flag takes effect. */
  lemma {:induction false} DistinctEffective(args: seq<string>, i: nat, key: string, value: string)
    requires Distinct(FlagKeys(args)) && i < |args| && args[i] == Flag(key, value) && '=' !in key
    ensures Effective(args, key) == Some(value)
  {
    var n := |args| - 1;
    FlagParts(key, value);
    assert '=' in Flag(key, value) by {
      assert Flag(key, value)[|key|] == '=';
    }
    if i < n {
      assert FlagKeys(args)[n] != FlagKeys(args)[i];
      assert FlagKeys(args[..n]) == FlagKeys(args)[..n];
      DistinctEffective(args[..n], i, key, value);
    }
  }

  /** The generated settings of the admission plugin that are always there. */
  lemma AdmissionFiles(vpa: VpaSpec, cfg: Config)
    ensures Effective(AdmissionPluginArgs(vpa, cfg), "--tls-cert-file") == Some("/data/tls-certs/tls.crt")
    ensures Effective(AdmissionPluginArgs(vpa, cfg), "--tls-private-key") == Some("/data/tls-certs/tls.key")
    ensures Effective(AdmissionPluginArgs(vpa, cfg), "--client-ca-file") == Some("/data/tls-ca-certs/service-ca.crt")
    ensures Effective(AdmissionPluginArgs(vpa, cfg), "--webhook-timeout-seconds") == Some("10")
    ensures Effective(AdmissionPluginArgs(vpa, cfg), "--v") == Some(cfg.verbosity)
  {
    hide FlagKeys, Effective, MinTlsVersion, TlsCiphers, Default, Optional, Flag;
    var args := AdmissionPluginArgs(vpa, cfg);
    AdmissionArgsDistinct(vpa, cfg);
    AdmissionKeysDistinct();
    assert forall i :: 1 <= i < 6 ==> '=' !in ADMISSION_KEYS[i];
    DistinctEffective(args, 1, ADMISSION_KEYS[1], cfg.verbosity);
    DistinctEffective(args, 2, ADMISSION_KEYS[2], "/data/tls-certs/tls.crt");
    DistinctEffective(args, 3, ADMISSION_KEYS[3], "/data/tls-certs/tls.key");
    DistinctEffective(args, 4, ADMISSION_KEYS[4], "/data/tls-ca-certs/service-ca.crt");
    DistinctEffective(args, 5, ADMISSION_KEYS[5], "10");
  }

  const OPERAND_KEYS := [LOG_TO_STDERR, VERBOSITY, SAFETY_MARGIN_FRACTION, POD_MIN_CPU, POD_MIN_MEMORY, MIN_REPLICAS]

  lemma OperandKeysDistinct()
    ensures ProperKeys(OPERAND_KEYS)
  {
  }

  /** A bare flag and one with a value. */
  lemma BareAndValue(bare: string, v: string, value: string, key: string)
    requires '=' !in bare && '=' !in v && key != bare
    ensures Effective([bare, Flag(v, value)], key) == if key == v then Some(value) else None
  {
    hide Flag;
    assert [bare, Flag(v, value)] == [bare] + Optional(v, Some(value));
    EffectiveAppend([bare], Optional(v, Some(value)), key);
    EffectiveOptional(v, Some(value), key);
    NoEqualsIsKey(bare);
    EffectiveAbsent([bare], key);
  }

  lemma LoggingEffective(cfg: Config, key: string)
    requires key in OPERAND_KEYS[1..]
    ensures Effective([LOG_TO_STDERR, Flag(VERBOSITY, cfg.verbosity)], key) ==
      if key == VERBOSITY then Some(cfg.verbosity) else None
  {
    hide Effective, Flag;
    OperandKeysDistinct();
    assert OPERAND_KEYS[0] == LOG_TO_STDERR && OPERAND_KEYS[1] == VERBOSITY;
    BareAndValue(LOG_TO_STDERR, VERBOSITY, cfg.verbosity, key);
  }

  /** What the generated arguments of the recommender say: each number of the resource under its own key. */
  lemma RecommenderEffective(vpa: VpaSpec, cfg: Config, key: string)
    requires key in OPERAND_KEYS[1..]
    ensures Effective(RecommenderArgs(vpa, cfg), key) ==
            if key == VERBOSITY then Some(cfg.verbosity)
            else if key == SAFETY_MARGIN_FRACTION then vpa.safetyMarginFraction
            else if key == POD_MIN_CPU then vpa.podMinCpu
            else if key == POD_MIN_MEMORY then vpa.podMinMemory
            else None
  {
    hide Effective, Optional, Flag;
    OperandKeysDistinct();
    LoggingEffective(cfg, key);
    var a := [LOG_TO_STDERR, Flag(VERBOSITY, cfg.verbosity)];
    var b := a + Optional(SAFETY_MARGIN_FRACTION, vpa.safetyMarginFraction);
    var c := b + Optional(POD_MIN_CPU, vpa.podMinCpu);
    EffectiveAppend(a, Optional(SAFETY_MARGIN_FRACTION, vpa.safetyMarginFraction), key);
    EffectiveAppend(b, Optional(POD_MIN_CPU, vpa.podMinCpu), key);
    EffectiveAppend(c, Optional(POD_MIN_MEMORY, vpa.podMinMemory), key);
    EffectiveOptional(SAFETY_MARGIN_FRACTION, vpa.safetyMarginFraction, key);
    EffectiveOptional(POD_MIN_CPU, vpa.podMinCpu, key);
    EffectiveOptional(POD_MIN_MEMORY, vpa.podMinMemory, key);
  }

  lemma UpdaterEffective(vpa: VpaSpec, cfg: Config, key: string)
    requires key in OPERAND_KEYS[1..]
    ensures Effective(UpdaterArgs(vpa, cfg), key) ==
            if key == VERBOSITY then Some(cfg.verbosity) else if key == MIN_REPLICAS then vpa.minReplicas else None
  {
    hide Effective, Optional, Flag;
    OperandKeysDistinct();
    LoggingEffective(cfg, key);
    EffectiveAppend([LOG_TO_STDERR, Flag(VERBOSITY, cfg.verbosity)], Optional(MIN_REPLICAS, vpa.minReplicas), key);
    EffectiveOptional(MIN_REPLICAS, vpa.minReplicas, key);
  }
}
