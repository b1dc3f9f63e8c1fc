/**
 * `validate_config`: the ordered list of required settings a configuration
 * lacks, and whether it is valid.
 */
module ConfigValidation {
  import opened Wrappers
  import opened Settings

  /** The required settings, one per check the validator makes. */
  datatype Setting =
    | MongoHost
    | MongoPort
    | MongoDatabase
    | TargetDomains
    | EnumerationTool
    | NaabuPath
    | NucleiPath
    | Notifier

  /** The settings in the order they are checked. */
  const AllSettings: seq<Setting> :=
    [MongoHost, MongoPort, MongoDatabase, TargetDomains, EnumerationTool, NaabuPath, NucleiPath, Notifier]

  /** A setting's position in the check order. */
  function Rank(s: Setting): nat {
    match s
    case MongoHost => 0
    case MongoPort => 1
    case MongoDatabase => 2
    case TargetDomains => 3
    case EnumerationTool => 4
    case NaabuPath => 5
    case NucleiPath => 6
    case Notifier => 7
  }

  const HostLabel: string := "mongodb.host"
  const PortLabel: string := "mongodb.port"
  const DatabaseLabel: string := "mongodb.database"
  const DomainsLabel: string := "targets.domains"
  const EnumeratorLabel: string := "tools.subfinder or tools.assetfinder"
  const NaabuLabel: string := "tools.naabu"
  const NucleiLabel: string := "tools.nuclei"
  const NotifierLabel: string := "gmail credentials or discord.webhook_url"

  /** The name the validator reports for a missing setting. */
  function Label(s: Setting): string {
    match s
    case MongoHost => HostLabel
    case MongoPort => PortLabel
    case MongoDatabase => DatabaseLabel
    case TargetDomains => DomainsLabel
    case EnumerationTool => EnumeratorLabel
    case NaabuPath => NaabuLabel
    case NucleiPath => NucleiLabel
    case Notifier => NotifierLabel
  }

  /** What `validate_config` yields: a `TypeError`, or `(is_valid, missing_settings)`. */
  datatype Validation = TypeError | Verdict(isValid: bool, missing: seq<string>)

  /** Gmail needs both a username and a password. */
  predicate GmailConfigured(config: Config) {
    Truthy(Get(config, "gmail", "username")) && Truthy(Get(config, "gmail", "password"))
  }

  /** The condition under which the validator reports `s` as missing. */
  predicate Lacks(config: Config, s: Setting) {
    match s
    case MongoHost => !Truthy(Get(config, "mongodb", "host"))
    case MongoPort => !Truthy(Get(config, "mongodb", "port"))
    case MongoDatabase => !Truthy(Get(config, "mongodb", "database"))
    case TargetDomains => !Truthy(Get(config, "targets", "domains"))
    case EnumerationTool =>
      !Truthy(Get(config, "tools", "subfinder")) && !Truthy(Get(config, "tools", "assetfinder"))
    case NaabuPath => !Truthy(Get(config, "tools", "naabu"))
    case NucleiPath => !Truthy(Get(config, "tools", "nuclei"))
    case Notifier => !GmailConfigured(config) && !Truthy(Get(config, "discord", "webhook_url"))
  }

  /**
   * A truthy `targets.domains` that has no length (a number or `true`) makes
   * the `len` call raise `TypeError`.
   */
  predicate DomainsUnsized(config: Config) {
    var domains := Get(config, "targets", "domains");
    Truthy(domains) && !HasLength(domains)
  }

  /** The settings of `settings` that the configuration lacks, in order. */
  function MissingSettings(config: Config, settings: seq<Setting>): (r: seq<Setting>)
    ensures |r| <= |settings|
    ensures forall s :: s in r <==> s in settings && Lacks(config, s)
  {
    if settings == [] then []
    else
      var last := settings[|settings| - 1];
      var prev := MissingSettings(config, settings[..|settings| - 1]);
      assert settings == settings[..|settings| - 1] + [last];
      if Lacks(config, last) then prev + [last] else prev
  }

  /** The labels of a list of settings. */
  function Labels(settings: seq<Setting>): (r: seq<string>)
    ensures |r| == |settings|
    ensures forall k :: 0 <= k < |settings| ==> r[k] == Label(settings[k])
  {
    seq(|settings|, k requires 0 <= k < |settings| => Label(settings[k]))
  }

  /** What checking `s` appends to the list of missing settings. */
  function Reported(config: Config, s: Setting): (r: seq<string>)
    ensures r == [] || r == [Label(s)]
    ensures r != [] <==> Lacks(config, s)
  {
    if Lacks(config, s) then [Label(s)] else []
  }

  /** Checking one more setting appends its label when it is lacking. */
  lemma MissingLabelsSnoc(config: Config, settings: seq<Setting>, s: Setting)
    ensures Labels(MissingSettings(config, settings + [s]))
      == Labels(MissingSettings(config, settings)) + Reported(config, s)
  {
    var before := MissingSettings(config, settings);
    assert (settings + [s])[..|settings|] == settings;
    if Lacks(config, s) {
      assert MissingSettings(config, settings + [s]) == before + [s];
      LabelsAppend(before, s);
    } else {
      assert MissingSettings(config, settings + [s]) == before;
    }
  }

  /** The labels of one more setting end with its label. */
  lemma LabelsAppend(settings: seq<Setting>, s: Setting)
    ensures Labels(settings + [s]) == Labels(settings) + [Label(s)]
  {
  }

  /** Settings strictly in check order. */
  predicate InCheckOrder(settings: seq<Setting>) {
    forall i, j :: 0 <= i < j < |settings| ==> Rank(settings[i]) < Rank(settings[j])
  }

  /** The missing settings keep the check order. */
  lemma {:induction false} MissingInCheckOrder(config: Config, settings: seq<Setting>)
    requires InCheckOrder(settings)
    ensures InCheckOrder(MissingSettings(config, settings))
  {
    if settings != [] {
      var front := settings[..|settings| - 1];
      var last := settings[|settings| - 1];
      assert InCheckOrder(front);
      MissingInCheckOrder(config, front);
      var prev := MissingSettings(config, front);
      forall i | 0 <= i < |prev| ensures Rank(prev[i]) < Rank(last) {
        assert prev[i] in prev;
        var k :| 0 <= k < |front| && front[k] == prev[i];
        assert settings[k] == prev[i];
      }
    }
  }

  /** Different settings are reported under different names. */
  lemma LabelInjective(a: Setting, b: Setting)
    requires a != b
    ensures Label(a) != Label(b)
  {
    if |Label(a)| == |Label(b)| {
      assert Label(a)[0] != Label(b)[0] || Label(a)[8] != Label(b)[8];
    }
  }

  /** Each prefix of a sequence is the one before it plus one element. */
  lemma PrefixSteps<T>(all: seq<T>)
    requires |all| == 8
    ensures all[..1] == [] + [all[0]]
    ensures forall k :: 1 <= k < 8 ==> all[..k + 1] == all[..k] + [all[k]]
    ensures all == all[..8]
  {
    forall k | 1 <= k < 8 ensures all[..k + 1] == all[..k] + [all[k]] {
    }
  }

  /** Eight checks in a row report in order. */
  lemma MissingOfEight(config: Config, all: seq<Setting>)
    requires |all| == 8
    ensures Labels(MissingSettings(config, all))
      == Reported(config, all[0]) + Reported(config, all[1]) + Reported(config, all[2])
       + Reported(config, all[3]) + Reported(config, all[4]) + Reported(config, all[5])
       + Reported(config, all[6]) + Reported(config, all[7])
  {
    PrefixSteps(all);
    MissingLabelsSnoc(config, [], all[0]);
    assert [] + Reported(config, all[0]) == Reported(config, all[0]);
    MissingLabelsSnoc(config, all[..1], all[1]);
    MissingLabelsSnoc(config, all[..2], all[2]);
    MissingLabelsSnoc(config, all[..3], all[3]);
    MissingLabelsSnoc(config, all[..4], all[4]);
    MissingLabelsSnoc(config, all[..5], all[5]);
    MissingLabelsSnoc(config, all[..6], all[6]);
    MissingLabelsSnoc(config, all[..7], all[7]);
  }

  /** The whole list of missing settings is each check's report, in order. */
  lemma MissingByCheck(config: Config)
    ensures Labels(MissingSettings(config, AllSettings))
      == Reported(config, MongoHost) + Reported(config, MongoPort) + Reported(config, MongoDatabase)
       + Reported(config, TargetDomains) + Reported(config, EnumerationTool) + Reported(config, NaabuPath)
       + Reported(config, NucleiPath) + Reported(config, Notifier)
  {
    MissingOfEight(config, AllSettings);
  }

  /** One of the validator's checks other than the `targets.domains` one. */
  method Check(config: Config, s: Setting) returns (r: seq<string>)
    requires s != TargetDomains
    ensures r == Reported(config, s)
  {
    var lacking: bool;
    match s {
      case MongoHost => lacking := !Truthy(Lookup(SectionOf(config, "mongodb"), "host"));
      case MongoPort => lacking := !Truthy(Lookup(SectionOf(config, "mongodb"), "port"));
      case MongoDatabase => lacking := !Truthy(Lookup(SectionOf(config, "mongodb"), "database"));
      case EnumerationTool =>
        var tools := SectionOf(config, "tools");
        lacking := !Truthy(Lookup(tools, "subfinder")) && !Truthy(Lookup(tools, "assetfinder"));
      case NaabuPath => lacking := !Truthy(Lookup(SectionOf(config, "tools"), "naabu"));
      case NucleiPath => lacking := !Truthy(Lookup(SectionOf(config, "tools"), "nuclei"));
      case Notifier =>
        var gmail := SectionOf(config, "gmail");
        lacking := (!Truthy(Lookup(gmail, "username")) || !Truthy(Lookup(gmail, "password")))
          && !Truthy(Lookup(SectionOf(config, "discord"), "webhook_url"));
    }
    r := if lacking then [Label(s)] else [];
  }

  /**
   * `validate_config`: the checks run in a fixed order, each appending the
   * name of what is missing; `len` on a truthy `targets.domains` without a
   * length raises `TypeError`.
   */
  method ValidateConfig(config: Config) returns (v: Validation)
    ensures v.TypeError? <==> DomainsUnsized(config)
    ensures v.Verdict? ==> v.missing == Labels(MissingSettings(config, AllSettings))
    ensures v.Verdict? ==> (v.isValid <==> v.missing == [])
  {
    var missing: seq<string> := [];
    var report := Check(config, MongoHost);
    missing := missing + report;
    assert missing == Reported(config, MongoHost);
    report := Check(config, MongoPort);
    missing := missing + report;
    report := Check(config, MongoDatabase);
    missing := missing + report;
    var domains := Lookup(SectionOf(config, "targets"), "domains");
    ghost var before := missing;
    if !Truthy(domains) {
      missing := missing + [DomainsLabel];
    } else if !HasLength(domains) {
      return TypeError;
    } else {
      assert missing == before + [];
    }
    assert missing == before + Reported(config, TargetDomains);
    report := Check(config, EnumerationTool);
    missing := missing + report;
    report := Check(config, NaabuPath);
    missing := missing + report;
    report := Check(config, NucleiPath);
    missing := missing + report;
    report := Check(config, Notifier);
    missing := missing + report;
    MissingByCheck(config);
    if missing != [] {
      v := Verdict(false, missing);
    } else {
      v := Verdict(true, []);
    }
  }

  /** Every setting is checked. */
  lemma EverySettingChecked(s: Setting)
    ensures AllSettings[Rank(s)] == s
  {
  }

  /** A setting is reported exactly when the configuration lacks it. */
  lemma MissingReportsExactly(config: Config, s: Setting)
    ensures Label(s) in Labels(MissingSettings(config, AllSettings)) <==> Lacks(config, s)
  {
    var r := MissingSettings(config, AllSettings);
    if Lacks(config, s) {
      EverySettingChecked(s);
      var k :| 0 <= k < |r| && r[k] == s;
      assert Labels(r)[k] == Label(s);
    }
    if Label(s) in Labels(r) {
      var k :| 0 <= k < |r| && Labels(r)[k] == Label(s);
      if r[k] != s {
        LabelInjective(r[k], s);
      }
    }
  }

  /** No setting is reported twice, and at most every setting is reported. */
  lemma MissingDistinct(config: Config)
    ensures Distinct(Labels(MissingSettings(config, AllSettings)))
    ensures |Labels(MissingSettings(config, AllSettings))| <= |AllSettings|
  {
    AllSettingsInCheckOrder();
    MissingInCheckOrder(config, AllSettings);
    OrderedLabelsDistinct(MissingSettings(config, AllSettings));
  }

  /** The checks run in rank order. */
  lemma AllSettingsInCheckOrder()
    ensures InCheckOrder(AllSettings)
  {
    forall i, j | 0 <= i < j < |AllSettings|
      ensures Rank(AllSettings[i]) < Rank(AllSettings[j])
    {
      EverySettingChecked(AllSettings[i]);
      EverySettingChecked(AllSettings[j]);
    }
  }

  /** Settings in check order are reported under distinct names. */
  lemma OrderedLabelsDistinct(settings: seq<Setting>)
    requires InCheckOrder(settings)
    ensures Distinct(Labels(settings))
  {
    forall i, j | 0 <= i < j < |settings| ensures Labels(settings)[i] != Labels(settings)[j] {
      LabelInjective(settings[i], settings[j]);
    }
  }

  /** A configuration that lacks nothing is valid. */
  lemma ValidWhenNothingLacks(config: Config)
    ensures Labels(MissingSettings(config, AllSettings)) == [] <==> forall s :: !Lacks(config, s)
  {
    var r := MissingSettings(config, AllSettings);
    if r != [] {
      assert Lacks(config, r[0]) by {
        assert r[0] in r;
      }
    }
    if exists s :: Lacks(config, s) {
      var s :| Lacks(config, s);
      EverySettingChecked(s);
      assert s in r;
    }
  }

  /** The validator's own test configuration (shortened string values). */
  const TestConfig: Config := map[
    "mongodb" := map["host" := Str("localhost"), "port" := Str("27017"), "database" := Str("recon")],
    "targets" := map["domains" := Items([Str("example.com"), Str("example.org")])],
    "tools" := map["subfinder" := Str("subfinder"), "assetfinder" := Str("assetfinder"),
                   "naabu" := Str("naabu"), "nuclei" := Str("nuclei")],
    "gmail" := map["username" := Str("user"), "password" := Str("secret")],
    "discord" := map["webhook_url" := Str("hook")]
  ]

  /** The test configuration has every setting. */
  lemma TestConfigComplete(s: Setting)
    ensures !Lacks(TestConfig, s)
  {
  }

  /** The complete configuration is valid and reports nothing. */
  lemma TestConfigValid()
    ensures !DomainsUnsized(TestConfig)
    ensures Labels(MissingSettings(TestConfig, AllSettings)) == []
  {
    forall s ensures !Lacks(TestConfig, s) {
      TestConfigComplete(s);
    }
    ValidWhenNothingLacks(TestConfig);
  }

  /** A configuration holding only `mongodb.host`. */
  const HostOnlyConfig: Config := map["mongodb" := map["host" := Str("localhost")]]

  /** Everything but the host is lacking. */
  lemma HostOnlyLacks(s: Setting)
    ensures Lacks(HostOnlyConfig, s) <==> s != MongoHost
  {
  }

  /**
   * A configuration with only `mongodb.host` is invalid: the seven other
   * settings are reported, and only they.
   */
  lemma HostOnlyConfigInvalid()
    ensures |Labels(MissingSettings(HostOnlyConfig, AllSettings))| == 7
    ensures forall s :: Label(s) in Labels(MissingSettings(HostOnlyConfig, AllSettings)) <==> s != MongoHost
  {
    forall s ensures Label(s) in Labels(MissingSettings(HostOnlyConfig, AllSettings)) <==> s != MongoHost {
      HostOnlyLacks(s);
      MissingReportsExactly(HostOnlyConfig, s);
    }
    MissingOfEight(HostOnlyConfig, AllSettings);
    HostOnlyLacks(MongoHost);
    HostOnlyLacks(MongoPort);
    HostOnlyLacks(MongoDatabase);
    HostOnlyLacks(TargetDomains);
    HostOnlyLacks(EnumerationTool);
    HostOnlyLacks(NaabuPath);
    HostOnlyLacks(NucleiPath);
    HostOnlyLacks(Notifier);
  }
}
