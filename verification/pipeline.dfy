/**
 * The driver `main`: load the configuration, apply the `--domains` override,
 * validate, connect to the database, then run the selected stages in order,
 * gating each on the previous stage's result and on the `--module` choice.
 */
module Pipeline {
  import opened Wrappers
  import opened Settings
  import opened ConfigValidation

  /** The `--module` argument. */
  datatype ModuleChoice = All | SubdomainOnly | HostOnly | ScanOnly | NotifyOnly

  /** The four stages, in the order the driver tries them. */
  datatype Stage = Subdomain | Host | Scan | Notify

  const Stages: seq<Stage> := [Subdomain, Host, Scan, Notify]

  /** A stage's position in the driver. */
  function StageRank(s: Stage): nat {
    match s
    case Subdomain => 0
    case Host => 1
    case Scan => 2
    case Notify => 3
  }

  /** The `--module` value that selects only `s`. */
  function Only(s: Stage): ModuleChoice {
    match s
    case Subdomain => SubdomainOnly
    case Host => HostOnly
    case Scan => ScanOnly
    case Notify => NotifyOnly
  }

  /**
   * What a stage call did: it raised, or it returned a result whose list
   * (`new_subdomains`, `new_hosts`, `vulnerabilities`) is empty or not.
   */
  datatype Outcome = Raised | Returned(nonEmpty: bool)

  /** The `run_subdomain` … `run_notify` flags. */
  predicate Selected(m: ModuleChoice, s: Stage) {
    m == All || m == Only(s)
  }

  /**
   * Whether the driver calls stage `s`; `upstream` is the previous stage's
   * entry in `results`: `None`, or a result whose list is non-empty or not.
   */
  predicate Attempted(m: ModuleChoice, s: Stage, upstream: Option<bool>) {
    Selected(m, s) && (s == Subdomain || m == All || upstream == Some(true))
  }

  /**
   * How far the driver got: the stages called so far with what each did, the
   * last stage's entry in `results`, and whether it has exited with status 1.
   */
  datatype Progress = Progress(attempted: seq<Stage>, outcomes: seq<Outcome>, upstream: Option<bool>, exited: bool)

  const Start: Progress := Progress([], [], None, false)

  /**
   * What a stage call does. Sending notifications with no scan result calls
   * `.get` on `None`, which raises.
   */
  function Effective(outcome: Stage -> Outcome, s: Stage, upstream: Option<bool>): (o: Outcome)
    ensures s != Notify || upstream.Some? ==> o == outcome(s)
    ensures s == Notify && upstream.None? ==> o == Raised
  {
    if s == Notify && upstream.None? then Raised else outcome(s)
  }

  /** The driver's handling of one stage. */
  function Step(m: ModuleChoice, outcome: Stage -> Outcome, p: Progress, s: Stage): Progress {
    if p.exited then p
    else if !Attempted(m, s, p.upstream) then Progress(p.attempted, p.outcomes, None, false)
    else
      var o := Effective(outcome, s, p.upstream);
      match o
      case Raised => Progress(p.attempted + [s], p.outcomes + [o], None, m != All)
      case Returned(nonEmpty) => Progress(p.attempted + [s], p.outcomes + [o], Some(nonEmpty), false)
  }

  /** The driver's handling of `stages`, one after the other. */
  function DriveFrom(m: ModuleChoice, outcome: Stage -> Outcome, stages: seq<Stage>): Progress {
    if stages == [] then Start
    else Step(m, outcome, DriveFrom(m, outcome, stages[..|stages| - 1]), stages[|stages| - 1])
  }

  /** The driver's handling of the four stages. */
  function Drive(m: ModuleChoice, outcome: Stage -> Outcome): Progress {
    DriveFrom(m, outcome, Stages)
  }

  /** The driver's handling of the four stages, one step at a time. */
  lemma DriveUnfolds(m: ModuleChoice, outcome: Stage -> Outcome)
    ensures Drive(m, outcome)
      == Step(m, outcome, Step(m, outcome, Step(m, outcome, Step(m, outcome, Start, Subdomain), Host), Scan), Notify)
  {
    var p1 := Step(m, outcome, Start, Subdomain);
    var p2 := Step(m, outcome, p1, Host);
    var p3 := Step(m, outcome, p2, Scan);
    assert DriveFrom(m, outcome, [Subdomain]) == p1 by {
      assert [Subdomain][..0] == [];
    }
    assert DriveFrom(m, outcome, [Subdomain, Host]) == p2 by {
      assert [Subdomain, Host][..1] == [Subdomain];
    }
    assert DriveFrom(m, outcome, [Subdomain, Host, Scan]) == p3 by {
      assert [Subdomain, Host, Scan][..2] == [Subdomain, Host];
    }
    assert Stages[..3] == [Subdomain, Host, Scan];
  }

  /** Stages strictly in driver order. */
  predicate InStageOrder(stages: seq<Stage>) {
    forall i, j :: 0 <= i < j < |stages| ==> StageRank(stages[i]) < StageRank(stages[j])
  }

  /** One step calls the stage or not, and records one outcome per call. */
  lemma StepExtends(m: ModuleChoice, outcome: Stage -> Outcome, p: Progress, s: Stage)
    ensures Step(m, outcome, p, s).attempted in {p.attempted, p.attempted + [s]}
    ensures |Step(m, outcome, p, s).outcomes| - |Step(m, outcome, p, s).attempted| == |p.outcomes| - |p.attempted|
  {
  }

  /**
   * The stages called are some of those offered, in the same order, each at
   * most once, with one outcome per call.
   */
  lemma {:induction false} AttemptedInOrder(m: ModuleChoice, outcome: Stage -> Outcome, stages: seq<Stage>)
    requires InStageOrder(stages)
    ensures InStageOrder(DriveFrom(m, outcome, stages).attempted)
    ensures forall s :: s in DriveFrom(m, outcome, stages).attempted ==> s in stages
    ensures |DriveFrom(m, outcome, stages).outcomes| == |DriveFrom(m, outcome, stages).attempted|
  {
    if stages != [] {
      var front := stages[..|stages| - 1];
      var last := stages[|stages| - 1];
      assert InStageOrder(front);
      AttemptedInOrder(m, outcome, front);
      var prev := DriveFrom(m, outcome, front);
      StepExtends(m, outcome, prev, last);
      forall i | 0 <= i < |prev.attempted| ensures StageRank(prev.attempted[i]) < StageRank(last) {
        assert prev.attempted[i] in prev.attempted;
        var k :| 0 <= k < |front| && front[k] == prev.attempted[i];
        assert stages[k] == prev.attempted[i];
      }
    }
  }

  /** The driver calls each stage at most once, in the fixed order. */
  lemma DriveOrder(m: ModuleChoice, outcome: Stage -> Outcome)
    ensures InStageOrder(Drive(m, outcome).attempted)
    ensures Distinct(Drive(m, outcome).attempted)
    ensures |Drive(m, outcome).outcomes| == |Drive(m, outcome).attempted|
  {
    AttemptedInOrder(m, outcome, Stages);
    var a := Drive(m, outcome).attempted;
    forall i, j | 0 <= i < j < |a| ensures a[i] != a[j] {
      assert StageRank(a[i]) < StageRank(a[j]);
    }
  }

  /**
   * In run-all mode every stage offered is called, whatever the earlier ones
   * did, and the driver never exits early.
   */
  lemma {:induction false} RunAllCallsEverything(outcome: Stage -> Outcome, stages: seq<Stage>)
    ensures DriveFrom(All, outcome, stages).attempted == stages
    ensures !DriveFrom(All, outcome, stages).exited
  {
    if stages != [] {
      RunAllCallsEverything(outcome, stages[..|stages| - 1]);
      assert stages[..|stages| - 1] + [stages[|stages| - 1]] == stages;
    }
  }

  /**
   * Run-all mode calls the four stages in order; a scan that raised leaves
   * no scan result, so sending notifications raises too.
   */
  lemma RunAllOutcomes(outcome: Stage -> Outcome)
    ensures Drive(All, outcome).attempted == Stages
    ensures !Drive(All, outcome).exited
    ensures Drive(All, outcome).outcomes
      == [outcome(Subdomain), outcome(Host), outcome(Scan), if outcome(Scan).Raised? then Raised else outcome(Notify)]
  {
    DriveUnfolds(All, outcome);
    var p1 := Step(All, outcome, Start, Subdomain);
    RunAllStep(outcome, Start, Subdomain);
    var p2 := Step(All, outcome, p1, Host);
    RunAllStep(outcome, p1, Host);
    var p3 := Step(All, outcome, p2, Scan);
    RunAllStep(outcome, p2, Scan);
    RunAllStep(outcome, p3, Notify);
  }

  /** In run-all mode a step always calls its stage and never exits. */
  lemma RunAllStep(outcome: Stage -> Outcome, p: Progress, s: Stage)
    requires !p.exited
    ensures var q := Step(All, outcome, p, s);
      var o := Effective(outcome, s, p.upstream);
      && !q.exited
      && q.attempted == p.attempted + [s]
      && q.outcomes == p.outcomes + [o]
      && q.upstream == (if o.Raised? then None else Some(o.nonEmpty))
  {
  }

  /**
   * With `--module` host, scan or notify, the stage before the chosen one is
   * never run, so its result stays `None` and the chosen stage is never called.
   */
  lemma {:induction false} SingleLaterStageNeverRuns(m: ModuleChoice, outcome: Stage -> Outcome, stages: seq<Stage>)
    requires m != All && m != SubdomainOnly
    ensures DriveFrom(m, outcome, stages) == Start
  {
    if stages != [] {
      SingleLaterStageNeverRuns(m, outcome, stages[..|stages| - 1]);
      assert !Attempted(m, stages[|stages| - 1], None);
    }
  }

  /**
   * With `--module subdomain` only the first stage is called, and the driver
   * exits with status 1 exactly when it raised.
   */
  lemma SubdomainOnlyRun(outcome: Stage -> Outcome)
    ensures Drive(SubdomainOnly, outcome).attempted == [Subdomain]
    ensures Drive(SubdomainOnly, outcome).outcomes == [outcome(Subdomain)]
    ensures Drive(SubdomainOnly, outcome).exited <==> outcome(Subdomain).Raised?
  {
    DriveUnfolds(SubdomainOnly, outcome);
  }

  /** The `--domains` override: `targets.domains` becomes the given list. */
  function OverrideDomains(config: Config, domains: seq<string>): (c: Config)
    ensures "targets" in c && "domains" in c["targets"]
    ensures c["targets"]["domains"] == Items(seq(|domains|, k requires 0 <= k < |domains| => Str(domains[k])))
    ensures forall name :: name in config && name != "targets" ==> name in c && c[name] == config[name]
    ensures "targets" in config ==>
      forall key :: key in config["targets"] && key != "domains" ==> key in c["targets"] && c["targets"][key] == config["targets"][key]
    ensures c.Keys == config.Keys + {"targets"}
  {
    var targets := SectionOf(config, "targets");
    config["targets" := targets["domains" := Items(seq(|domains|, k requires 0 <= k < |domains| => Str(domains[k])))]]
  }

  /**
   * A non-empty override leaves `targets.domains` present and sized, so the
   * validator neither raises nor reports it.
   */
  lemma OverrideSatisfiesDomains(config: Config, domains: seq<string>)
    requires domains != []
    ensures !DomainsUnsized(OverrideDomains(config, domains))
    ensures !Lacks(OverrideDomains(config, domains), TargetDomains)
  {
    var c := OverrideDomains(config, domains);
    assert Get(c, "targets", "domains") == c["targets"]["domains"];
  }

  /** How the driver ends. */
  datatype Exit =
    | Completed          // the summary is logged and `main` returns
    | ExitCode(code: int) // `sys.exit(code)`
    | Crashed            // the `TypeError` from validation is not caught

  /** What happens before any stage: the checks on configuration and database. */
  datatype Preflight = NoConfig | Unsized | Incomplete | NoDatabase | Ready(config: Config)

  /** A loaded configuration is usable when it is present and not empty. */
  predicate Loaded(loaded: Option<Config>) {
    loaded.Some? && loaded.value != map[]
  }

  /** The configuration the validator sees: the override applies when domains were given. */
  function ConfigInUse(loaded: Config, domains: seq<string>): Config {
    if domains != [] then OverrideDomains(loaded, domains) else loaded
  }

  /**
   * The checks before any stage, in order: a configuration was loaded, the
   * (overridden) configuration validates without raising and lacks nothing,
   * and the database client exists.
   */
  function PreflightOf(loaded: Option<Config>, domains: seq<string>, dbConnects: bool): Preflight {
    if !Loaded(loaded) then NoConfig
    else
      var config := ConfigInUse(loaded.value, domains);
      if DomainsUnsized(config) then Unsized
      else if MissingSettings(config, AllSettings) != [] then Incomplete
      else if !dbConnects then NoDatabase
      else Ready(config)
  }

  /**
   * The database is consulted only for a loaded configuration that validated:
   * every other verdict is the same with or without a database.
   */
  lemma DatabaseCheckedLast(loaded: Option<Config>, domains: seq<string>)
    ensures PreflightOf(loaded, domains, false) == NoDatabase <==> PreflightOf(loaded, domains, true).Ready?
    ensures PreflightOf(loaded, domains, false) != NoDatabase
      ==> PreflightOf(loaded, domains, false) == PreflightOf(loaded, domains, true)
    ensures PreflightOf(loaded, domains, true).Ready?
      ==> forall s :: !Lacks(PreflightOf(loaded, domains, true).config, s)
  {
    if PreflightOf(loaded, domains, true).Ready? {
      ValidWhenNothingLacks(PreflightOf(loaded, domains, true).config);
    }
  }

  /** With `--domains` given, validation never raises. */
  lemma OverrideNeverUnsized(loaded: Option<Config>, domains: seq<string>, dbConnects: bool)
    requires domains != []
    ensures PreflightOf(loaded, domains, dbConnects) != Unsized
  {
    if Loaded(loaded) {
      OverrideSatisfiesDomains(loaded.value, domains);
    }
  }

  /**
   * The stage section of `main`: the `run_*` flags, the `results` entries of
   * the first three stages, and each stage gated on its flag and, outside
   * run-all mode, on the previous result's list being non-empty. A stage that
   * raises ends the driver with status 1 unless every stage was selected.
   */
  method RunStages(choice: ModuleChoice, outcome: Stage -> Outcome)
    returns (exited: bool, attempted: seq<Stage>, outcomes: seq<Outcome>)
    ensures attempted == Drive(choice, outcome).attempted
    ensures outcomes == Drive(choice, outcome).outcomes
    ensures exited == Drive(choice, outcome).exited
  {
    DriveUnfolds(choice, outcome);
    var runAll := choice == All;
    var runSubdomain := runAll || choice == SubdomainOnly;
    var runHost := runAll || choice == HostOnly;
    var runScan := runAll || choice == ScanOnly;
    var runNotify := runAll || choice == NotifyOnly;
    var subdomainResult: Option<bool> := None;
    var hostResult: Option<bool> := None;
    var scanResult: Option<bool> := None;
    exited, attempted, outcomes := false, [], [];

    if runSubdomain {
      attempted := attempted + [Subdomain];
      var o := outcome(Subdomain);
      outcomes := outcomes + [o];
      if o.Raised? {
        if !runAll {
          exited := true;
          return;
        }
      } else {
        subdomainResult := Some(o.nonEmpty);
      }
    }

    if runHost && (runAll || subdomainResult == Some(true)) {
      attempted := attempted + [Host];
      var o := outcome(Host);
      outcomes := outcomes + [o];
      if o.Raised? {
        if !runAll {
          exited := true;
          return;
        }
      } else {
        hostResult := Some(o.nonEmpty);
      }
    }

    if runScan && (runAll || hostResult == Some(true)) {
      attempted := attempted + [Scan];
      var o := outcome(Scan);
      outcomes := outcomes + [o];
      if o.Raised? {
        if !runAll {
          exited := true;
          return;
        }
      } else {
        scanResult := Some(o.nonEmpty);
      }
    }

    if runNotify && (runAll || scanResult == Some(true)) {
      attempted := attempted + [Notify];
      var o := if scanResult.None? then Raised else outcome(Notify);
      outcomes := outcomes + [o];
      if o.Raised? && !runAll {
        exited := true;
        return;
      }
    }
  }

  /**
   * `main`: exits with status 1 when no configuration was loaded, when the
   * configuration lacks a setting, or when there is no database; crashes when
   * validation raises; otherwise runs the stages.
   */
  method Launch(loaded: Option<Config>, domains: seq<string>, choice: ModuleChoice, dbConnects: bool,
              outcome: Stage -> Outcome)
    returns (exit: Exit, attempted: seq<Stage>, outcomes: seq<Outcome>)
    ensures exit == Crashed <==> PreflightOf(loaded, domains, dbConnects) == Unsized
    ensures !PreflightOf(loaded, domains, dbConnects).Ready? ==> attempted == [] && outcomes == []
    ensures !PreflightOf(loaded, domains, dbConnects).Ready? && exit != Crashed ==> exit == ExitCode(1)
    ensures PreflightOf(loaded, domains, dbConnects).Ready? ==>
      && attempted == Drive(choice, outcome).attempted
      && outcomes == Drive(choice, outcome).outcomes
      && exit == (if Drive(choice, outcome).exited then ExitCode(1) else Completed)
  {
    if loaded.None? || loaded.value == map[] {
      return ExitCode(1), [], [];
    }
    var config := loaded.value;
    if domains != [] {
      config := OverrideDomains(config, domains);
    }
    var v := ValidateConfig(config);
    if v.TypeError? {
      return Crashed, [], [];
    }
    if !v.isValid {
      return ExitCode(1), [], [];
    }
    if !dbConnects {
      return ExitCode(1), [], [];
    }
    var exited;
    exited, attempted, outcomes := RunStages(choice, outcome);
    exit := if exited then ExitCode(1) else Completed;
  }
}
