/**
 * `steamvr_utils`: the orchestrator. It turns the base stations and the audio routing on and off
 * around a SteamVR session, dispatches the command-line action, and selects the base-station
 * interface the configuration names.
 */
module Orchestrator {
  import opened Wrappers
  import opened Config
  import opened Pactl
  import opened Rerouting
  import opened LegacySwitching
  import BS = BaseStations

  /** `SteamvrUtils.Action`, in declaration order. */
  datatype Action = TurnOnAction | TurnOffAction | DaemonAction | ConfigHelpAction

  /** The members of `SteamvrUtils.Action` in the order Python iterates over them. */
  const Actions: seq<Action> := [TurnOnAction, TurnOffAction, DaemonAction, ConfigHelpAction]

  /** The command-line keywords of each action. */
  function Keywords(a: Action): (r: seq<string>)
    ensures |r| == 2
  {
    match a
    case TurnOnAction => ["on", "1"]
    case TurnOffAction => ["off", "0"]
    case DaemonAction => ["daemon", "d"]
    case ConfigHelpAction => ["config-help", "c"]
  }

  /** The action of the last member of `actions` whose keywords contain `keyword`. */
  function LastMatch(actions: seq<Action>, keyword: string): Option<Action>
  {
    if actions == [] then None
    else if keyword in Keywords(actions[|actions| - 1]) then Some(actions[|actions| - 1])
    else LastMatch(actions[..|actions| - 1], keyword)
  }

  /** No keyword belongs to two actions. */
  lemma {:induction false} KeywordsDisjoint(a: Action, b: Action, keyword: string)
    requires keyword in Keywords(a) && keyword in Keywords(b)
    ensures a == b
  {
    assert Keywords(a)[0] != Keywords(b)[0] || a == b;
  }

  /** Among actions whose keywords are disjoint, the last match is the one action naming the keyword. */
  lemma {:induction false} LastMatchIsOnly(actions: seq<Action>, keyword: string)
    ensures LastMatch(actions, keyword).Some? <==> exists i :: 0 <= i < |actions| && keyword in Keywords(actions[i])
    ensures forall a :: LastMatch(actions, keyword) == Some(a) ==> a in actions && keyword in Keywords(a)
    decreases |actions|
  {
    if actions != [] {
      var init := actions[..|actions| - 1];
      LastMatchIsOnly(init, keyword);
      if exists i :: 0 <= i < |actions| && keyword in Keywords(actions[i]) {
        var i :| 0 <= i < |actions| && keyword in Keywords(actions[i]);
        assert i < |actions| - 1 ==> init[i] == actions[i];
      }
    }
  }

  /**
   * The keyword selection in `main`: the action whose keyword list holds `keyword`, `None` when
   * there is none. Since the keyword lists are disjoint, it does not matter that the last match
   * wins.
   */
  lemma {:induction false} SelectionMeaning(keyword: string, a: Action)
    ensures LastMatch(Actions, keyword) == Some(a) <==> keyword in Keywords(a)
    ensures LastMatch(Actions, keyword).None? <==> forall b :: keyword !in Keywords(b)
  {
    LastMatchIsOnly(Actions, keyword);
    if keyword in Keywords(a) {
      var i := match a case TurnOnAction => 0 case TurnOffAction => 1 case DaemonAction => 2 case ConfigHelpAction => 3;
      assert Actions[i] == a;
      var b := LastMatch(Actions, keyword).value;
      KeywordsDisjoint(a, b, keyword);
    }
    if LastMatch(Actions, keyword).None? {
      forall b | true
        ensures keyword !in Keywords(b)
      {
        var i := match b case TurnOnAction => 0 case TurnOffAction => 1 case DaemonAction => 2 case ConfigHelpAction => 3;
        assert Actions[i] == b;
      }
    }
  }

  /** `for action in SteamvrUtils.Action: if args.action in actions[action]: selected_action = action`. */
  method SelectAction(keyword: string) returns (selected: Option<Action>)
    ensures selected == LastMatch(Actions, keyword)
  {
    selected := None;
    for i := 0 to |Actions|
      invariant selected == LastMatch(Actions[..i], keyword)
    {
      assert Actions[..i + 1][..i] == Actions[..i];
      if keyword in Keywords(Actions[i]) {
        selected := Some(Actions[i]);
      }
    }
    assert Actions[..|Actions|] == Actions;
  }

  /** The base-station interfaces `config.basestation_type()` selects. */
  datatype Kind = V1Kind | V2Kind | CmdKind

  /** What the orchestrator raises. */
  datatype OrchestratorError =
    | NotImplemented
    | Misconfigured(cause: ConfigError)
    | PowerFailed(power: BS.PowerError)
    | AudioFailed(audio: LegacyError)

  /** The interface `__init__` builds for a base-station type; any other type raises. */
  function KindFor(basestationType: string): (r: Result<Kind, OrchestratorError>)
    ensures r == Success(V1Kind) <==> basestationType == "v1"
    ensures r == Success(V2Kind) <==> basestationType == "v2"
    ensures r == Success(CmdKind) <==> basestationType == "cmd"
    ensures r.Failure? <==> basestationType !in {"v1", "v2", "cmd"}
    ensures r.Failure? ==> r.error == NotImplemented
  {
    if basestationType == "v1" then Success(V1Kind)
    else if basestationType == "v2" then Success(V2Kind)
    else if basestationType == "cmd" then Success(CmdKind)
    else Failure(NotImplemented)
  }

  /** What `action` does with a selected action. */
  datatype Operation = SwitchOn | SwitchOff | RunDaemon

  /** `action`: ON, OFF and DAEMON are carried out; anything else, CONFIG_HELP included, raises. */
  function Dispatch(selected: Option<Action>): (r: Result<Operation, OrchestratorError>)
    ensures r == Success(SwitchOn) <==> selected == Some(TurnOnAction)
    ensures r == Success(SwitchOff) <==> selected == Some(TurnOffAction)
    ensures r == Success(RunDaemon) <==> selected == Some(DaemonAction)
    ensures r.Failure? <==> selected.None? || selected == Some(ConfigHelpAction)
    ensures r.Failure? ==> r.error == NotImplemented
  {
    match selected
    case Some(TurnOnAction) => Success(SwitchOn)
    case Some(TurnOffAction) => Success(SwitchOff)
    case Some(DaemonAction) => Success(RunDaemon)
    case _ => Failure(NotImplemented)
  }

  /** A base-station interface as the orchestrator holds it. */
  datatype PowerInterface = V1(dryRun: bool) | V2(power: BS.V2Interface) | Cmd(dryRun: bool)

  /** What the orchestrator does, in order. */
  datatype Step = Power(kind: Kind, act: BS.Power) | AudioToVr | AudioToNormal | DaemonStarted

  /**
   * What one call sees of the world: the scans and connections the v2 interface meets, the
   * outcome of the v1 and command interfaces (not part of this model), and what `pactl` reports.
   */
  datatype World = World(scans: nat -> BS.ScanOutcome, links: nat -> BS.Link, external: Option<BS.PowerError>,
                         audio: LegacyWorld)

  function KindOf(p: PowerInterface): Kind
  {
    match p
    case V1(_) => V1Kind
    case V2(_) => V2Kind
    case Cmd(_) => CmdKind
  }

  /**
   * What `basestation_power_interface.action(act)` raises: for v2 the attempt counts come from the
   * configuration (an unreadable count raises) and the scan and switch loops decide; the other
   * interfaces' outcome is given.
   */
  function PowerOutcome(p: PowerInterface, c: Settings, w: World): Option<OrchestratorError>
  {
    match p
    case V2(_) =>
      var countScan := BasestationAttemptCountScan(c);
      var countSet := BasestationAttemptCountSet(c);
      if countScan.Failure? then Some(Misconfigured(countScan.error))
      else if countSet.Failure? then Some(Misconfigured(countSet.error))
      else
        var e := BS.RobustError(BS.V2, w.scans, w.links, countScan.value, countSet.value);
        if e.Some? then Some(PowerFailed(e.value)) else None
    case _ => if w.external.Some? then Some(PowerFailed(w.external.value)) else None
  }

  /**
   * The v2 interface after `action(act)`, given its devices and radio trace before: when both
   * attempt counts can be read, its devices are those the scan loop leaves (unchanged when it
   * makes no attempt, else those of the first successful scan or none), and its
   * trace grows by every switch attempt only when some scan succeeded; when a count cannot be
   * read, the interface is left as it was.
   */
  predicate V2Powered(c: Settings, w: World, act: BS.Power, dryRun: bool, devicesBefore: seq<string>,
                      traceBefore: seq<BS.BleEvent>, devices: seq<string>, trace: seq<BS.BleEvent>)
  {
    var countScan := BasestationAttemptCountScan(c);
    var countSet := BasestationAttemptCountSet(c);
    if countScan.Success? && countSet.Success? then
      devices == BS.ScanFound(BS.V2, w.scans, devicesBefore, countScan.value) &&
      trace == traceBefore +
                 (if BS.LoopError(BS.ScanFailures(BS.V2, w.scans), countScan.value).Some? then []
                  else BS.AttemptsEvents(BS.V2, devices, act, w.links, dryRun, BS.Attempts(countSet.value)))
    else devices == devicesBefore && trace == traceBefore
  }

  /** `SteamvrUtils`. */
  class SteamvrUtils {
    const config: Settings
    /** `basestation_power_interface`, `None` when base stations are disabled. */
    const basestation: Option<PowerInterface>
    /** `audio_switcher`, `None` when audio is disabled. */
    const audio: Option<LegacyAudioSwitcher>
    /** What was done so far. */
    var steps: seq<Step>

    /** The collaborator objects the orchestrator changes. */
    function Parts(): set<object>
    {
      (if audio.Some? then {audio.value} else {}) +
      (if basestation.Some? && basestation.value.V2? then {basestation.value.power} else {})
    }

    /** What powering the base stations raises, if anything: nothing when there are none. */
    function Powered(w: World): Option<OrchestratorError>
    {
      if basestation.Some? then PowerOutcome(basestation.value, config, w) else None
    }

    /** The step a power call records: one when there are base stations, none otherwise. */
    function PowerSteps(act: BS.Power): seq<Step>
    {
      if basestation.Some? then [Power(KindOf(basestation.value), act)] else []
    }

    ghost predicate Valid()
      reads this, Parts()
    {
      audio.Some? ==> audio.value.Valid()
    }

    constructor (config: Settings, basestation: Option<PowerInterface>, audio: Option<LegacyAudioSwitcher>)
      requires audio.Some? ==> audio.value.Valid()
      ensures Valid()
      ensures this.config == config && this.basestation == basestation && this.audio == audio && steps == []
    {
      this.config, this.basestation, this.audio := config, basestation, audio;
      steps := [];
    }

    /** Power the base stations, when configured: the first half of `turn_on` and `turn_off`. */
    method SetPower(act: BS.Power, w: World) returns (error: Option<OrchestratorError>)
      requires act != BS.Toggle
      modifies this, Parts() - (if audio.Some? then {audio.value} else {})
      ensures steps == old(steps) + (if basestation.Some? then [Power(KindOf(basestation.value), act)] else [])
      ensures error == if basestation.Some? then PowerOutcome(basestation.value, config, w) else None
      ensures audio.Some? ==> unchanged(audio.value)
      ensures basestation.Some? && basestation.value.V2? ==>
                var p := basestation.value.power;
                V2Powered(config, w, act, p.dryRun, old(p.devices), old(p.trace), p.devices, p.trace)
    {
      if basestation.None? {
        return None;
      }
      steps := steps + [Power(KindOf(basestation.value), act)];
      match basestation.value {
        case V2(power) =>
          var countScan := BasestationAttemptCountScan(config);
          var countSet := BasestationAttemptCountSet(config);
          if countScan.Failure? {
            return Some(Misconfigured(countScan.error));
          }
          if countSet.Failure? {
            return Some(Misconfigured(countSet.error));
          }
          var e := power.Action(act, w.scans, w.links, countScan.value, countSet.value);
          error := if e.Some? then Some(PowerFailed(e.value)) else None;
        case _ =>
          error := if w.external.Some? then Some(PowerFailed(w.external.value)) else None;
      }
    }

    /** `turn_on`: base stations ON, then, only if that raised nothing, `switch_to_vr`. */
    method TurnOn(w: World) returns (error: Option<OrchestratorError>)
      requires Valid()
      modifies this, Parts()
      ensures Valid()
      ensures steps == old(steps) + PowerSteps(BS.On) + (if Powered(w).None? && audio.Some? then [AudioToVr] else [])
      ensures Powered(w).Some? ==> error == Powered(w) && (audio.Some? ==> unchanged(audio.value))
      ensures Powered(w).None? && audio.None? ==> error.None?
      ensures Powered(w).None? && audio.Some? ==>
                var a := audio.value;
                var x := LegacyPass(a.settings, a.matches, old(a.failures), a.vrSink.name, w.audio);
                a.failures == x.failures && a.trace == old(a.trace) + x.events &&
                error == if x.error.Some? then Some(AudioFailed(x.error.value)) else None
      ensures basestation.Some? && basestation.value.V2? ==>
                var p := basestation.value.power;
                V2Powered(config, w, BS.On, p.dryRun, old(p.devices), old(p.trace), p.devices, p.trace)
    {
      error := SetPower(BS.On, w);
      if error.Some? || audio.None? {
        return;
      }
      steps := steps + [AudioToVr];
      var e := audio.value.SwitchToVr(w.audio);
      error := if e.Some? then Some(AudioFailed(e.value)) else None;
    }

    /** `turn_off`: base stations OFF, then, only if that raised nothing, `switch_to_normal`. */
    method TurnOff(w: World) returns (error: Option<OrchestratorError>)
      requires Valid()
      modifies this, Parts()
      ensures Valid()
      ensures steps == old(steps) + PowerSteps(BS.Off) + (if Powered(w).None? && audio.Some? then [AudioToNormal] else [])
      ensures Powered(w).Some? ==> error == Powered(w) && (audio.Some? ==> unchanged(audio.value))
      ensures Powered(w).None? && audio.None? ==> error.None?
      ensures Powered(w).None? && audio.Some? ==>
                var a := audio.value;
                var x := LegacyPass(a.settings, a.matches, old(a.failures), a.normalSink.name, w.audio);
                a.failures == x.failures && a.trace == old(a.trace) + x.events &&
                error == if x.error.Some? then Some(AudioFailed(x.error.value)) else None
      ensures basestation.Some? && basestation.value.V2? ==>
                var p := basestation.value.power;
                V2Powered(config, w, BS.Off, p.dryRun, old(p.devices), old(p.trace), p.devices, p.trace)
    {
      error := SetPower(BS.Off, w);
      if error.Some? || audio.None? {
        return;
      }
      steps := steps + [AudioToNormal];
      var e := audio.value.SwitchToNormal(w.audio);
      error := if e.Some? then Some(AudioFailed(e.value)) else None;
    }

    /** `turn_on_iteration`: only `switch_to_vr`; the base stations are not touched. */
    method TurnOnIteration(w: World) returns (error: Option<OrchestratorError>)
      requires Valid()
      modifies this, if audio.Some? then {audio.value} else {}
      ensures Valid()
      ensures steps == old(steps) + (if audio.Some? then [AudioToVr] else [])
      ensures audio.None? ==> error.None?
      ensures audio.Some? ==>
                var a := audio.value;
                var x := LegacyPass(a.settings, a.matches, old(a.failures), a.vrSink.name, w.audio);
                a.failures == x.failures && a.trace == old(a.trace) + x.events &&
                error == if x.error.Some? then Some(AudioFailed(x.error.value)) else None
    {
      if audio.None? {
        return None;
      }
      steps := steps + [AudioToVr];
      var e := audio.value.SwitchToVr(w.audio);
      error := if e.Some? then Some(AudioFailed(e.value)) else None;
    }

    /** `action`: dispatch the selected action; CONFIG_HELP and no action raise. */
    method Perform(selected: Option<Action>, w: World) returns (error: Option<OrchestratorError>)
      requires Valid()
      modifies this, Parts()
      ensures Valid()
      ensures Dispatch(selected).Failure? ==> error == Some(NotImplemented) && steps == old(steps) && unchanged(Parts())
      ensures Dispatch(selected) == Success(RunDaemon) ==>
                error.None? && steps == old(steps) + [DaemonStarted] && unchanged(Parts())
      ensures Dispatch(selected) == Success(SwitchOn) ==>
                steps == old(steps) + PowerSteps(BS.On) + (if Powered(w).None? && audio.Some? then [AudioToVr] else []) &&
                (Powered(w).Some? ==> error == Powered(w) && (audio.Some? ==> unchanged(audio.value))) &&
                (Powered(w).None? && audio.None? ==> error.None?) &&
                (Powered(w).None? && audio.Some? ==>
                   var a := audio.value;
                   var x := LegacyPass(a.settings, a.matches, old(a.failures), a.vrSink.name, w.audio);
                   a.failures == x.failures && a.trace == old(a.trace) + x.events &&
                   error == if x.error.Some? then Some(AudioFailed(x.error.value)) else None)
      ensures Dispatch(selected) == Success(SwitchOff) ==>
                steps == old(steps) + PowerSteps(BS.Off) + (if Powered(w).None? && audio.Some? then [AudioToNormal] else []) &&
                (Powered(w).Some? ==> error == Powered(w) && (audio.Some? ==> unchanged(audio.value))) &&
                (Powered(w).None? && audio.None? ==> error.None?) &&
                (Powered(w).None? && audio.Some? ==>
                   var a := audio.value;
                   var x := LegacyPass(a.settings, a.matches, old(a.failures), a.normalSink.name, w.audio);
                   a.failures == x.failures && a.trace == old(a.trace) + x.events &&
                   error == if x.error.Some? then Some(AudioFailed(x.error.value)) else None)
      ensures (Dispatch(selected) == Success(SwitchOn) || Dispatch(selected) == Success(SwitchOff)) &&
              basestation.Some? && basestation.value.V2? ==>
                var p := basestation.value.power;
                V2Powered(config, w, if Dispatch(selected) == Success(SwitchOn) then BS.On else BS.Off, p.dryRun,
                          old(p.devices), old(p.trace), p.devices, p.trace)
    {
      match Dispatch(selected) {
        case Failure(e) =>
          error := Some(e);
        case Success(SwitchOn) =>
          error := TurnOn(w);
        case Success(SwitchOff) =>
          error := TurnOff(w);
        case Success(RunDaemon) =>
          steps := steps + [DaemonStarted];
          error := None;
      }
    }
  }

  /** The base-station half of `__init__` raises nothing: the flag reads, and an enabled type is known. */
  predicate PowerOpens(c: Settings, basestationType: string)
  {
    BasestationEnabled(c).Success? && (BasestationEnabled(c).value ==> KindFor(basestationType).Success?)
  }

  /**
   * `SteamvrUtils.__init__`: when base stations are enabled, the configured type selects the
   * interface (an unknown type raises before audio is looked at); when audio is enabled, the
   * audio switcher is opened, which lists the sinks and may raise.
   */
  method Open(c: Settings, basestationType: string, legacy: LegacySettings, m: Matcher, sinks: Reply)
    returns (r: Result<SteamvrUtils, OrchestratorError>)
    ensures BasestationEnabled(c).Failure? ==> r == Failure(Misconfigured(BasestationEnabled(c).error))
    ensures BasestationEnabled(c) == Success(true) && KindFor(basestationType).Failure? ==> r == Failure(NotImplemented)
    ensures PowerOpens(c, basestationType) && AudioEnabled(c).Failure? ==> r == Failure(Misconfigured(AudioEnabled(c).error))
    ensures PowerOpens(c, basestationType) && AudioEnabled(c) == Success(true) && LegacyEndpoints(legacy, m, sinks.stdout).Failure? ==>
              r == Failure(AudioFailed(LegacyEndpoints(legacy, m, sinks.stdout).error))
    ensures r.Success? <==>
              PowerOpens(c, basestationType) &&
              AudioEnabled(c).Success? && (AudioEnabled(c).value ==> LegacyEndpoints(legacy, m, sinks.stdout).Success?)
    ensures r.Success? && r.value.basestation.Some? ==>
              match r.value.basestation.value
              case V2(p) => fresh(p) && p.dryRun == DryRun(c) && p.devices == [] && p.trace == []
              case V1(d) => d == DryRun(c)
              case Cmd(d) => d == DryRun(c)
    ensures r.Success? && r.value.audio.Some? ==>
              var a := r.value.audio.value;
              fresh(a) && a.settings == legacy && a.matches == m && LegacyEndpoints(legacy, m, sinks.stdout).Success? &&
              (a.normalSink, a.vrSink) == LegacyEndpoints(legacy, m, sinks.stdout).value &&
              a.failures == [] && a.trace == [Exec(SinksArgs)]
    ensures r.Success? ==>
              fresh(r.value) && r.value.Valid() && r.value.config == c && r.value.steps == [] &&
              BasestationEnabled(c).Success? && AudioEnabled(c).Success? &&
              (r.value.basestation.Some? <==> BasestationEnabled(c).value) &&
              (r.value.basestation.Some? ==> Success(KindOf(r.value.basestation.value)) == KindFor(basestationType)) &&
              (r.value.audio.Some? <==> AudioEnabled(c).value)
  {
    var enabled := BasestationEnabled(c);
    if enabled.Failure? {
      return Failure(Misconfigured(enabled.error));
    }
    var basestation: Option<PowerInterface> := None;
    if enabled.value {
      var kind := KindFor(basestationType);
      if kind.Failure? {
        return Failure(kind.error);
      }
      match kind.value {
        case V1Kind =>
          basestation := Some(V1(DryRun(c)));
        case V2Kind =>
          var power := new BS.V2Interface(DryRun(c));
          basestation := Some(V2(power));
        case CmdKind =>
          basestation := Some(Cmd(DryRun(c)));
      }
    }
    var audioEnabled := AudioEnabled(c);
    if audioEnabled.Failure? {
      return Failure(Misconfigured(audioEnabled.error));
    }
    var audio: Option<LegacyAudioSwitcher> := None;
    if audioEnabled.value {
      var switcher := OpenLegacy(legacy, m, sinks);
      if switcher.Failure? {
        return Failure(AudioFailed(switcher.error));
      }
      audio := Some(switcher.value);
    }
    var utils := new SteamvrUtils(c, basestation, audio);
    return Success(utils);
  }
}
