/**
 * scripts/audio_switcher.py: the older, sink-only audio switcher. It lists the sinks once
 * when it is built and picks a normal and a VR sink; each switch lists the sink inputs and
 * the clients, drops the excluded clients and moves every remaining sink input to the
 * target sink, with per-input failure records (retry ceiling 20, cooldown 500 ms).
 *
 * Exit codes of the listings are not checked here, unlike in the newer engine. The first
 * output of each listing is logged (`log.d`); the switcher remembers the last output of
 * each listing (`last_pactl_*`).
 */
module LegacySwitching {
  import opened Wrappers
  import opened Text
  import opened Pactl
  import opened Rerouting
  import opened StreamSwitching

  /** The settings the older switcher reads from the configuration. */
  datatype LegacySettings = LegacySettings(
    dryRun: bool,
    vrSinkPattern: string,
    normalSinkPattern: Option<string>,  // None or "" selects the running sink
    excluded: seq<string>)

  /** A line of `pactl list short sinks` as the older switcher reads it. */
  datatype LegacySink = LegacySink(name: string, running: bool)

  /** The exceptions the older switcher raises. */
  datatype LegacyError =
    | ListingFailed(listing: ListingError)
    | NoRunningSink                              // 'No sink is currently running.'
    | AmbiguousSink(pattern: string, count: nat)  // 'Multiple matches for the ... audio sink found.'
    | NoMatch(device: string)                    // `None.name` after no sink matched
    | UnnamedClient(id: int)                     // `re.match(regex, None)` in the filter as written

  /** What the audio server answers during one switch. */
  datatype LegacyWorld = LegacyWorld(sinkInputs: Reply, clients: Reply, exit: nat -> int, now: int)

  /** The records, the commands run, and the exception raised (if any) by one switch. */
  datatype LegacyResult = LegacyResult(failures: seq<Failure>, events: seq<Event>, error: Option<LegacyError>)

  const SinksArgs: seq<string> := ListArgs("sinks")
  const SinkInputsArgs: seq<string> := ListArgs("sink-inputs")
  const LegacyClientsArgs: seq<string> := ListArgs("clients")
  const LegacyMoveCommand: string := "move-sink-input"

  /** `Sink.__init__` of `get_all_sinks`: name is tab field 1; running when field 4 is `RUNNING`. */
  function ParseLegacySink(line: string): (r: Result<LegacySink, ListingError>)
    ensures r.Success? <==> Field(line, 1).Some? && Field(line, 4).Some?
    ensures r.Success? ==> r.value.name == Field(line, 1).value && (r.value.running <==> Field(line, 4) == Some("RUNNING"))
    ensures Field(line, 1).None? ==> r == Failure(MissingField(line, 1))
  {
    match Field(line, 1)
    case None => Failure(MissingField(line, 1))
    case Some(name) =>
      match Field(line, 4)
      case None => Failure(MissingField(line, 4))
      case Some(state) => Success(LegacySink(name, state == "RUNNING"))
  }

  /**
   * `SinkInput.__init__` of `get_all_sink_inputs`: id = int(field 0), client id =
   * int(field 2) (a `-` raises, unlike in the newer engine), no client name yet.
   */
  function ParseLegacyInput(line: string): (r: Result<Connection, ListingError>)
    ensures r.Success? <==> ParseInt(Field(line, 0).value).Some? && Field(line, 2).Some? && ParseInt(Field(line, 2).value).Some?
    ensures r.Success? ==>
              Some(r.value.id) == ParseInt(Field(line, 0).value) && r.value.clientId == ParseInt(Field(line, 2).value) &&
              r.value.clientName.None?
  {
    assert Field(line, 0).Some?;
    match ParseIntField(line, Field(line, 0).value)
    case Failure(e) => Failure(e)
    case Success(id) =>
      match Field(line, 2)
      case None => Failure(MissingField(line, 2))
      case Some(clientText) =>
        match ParseIntField(line, clientText)
        case Failure(e) => Failure(e)
        case Success(clientId) => Success(Connection(id, Some(clientId), None))
  }

  /** The first sink that is running, if any. */
  function FirstRunning(sinks: seq<LegacySink>): (r: Option<nat>)
    ensures r.Some? ==> r.value < |sinks| && sinks[r.value].running && forall j :: 0 <= j < r.value ==> !sinks[j].running
    ensures r.None? <==> forall j :: 0 <= j < |sinks| ==> !sinks[j].running
    decreases |sinks|
  {
    if sinks == [] then None
    else if sinks[0].running then Some(0)
    else match FirstRunning(sinks[1..])
      case None => None
      case Some(i) => Some(i + 1)
  }

  /** The names of the sinks, in listing order. */
  function SinkNames(sinks: seq<LegacySink>): (r: seq<string>)
    ensures |r| == |sinks| && forall k :: 0 <= k < |sinks| ==> r[k] == sinks[k].name
  {
    seq(|sinks|, k requires 0 <= k < |sinks| => sinks[k].name)
  }

  /**
   * `find_matching_sink` followed by the `.name` the constructor reads: the one sink the
   * pattern matches; several matches raise, and no match makes the `.name` raise.
   */
  function MatchingSink(sinks: seq<LegacySink>, pattern: string, device: string, m: Matcher): (r: Result<LegacySink, LegacyError>)
    ensures r.Success? <==>
              exists k :: 0 <= k < |sinks| && m(pattern, sinks[k].name) &&
                forall j :: 0 <= j < |sinks| && j != k ==> !m(pattern, sinks[j].name)
    ensures r.Success? ==> r.value in sinks && m(pattern, r.value.name)
    ensures r == Failure(NoMatch(device)) <==> forall k :: 0 <= k < |sinks| ==> !m(pattern, sinks[k].name)
  {
    match FindMatching(SinkNames(sinks), pattern, m)
    case Failure(a) => Failure(AmbiguousSink(a.pattern, a.count))
    case Success(None) => Failure(NoMatch(device))
    case Success(Some(k)) => Success(sinks[k])
  }

  /** `normal_sink_regex`, with the empty pattern read as none. */
  function NormalSinkPattern(s: LegacySettings): (r: Option<string>)
    ensures r.Some? ==> r.value != "" && s.normalSinkPattern == r
    ensures r.None? ==> s.normalSinkPattern.None? || s.normalSinkPattern == Some("")
  {
    if s.normalSinkPattern == Some("") then None else s.normalSinkPattern
  }

  /**
   * `AudioSwitcher.__init__`: from the sink listing, the normal sink (the first running
   * sink when no pattern is set, else the one sink the pattern matches), then the VR sink.
   */
  function LegacyEndpoints(s: LegacySettings, m: Matcher, sinksOutput: string): (r: Result<(LegacySink, LegacySink), LegacyError>)
  {
    match ParseListing(sinksOutput, ParseLegacySink)
    case Failure(e) => Failure(ListingFailed(e))
    case Success(sinks) =>
      var normal :=
        match NormalSinkPattern(s)
        case None =>
          (match FirstRunning(sinks)
           case None => Failure(NoRunningSink)
           case Some(k) => Success(sinks[k]))
        case Some(pattern) => MatchingSink(sinks, pattern, "normal", m);
      match normal
      case Failure(e) => Failure(e)
      case Success(n) =>
        match MatchingSink(sinks, s.vrSinkPattern, "vr", m)
        case Failure(e) => Failure(e)
        case Success(v) => Success((n, v))
  }

  /** The sink `find_matching_sink` returns is the only listed sink its pattern matches. */
  lemma {:induction false} MatchingSinkUnique(sinks: seq<LegacySink>, pattern: string, device: string, m: Matcher)
    requires MatchingSink(sinks, pattern, device, m).Success?
    ensures var v := MatchingSink(sinks, pattern, device, m).value;
            v in sinks && m(pattern, v.name) &&
            forall j :: 0 <= j < |sinks| && sinks[j] != v ==> !m(pattern, sinks[j].name)
  {
    var v := MatchingSink(sinks, pattern, device, m).value;
    var k :| 0 <= k < |sinks| && m(pattern, sinks[k].name) &&
             forall j :: 0 <= j < |sinks| && j != k ==> !m(pattern, sinks[j].name);
    assert sinks[k] == v by {
      var i :| 0 <= i < |sinks| && sinks[i] == v;
    }
  }

  /**
   * The normal sink the older switcher picks: without a pattern, the first running sink
   * (and no running sink raises); with one, the only sink it matches.
   */
  lemma {:induction false} LegacyNormalChosen(s: LegacySettings, m: Matcher, sinksOutput: string)
    requires ParseListing(sinksOutput, ParseLegacySink).Success?
    ensures var sinks := ParseListing(sinksOutput, ParseLegacySink).value;
            var r := LegacyEndpoints(s, m, sinksOutput);
            (NormalSinkPattern(s).None? && (forall j :: 0 <= j < |sinks| ==> !sinks[j].running) ==> r == Failure(NoRunningSink)) &&
            (r.Success? && NormalSinkPattern(s).None? ==>
               r.value.0.running &&
               exists k :: 0 <= k < |sinks| && sinks[k] == r.value.0 && forall j :: 0 <= j < k ==> !sinks[j].running) &&
            (r.Success? && NormalSinkPattern(s).Some? ==>
               r.value.0 in sinks && m(NormalSinkPattern(s).value, r.value.0.name) &&
               forall j :: 0 <= j < |sinks| && sinks[j] != r.value.0 ==> !m(NormalSinkPattern(s).value, sinks[j].name))
  {
    var sinks := ParseListing(sinksOutput, ParseLegacySink).value;
    var r := LegacyEndpoints(s, m, sinksOutput);
    if r.Success? {
      if NormalSinkPattern(s).None? {
        var i := FirstRunning(sinks).value;
        assert sinks[i] == r.value.0;
      } else {
        var p := NormalSinkPattern(s).value;
        assert MatchingSink(sinks, p, "normal", m) == Success(r.value.0);
        MatchingSinkUnique(sinks, p, "normal", m);
      }
    }
  }

  /**
   * The VR sink the older switcher picks is the only listed sink its pattern matches; a
   * pattern that matches nothing raises.
   */
  lemma {:induction false} LegacyVrChosen(s: LegacySettings, m: Matcher, sinksOutput: string)
    requires ParseListing(sinksOutput, ParseLegacySink).Success?
    ensures var sinks := ParseListing(sinksOutput, ParseLegacySink).value;
            var r := LegacyEndpoints(s, m, sinksOutput);
            (r.Success? ==>
               r.value.1 in sinks && m(s.vrSinkPattern, r.value.1.name) &&
               forall j :: 0 <= j < |sinks| && sinks[j] != r.value.1 ==> !m(s.vrSinkPattern, sinks[j].name)) &&
            ((forall j :: 0 <= j < |sinks| ==> !m(s.vrSinkPattern, sinks[j].name)) ==> r.Failure?)
  {
    var sinks := ParseListing(sinksOutput, ParseLegacySink).value;
    var r := LegacyEndpoints(s, m, sinksOutput);
    if r.Success? {
      assert MatchingSink(sinks, s.vrSinkPattern, "vr", m) == Success(r.value.1);
      MatchingSinkUnique(sinks, s.vrSinkPattern, "vr", m);
    }
  }

  /**
   * `filter_by_client_name` as written: for each sink input in turn, `re.match` of each
   * excluded pattern against its client name. A sink input whose client was not listed has
   * no name, and the first pattern tried on it raises (`re.match(regex, None)`).
   */
  function LegacyFilterAsWritten(inputs: seq<Connection>, patterns: seq<string>, m: Matcher): (r: Result<seq<Connection>, LegacyError>)
    decreases |inputs|
  {
    if inputs == [] then Success([])
    else
      var n := |inputs| - 1;
      match LegacyFilterAsWritten(inputs[..n], patterns, m)
      case Failure(e) => Failure(e)
      case Success(kept) =>
        var c := inputs[n];
        if patterns != [] && c.clientName.None? then Failure(UnnamedClient(c.id))
        else if Excluded(c, patterns, m) then Success(kept)
        else Success(kept + [c])
  }

  /**
   * The filter as written agrees with the guarded filter exactly when no pattern is tried on
   * a missing client name; otherwise it raises on the first unnamed sink input.
   */
  lemma {:induction false} LegacyFilterAgrees(inputs: seq<Connection>, patterns: seq<string>, m: Matcher)
    ensures LegacyFilterAsWritten(inputs, patterns, m).Success? <==>
              patterns == [] || forall k :: 0 <= k < |inputs| ==> inputs[k].clientName.Some?
    ensures LegacyFilterAsWritten(inputs, patterns, m).Success? ==>
              LegacyFilterAsWritten(inputs, patterns, m).value == Kept(inputs, patterns, m)
    ensures LegacyFilterAsWritten(inputs, patterns, m).Failure? ==>
              exists k :: 0 <= k < |inputs| && inputs[k].clientName.None? &&
                LegacyFilterAsWritten(inputs, patterns, m).error == UnnamedClient(inputs[k].id) &&
                forall j :: 0 <= j < k ==> inputs[j].clientName.Some?
    decreases |inputs|
  {
    if inputs != [] {
      var n := |inputs| - 1;
      LegacyFilterAgrees(inputs[..n], patterns, m);
      assert forall k :: 0 <= k < n ==> inputs[..n][k] == inputs[k];
    }
  }

  /**
   * A sink input whose client is missing from the client listing, with one excluded
   * pattern: the filter as written raises, where the guarded filter keeps the input.
   */
  lemma {:induction false} LegacyFilterRaises(m: Matcher)
    ensures var unnamed := Connection(7, Some(3), None);
            LegacyFilterAsWritten([unnamed], ["pavucontrol"], m) == Failure(UnnamedClient(7)) &&
            Kept([unnamed], ["pavucontrol"], m) == [unnamed]
  {
    var unnamed := Connection(7, Some(3), None);
    assert [unnamed][..0] == [];
    assert !Excluded(unnamed, ["pavucontrol"], m);
  }

  /**
   * `set_sink_for_all_sink_inputs(sink)`: list the sink inputs and the clients, name and
   * filter the inputs, stop in a dry run, else move each remaining input to the sink (at
   * most 20 failures per input, 500 ms apart). The filter is the guarded one.
   */
  function LegacyPass(s: LegacySettings, m: Matcher, failures: seq<Failure>, target: string, w: LegacyWorld): (r: LegacyResult)
    ensures |r.events| >= 1 && r.events[0] == Exec(SinkInputsArgs)
    ensures r.error.Some? || s.dryRun ==> r.failures == failures
    ensures s.dryRun ==> |r.events| <= 2
  {
    var first := [Exec(SinkInputsArgs)];
    match ParseListing(w.sinkInputs.stdout, ParseLegacyInput)
    case Failure(e) => LegacyResult(failures, first, Some(ListingFailed(e)))
    case Success(inputs) =>
      var listed := first + [Exec(LegacyClientsArgs)];
      match GetAllClients(w.clients)
      case Failure(e) => LegacyResult(failures, listed, Some(ListingFailed(e)))
      case Success(clients) =>
        if s.dryRun then LegacyResult(failures, listed, None)
        else
          var moved := MovedInputs(s, m, failures, target, w, inputs, clients);
          LegacyResult(moved.0, listed + moved.1, None)
  }

  /** The move loop of `set_sink_for_all_sink_inputs`, over the named, non-excluded inputs. */
  function MovedInputs(s: LegacySettings, m: Matcher, failures: seq<Failure>, target: string, w: LegacyWorld,
                       inputs: seq<Connection>, clients: seq<Client>): (seq<Failure>, seq<Event>)
  {
    Moves(failures, Kept(ResolveAll(inputs, clients), s.excluded, m), target, LegacyMoveCommand, w.now, w.exit, LegacyCeiling)
  }

  /**
   * What the listings of one switch log: each listing's output when it is the first output
   * of that listing since the switcher was built; the clients only when the sink inputs parse.
   */
  function ListingLogs(lastInputs: Option<string>, lastClients: Option<string>, w: LegacyWorld): (r: seq<(seq<string>, string)>)
    ensures |r| <= 2
    ensures lastInputs.Some? && lastClients.Some? ==> r == []
    ensures forall k :: 0 <= k < |r| ==>
              r[k] == (SinkInputsArgs, w.sinkInputs.stdout) || r[k] == (LegacyClientsArgs, w.clients.stdout)
  {
    (if lastInputs.None? then [(SinkInputsArgs, w.sinkInputs.stdout)] else []) +
    (if ParseListing(w.sinkInputs.stdout, ParseLegacyInput).Success? && lastClients.None?
     then [(LegacyClientsArgs, w.clients.stdout)] else [])
  }

  /**
   * A switch outside a dry run that gets both listings runs them and then only moves of
   * named, non-excluded sink inputs to the target; the records stay unique and within the
   * ceiling of 20.
   */
  lemma {:induction false} LegacyPassMoves(s: LegacySettings, m: Matcher, failures: seq<Failure>, target: string, w: LegacyWorld)
    requires !s.dryRun
    requires ParseListing(w.sinkInputs.stdout, ParseLegacyInput).Success? && GetAllClients(w.clients).Success?
    ensures var inputs := ResolveAll(ParseListing(w.sinkInputs.stdout, ParseLegacyInput).value, GetAllClients(w.clients).value);
            var r := LegacyPass(s, m, failures, target, w);
            r.error.None? && |r.events| >= 2 && r.events[..2] == [Exec(SinkInputsArgs), Exec(LegacyClientsArgs)] &&
            forall e :: e in r.events[2..] ==>
              exists k :: 0 <= k < |inputs| && !Excluded(inputs[k], s.excluded, m) &&
                e == Exec(MoveArgs(LegacyMoveCommand, inputs[k].id, target))
  {
    var listed, clients := ParseListing(w.sinkInputs.stdout, ParseLegacyInput).value, GetAllClients(w.clients).value;
    var inputs := ResolveAll(listed, clients);
    var moved := MovedInputs(s, m, failures, target, w, listed, clients);
    LegacyPassListed(s, m, failures, target, w);
    var r := LegacyPass(s, m, failures, target, w);
    assert r.events[..2] == [Exec(SinkInputsArgs), Exec(LegacyClientsArgs)];
    assert r.events[2..] == moved.1;
    KeptMoves(failures, inputs, s.excluded, m, target, LegacyMoveCommand, w.now, w.exit, LegacyCeiling);
  }

  /** A switch outside a dry run that gets both listings runs them, then the move loop. */
  lemma LegacyPassListed(s: LegacySettings, m: Matcher, failures: seq<Failure>, target: string, w: LegacyWorld)
    requires !s.dryRun
    requires ParseListing(w.sinkInputs.stdout, ParseLegacyInput).Success? && GetAllClients(w.clients).Success?
    ensures var moved := MovedInputs(s, m, failures, target, w, ParseListing(w.sinkInputs.stdout, ParseLegacyInput).value,
                                     GetAllClients(w.clients).value);
            LegacyPass(s, m, failures, target, w) ==
              LegacyResult(moved.0, [Exec(SinkInputsArgs), Exec(LegacyClientsArgs)] + moved.1, None)
  {
  }

  /**
   * A switch keeps the records unique per sink input and within the ceiling of 20, and loses
   * none: every old record stays in place, with its sink input and a count no smaller.
   */
  lemma {:induction false} LegacyPassKeepsRecords(s: LegacySettings, m: Matcher, failures: seq<Failure>, target: string, w: LegacyWorld)
    requires UniqueIds(failures) && Bounded(failures, LegacyCeiling)
    ensures var r := LegacyPass(s, m, failures, target, w).failures;
            UniqueIds(r) && Bounded(r, LegacyCeiling) && |r| >= |failures| &&
            forall i :: 0 <= i < |failures| ==> r[i].connectionId == failures[i].connectionId && r[i].count >= failures[i].count
  {
    var r := LegacyPass(s, m, failures, target, w);
    if r.failures != failures {
      var inputs := ResolveAll(ParseListing(w.sinkInputs.stdout, ParseLegacyInput).value, GetAllClients(w.clients).value);
      MovesKeep(failures, Kept(inputs, s.excluded, m), target, LegacyMoveCommand, w.now, w.exit, LegacyCeiling);
    }
  }

  /**
   * The tail of `set_sink_for_all_sink_inputs` outside a dry run: name the inputs, drop the
   * excluded ones, and move the rest.
   */
  method MoveInputs(failures: seq<Failure>, inputs: seq<Connection>, clients: seq<Client>, target: string,
                    s: LegacySettings, m: Matcher, w: LegacyWorld)
    returns (updated: seq<Failure>, moves: seq<Event>)
    ensures (updated, moves) == MovedInputs(s, m, failures, target, w, inputs, clients)
  {
    var named := new Connection[|inputs|](k requires 0 <= k < |inputs| => inputs[k]);
    GetClientNames(named, clients);
    assert named[..] == ResolveAll(inputs, clients);
    var kept := FilterByClientName(named[..], s.excluded, m);
    updated, moves := MoveAll(failures, kept, target, LegacyMoveCommand, w.now, w.exit, LegacyCeiling);
  }

  /**
   * The rest of `set_sink_for_all_sink_inputs` once the listings are parsed: stop on a
   * listing error or in a dry run, else move the named, non-excluded inputs.
   */
  method PassAfterListings(s: LegacySettings, m: Matcher, failures: seq<Failure>, target: string, w: LegacyWorld,
                           inputs: Result<seq<Connection>, ListingError>, clients: Result<seq<Client>, ListingError>)
    returns (r: LegacyResult)
    requires inputs == ParseListing(w.sinkInputs.stdout, ParseLegacyInput)
    requires inputs.Success? ==> clients == GetAllClients(w.clients)
    ensures r == LegacyPass(s, m, failures, target, w)
  {
    if inputs.Failure? {
      return LegacyResult(failures, [Exec(SinkInputsArgs)], Some(ListingFailed(inputs.error)));
    }
    var listed := [Exec(SinkInputsArgs), Exec(LegacyClientsArgs)];
    if clients.Failure? {
      return LegacyResult(failures, listed, Some(ListingFailed(clients.error)));
    }
    if s.dryRun {
      return LegacyResult(failures, listed, None);
    }
    var updated, moves := MoveInputs(failures, inputs.value, clients.value, target, s, m, w);
    r := LegacyResult(updated, listed + moves, None);
  }

  /** The older `AudioSwitcher`. */
  class LegacyAudioSwitcher {
    const settings: LegacySettings
    const matches: Matcher
    const normalSink: LegacySink
    const vrSink: LegacySink
    /** `last_pactl_sinks`, `last_pactl_sink_inputs`, `last_pactl_clients` */
    var lastSinks: Option<string>
    var lastSinkInputs: Option<string>
    var lastClients: Option<string>
    /** `failed_sink_inputs` */
    var failures: seq<Failure>
    /** The commands run so far, in order. */
    var trace: seq<Event>
    /** The listings logged with `log.d`: each command and its output. */
    var logged: seq<(seq<string>, string)>

    ghost predicate Valid()
      reads this
    {
      UniqueIds(failures) && Bounded(failures, LegacyCeiling) && lastSinks.Some?
    }

    constructor (settings: LegacySettings, matches: Matcher, normal: LegacySink, vr: LegacySink, sinksOutput: string)
      ensures Valid()
      ensures this.settings == settings && this.matches == matches && normalSink == normal && vrSink == vr
      ensures lastSinks == Some(sinksOutput) && lastSinkInputs.None? && lastClients.None?
      ensures failures == [] && trace == [Exec(SinksArgs)] && logged == [(SinksArgs, sinksOutput)]
    {
      this.settings, this.matches, normalSink, vrSink := settings, matches, normal, vr;
      lastSinks, lastSinkInputs, lastClients := Some(sinksOutput), None, None;
      failures, trace, logged := [], [Exec(SinksArgs)], [(SinksArgs, sinksOutput)];
    }

    /** Run a listing: log its output the first time, and remember it. */
    method List(args: seq<string>, output: string, last: Option<string>) returns (remembered: Option<string>)
      modifies this
      ensures remembered == Some(output)
      ensures logged == old(logged) + (if last.None? then [(args, output)] else [])
      ensures trace == old(trace) + [Exec(args)]
      ensures failures == old(failures) && lastSinks == old(lastSinks) &&
              lastSinkInputs == old(lastSinkInputs) && lastClients == old(lastClients)
    {
      trace := trace + [Exec(args)];
      if last.None? {
        logged := logged + [(args, output)];
      }
      remembered := Some(output);
    }

    /**
     * The listings of `set_sink_for_all_sink_inputs`: the sink inputs, then, when they parse,
     * the clients.
     */
    method ListInputsAndClients(w: LegacyWorld)
      returns (inputs: Result<seq<Connection>, ListingError>, clients: Result<seq<Client>, ListingError>)
      modifies this
      ensures inputs == ParseListing(w.sinkInputs.stdout, ParseLegacyInput)
      ensures inputs.Success? ==> clients == GetAllClients(w.clients)
      ensures trace == old(trace) + (if inputs.Success? then [Exec(SinkInputsArgs), Exec(LegacyClientsArgs)] else [Exec(SinkInputsArgs)])
      ensures lastSinkInputs == Some(w.sinkInputs.stdout)
      ensures lastClients == (if inputs.Success? then Some(w.clients.stdout) else old(lastClients))
      ensures logged == old(logged) + ListingLogs(old(lastSinkInputs), old(lastClients), w)
      ensures failures == old(failures) && lastSinks == old(lastSinks)
    {
      lastSinkInputs := List(SinkInputsArgs, w.sinkInputs.stdout, lastSinkInputs);
      inputs := ParseListing(w.sinkInputs.stdout, ParseLegacyInput);
      clients := Failure(MissingField("", 0));
      if inputs.Success? {
        lastClients := List(LegacyClientsArgs, w.clients.stdout, lastClients);
        clients := GetAllClients(w.clients);
      }
    }

    /** `set_sink_for_all_sink_inputs(sink)` */
    method SetSinkForAllInputs(sink: LegacySink, w: LegacyWorld) returns (error: Option<LegacyError>)
      requires Valid()
      modifies this
      ensures Valid()
      ensures var x := LegacyPass(settings, matches, old(failures), sink.name, w);
              failures == x.failures && trace == old(trace) + x.events && error == x.error
      ensures lastSinks == old(lastSinks) && lastSinkInputs == Some(w.sinkInputs.stdout)
      ensures lastClients == (if ParseListing(w.sinkInputs.stdout, ParseLegacyInput).Success? then Some(w.clients.stdout)
                              else old(lastClients))
      ensures logged == old(logged) + ListingLogs(old(lastSinkInputs), old(lastClients), w)
    {
      LegacyPassKeepsRecords(settings, matches, failures, sink.name, w);
      var start := trace;
      var inputs, clients := ListInputsAndClients(w);
      var r := PassAfterListings(settings, matches, failures, sink.name, w, inputs, clients);
      failures, trace, error := r.failures, start + r.events, r.error;
    }

    /** `switch_to_vr`: `set_sink(vr_sink)`. */
    method SwitchToVr(w: LegacyWorld) returns (error: Option<LegacyError>)
      requires Valid()
      modifies this
      ensures Valid()
      ensures var x := LegacyPass(settings, matches, old(failures), vrSink.name, w);
              failures == x.failures && trace == old(trace) + x.events && error == x.error
    {
      error := SetSinkForAllInputs(vrSink, w);
    }

    /** `switch_to_normal`: `set_sink(normal_sink)`. */
    method SwitchToNormal(w: LegacyWorld) returns (error: Option<LegacyError>)
      requires Valid()
      modifies this
      ensures Valid()
      ensures var x := LegacyPass(settings, matches, old(failures), normalSink.name, w);
              failures == x.failures && trace == old(trace) + x.events && error == x.error
    {
      error := SetSinkForAllInputs(normalSink, w);
    }
  }

  /**
   * `AudioSwitcher.__init__`: list the sinks (the exit code is not checked) and pick the
   * normal and the VR sink; the error is the exception the constructor raises.
   */
  method OpenLegacy(s: LegacySettings, m: Matcher, sinks: Reply) returns (r: Result<LegacyAudioSwitcher, LegacyError>)
    ensures r.Success? <==> LegacyEndpoints(s, m, sinks.stdout).Success?
    ensures r.Failure? ==> r.error == LegacyEndpoints(s, m, sinks.stdout).error
    ensures r.Success? ==>
              fresh(r.value) && r.value.Valid() && r.value.settings == s && r.value.matches == m &&
              (r.value.normalSink, r.value.vrSink) == LegacyEndpoints(s, m, sinks.stdout).value &&
              r.value.failures == [] && r.value.trace == [Exec(SinksArgs)] &&
              r.value.lastSinks == Some(sinks.stdout) && r.value.logged == [(SinksArgs, sinks.stdout)]
  {
    var listed := ParseListing(sinks.stdout, ParseLegacySink);
    if listed.Failure? {
      return Failure(ListingFailed(listed.error));
    }
    var normal: LegacySink;
    var pattern := NormalSinkPattern(s);
    if pattern.None? {
      var k := FirstRunning(listed.value);
      if k.None? {
        return Failure(NoRunningSink);
      }
      normal := listed.value[k.value];
    } else {
      var found := MatchingSink(listed.value, pattern.value, "normal", m);
      if found.Failure? {
        return Failure(found.error);
      }
      normal := found.value;
    }
    var vr := MatchingSink(listed.value, s.vrSinkPattern, "vr", m);
    if vr.Failure? {
      return Failure(vr.error);
    }
    var switcher := new LegacyAudioSwitcher(s, m, normal, vr.value, sinks.stdout);
    return Success(switcher);
  }
}
