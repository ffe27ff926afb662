/**
 * `StreamSwitcher` (scripts/audio/stream_switcher.py) with its two kinds,
 * `SinkSwitcher` (sink_switcher.py) and `SourceSwitcher` (source_switcher.py): it picks
 * the VR and the normal endpoint by pattern, optionally selects a card port for a sink,
 * and moves every connection whose client is not excluded to the chosen endpoint.
 * External commands are replies given as parameters (`World`); what runs is recorded
 * as a trace of `Event`s.
 */
module StreamSwitching {
  import opened Wrappers
  import opened Text
  import opened Pactl
  import opened OutputLogging
  import opened Cards
  import opened Rerouting

  /** `StreamType`: which kind of endpoint a switcher manages. */
  datatype Role = Sinks | Sources

  /** The device a switch goes to (`device_type` "vr" or "normal"). */
  datatype Device = Vr | Normal

  function StreamListing(role: Role): string
  {
    if role.Sinks? then "sinks" else "sources"
  }

  function ConnectionListing(role: Role): string
  {
    if role.Sinks? then "sink-inputs" else "source-outputs"
  }

  /** `get_move_stream_connection_command`. */
  function MoveCommand(role: Role): string
  {
    if role.Sinks? then "move-sink-input" else "move-source-output"
  }

  /** The `pactl info` line that names the default endpoint starts with this. */
  function DefaultPrefix(role: Role): string
  {
    if role.Sinks? then "Default Sink: " else "Default Source: "
  }

  const InfoArgs: seq<string> := ["pactl", "info"]
  const CardsArgs: seq<string> := ["pactl", "list", "cards"]
  const ClientsArgs: seq<string> := ["pactl", "list", "short", "clients"]

  /** The audio settings the switchers read from the configuration. */
  datatype AudioSettings = AudioSettings(
    dryRun: bool,
    changeSink: bool,
    changeSource: bool,
    vrSinkPattern: string,
    normalSinkPattern: Option<string>,
    vrSourcePattern: string,
    normalSourcePattern: Option<string>,
    excluded: seq<string>,
    setCardPort: bool,
    vrProductPattern: Option<string>,
    normalProductPattern: Option<string>,
    rescanPauseMs: int)

  /** `get_vr_stream_regex`. */
  function VrPattern(role: Role, s: AudioSettings): string
  {
    if role.Sinks? then s.vrSinkPattern else s.vrSourcePattern
  }

  /** `get_normal_stream_regex`, with the empty pattern read as no pattern. */
  function NormalPattern(role: Role, s: AudioSettings): (r: Option<string>)
    ensures r.Some? ==> r.value != ""
    ensures r.None? <==> var p := if role.Sinks? then s.normalSinkPattern else s.normalSourcePattern;
                         p.None? || p.value == ""
  {
    var p := if role.Sinks? then s.normalSinkPattern else s.normalSourcePattern;
    if p == Some("") then None else p
  }

  /** What makes a switcher raise. */
  datatype SwitchError =
    | Listing(listing: ListingError)
    | TooManyMatches(pattern: string, count: nat)
    | NoDefaultName
    | DefaultNotListed(name: string)
    | CardsFailed(card: CardError)
    | PortWithoutProfiles(port: string)
    | UnnamedProfile(port: string)

  /** The replies of the commands one switch can run, and the time of its move pass. */
  datatype World = World(
    streams: Reply,      // the endpoint listing of `switch_to_vr`
    cards: CardListing,  // the cards `pactl list cards` lists
    check: Reply,        // the endpoint listing of `set_stream_for_all_stream_connections`
    connections: Reply,  // the sink-input or source-output listing
    clients: Reply,      // `pactl list short clients`
    exit: nat -> int,    // exit code of the move of the k-th connection of the pass
    now: int)

  /** The command of an optional command line, as a trace. */
  function Run(command: Option<seq<string>>): (r: seq<Event>)
    ensures command.None? <==> r == []
  {
    if command.None? then [] else [Exec(command.value)]
  }

  /** The names of the endpoints, in listing order. */
  function Names(streams: seq<Stream>): (r: seq<string>)
    ensures |r| == |streams| && forall k :: 0 <= k < |r| ==> r[k] == streams[k].name
  {
    seq(|streams|, k requires 0 <= k < |streams| => streams[k].name)
  }

  /**
   * `find_matching_stream`: the one endpoint whose name the pattern matches, none when no
   * name matches, and an error when several do.
   */
  function Matching(streams: seq<Stream>, pattern: string, m: Matcher): (r: Result<Option<Stream>, SwitchError>)
    ensures r.Success? && r.value.Some? ==>
              r.value.value in streams && m(pattern, r.value.value.name) &&
              forall k :: 0 <= k < |streams| && streams[k] != r.value.value ==> !m(pattern, streams[k].name)
    ensures r == Success(None) <==> forall k :: 0 <= k < |streams| ==> !m(pattern, streams[k].name)
    ensures r.Failure? <==>
              exists i, j :: 0 <= i < j < |streams| && m(pattern, streams[i].name) && m(pattern, streams[j].name)
  {
    var names := Names(streams);
    match FindMatching(names, pattern, m)
    case Failure(a) => Failure(TooManyMatches(a.pattern, a.count))
    case Success(None) => Success(None)
    case Success(Some(k)) => Success(Some(streams[k]))
  }

  /** The text after `prefix` on the first line that starts with it. */
  function DefaultName(lines: seq<string>, prefix: string): (r: Option<string>)
    ensures r.None? <==> forall k :: 0 <= k < |lines| ==> !StartsWith(lines[k], prefix)
    ensures r.Some? ==>
              exists k :: 0 <= k < |lines| && lines[k] == prefix + r.value &&
                forall j :: 0 <= j < k ==> !StartsWith(lines[j], prefix)
    decreases |lines|
  {
    if lines == [] then None
    else if StartsWith(lines[0], prefix) then
      assert lines[0] == prefix + lines[0][|prefix|..];
      Some(lines[0][|prefix|..])
    else
      var r := DefaultName(lines[1..], prefix);
      assert forall j :: 1 <= j < |lines| ==> lines[j] == lines[1..][j - 1];
      r
  }

  /**
   * `get_default_stream_name`: `pactl info` must succeed; the name follows the
   * `Default Sink: ` (or `Default Source: `) prefix on the first line that has it.
   */
  function DefaultStreamName(role: Role, info: Reply): (r: Result<string, SwitchError>)
  {
    if info.code != 0 then Failure(Listing(CommandFailed(InfoArgs, info.code)))
    else match DefaultName(Lines(info.stdout), DefaultPrefix(role))
      case None => Failure(NoDefaultName)
      case Some(name) => Success(name)
  }

  /**
   * A successful `pactl info` whose output has a line naming the default endpoint, and no
   * earlier line with that prefix, yields that name; without such a line it raises.
   */
  lemma {:induction false} DefaultFromInfo(role: Role, lines: seq<string>, tail: string, k: nat, name: string)
    requires forall j :: 0 <= j < |lines| ==> '\n' !in lines[j]
    requires '\n' !in tail
    requires k < |lines| && lines[k] == DefaultPrefix(role) + name
    requires forall j :: 0 <= j < k ==> !StartsWith(lines[j], DefaultPrefix(role))
    ensures DefaultStreamName(role, Reply(0, Terminated(lines) + tail)) == Success(name)
  {
    LinesOfTerminated(lines, tail);
    var prefix := DefaultPrefix(role);
    assert StartsWith(lines[k], prefix) by { assert lines[k][..|prefix|] == prefix; }
    var r := DefaultName(lines, prefix);
    var i :| 0 <= i < |lines| && lines[i] == prefix + r.value && forall j :: 0 <= j < i ==> !StartsWith(lines[j], prefix);
    if i < k {
      assert StartsWith(lines[i], prefix) by { assert lines[i][..|prefix|] == prefix; }
    }
    assert i == k;
    assert r.value == lines[k][|prefix|..];
  }

  /** The endpoint listing of the constructor and of `switch_to_vr`: it must succeed. */
  function ListedStreams(role: Role, streams: Reply): (r: Result<seq<Stream>, SwitchError>)
    ensures r.Success? <==> streams.code == 0 && ParseListing(streams.stdout, ParseStream).Success?
    ensures r.Success? ==> r.value == ParseListing(streams.stdout, ParseStream).value
  {
    if streams.code != 0 then Failure(Listing(CommandFailed(ListArgs(StreamListing(role)), streams.code)))
    else match ParseListing(streams.stdout, ParseStream)
      case Failure(e) => Failure(Listing(e))
      case Success(list) => Success(list)
  }

  /**
   * The normal endpoint of the constructor: the one its pattern matches, or, without a
   * pattern, the listed endpoint named as the default by `pactl info`.
   */
  function NormalEndpoint(role: Role, s: AudioSettings, m: Matcher, list: seq<Stream>, info: Reply): (r: Result<Option<Stream>, SwitchError>)
  {
    match NormalPattern(role, s)
    case Some(pattern) => Matching(list, pattern, m)
    case None =>
      match DefaultStreamName(role, info)
      case Failure(e) => Failure(e)
      case Success(name) =>
        if Stream(name) in list then Success(Some(Stream(name))) else Failure(DefaultNotListed(name))
  }

  /** The constructor's endpoints: (normal, vr), or the error it raises. */
  function Endpoints(role: Role, s: AudioSettings, m: Matcher, streams: Reply, info: Reply): (r: Result<(Option<Stream>, Option<Stream>), SwitchError>)
  {
    match ListedStreams(role, streams)
    case Failure(e) => Failure(e)
    case Success(list) =>
      match NormalEndpoint(role, s, m, list, info)
      case Failure(e) => Failure(e)
      case Success(normal) =>
        match Matching(list, VrPattern(role, s), m)
        case Failure(e) => Failure(e)
        case Success(vr) => Success((normal, vr))
  }

  /** The commands the constructor runs. */
  function OpeningEvents(role: Role, s: AudioSettings): seq<Event>
  {
    [Exec(ListArgs(StreamListing(role)))] + if NormalPattern(role, s).None? then [Exec(InfoArgs)] else []
  }

  /**
   * Both endpoints the constructor picks are listed; the VR endpoint is the only one its
   * pattern matches; the normal one is the only match of its pattern, or, without a
   * pattern, the default endpoint, which must then exist.
   */
  lemma {:induction false} EndpointsListed(role: Role, s: AudioSettings, m: Matcher, streams: Reply, info: Reply)
    requires Endpoints(role, s, m, streams, info).Success?
    ensures var list := ParseListing(streams.stdout, ParseStream).value;
            var (normal, vr) := Endpoints(role, s, m, streams, info).value;
            streams.code == 0 &&
            (vr.Some? ==> vr.value in list && m(VrPattern(role, s), vr.value.name) &&
                          forall k :: 0 <= k < |list| && list[k] != vr.value ==> !m(VrPattern(role, s), list[k].name)) &&
            (NormalPattern(role, s).None? ==>
               normal.Some? && normal.value in list && DefaultStreamName(role, info) == Success(normal.value.name)) &&
            (NormalPattern(role, s).Some? && normal.Some? ==>
               normal.value in list && m(NormalPattern(role, s).value, normal.value.name))
  {
    var list := ListedStreams(role, streams).value;
    var normal := NormalEndpoint(role, s, m, list, info);
    var vr := Matching(list, VrPattern(role, s), m);
    assert normal.Success? && vr.Success?;
  }

  /** Every port of the card, paired with the card, in port order. */
  function PortsOfCard(c: Card): (r: seq<(Card, Port)>)
    ensures |r| == |c.ports| && forall k :: 0 <= k < |r| ==> r[k] == (c, c.ports[k])
  {
    seq(|c.ports|, k requires 0 <= k < |c.ports| => (c, c.ports[k]))
  }

  /** The ports of all cards in the order `get_port` visits them: card by card, port by port. */
  function CardPorts(cards: seq<Card>): (r: seq<(Card, Port)>)
    ensures forall k :: 0 <= k < |r| ==> r[k].0 in cards && r[k].1 in r[k].0.ports
    ensures (forall i :: 0 <= i < |cards| ==> NamedProfiles(cards[i])) ==>
              forall k, j :: 0 <= k < |r| && 0 <= j < |r[k].1.profiles| ==> r[k].1.profiles[j].name.Some?
    decreases |cards|
  {
    if cards == [] then []
    else
      var rest := CardPorts(cards[1..]);
      assert forall k :: 0 <= k < |rest| ==> rest[k].0 in cards;
      PortsOfCard(cards[0]) + rest
  }

  /** Listing the ports of two groups of cards is listing those of the first, then the second. */
  lemma {:induction false} CardPortsAppend(a: seq<Card>, b: seq<Card>)
    ensures CardPorts(a + b) == CardPorts(a) + CardPorts(b)
    decreases |a|
  {
    if a != [] {
      assert (a + b)[0] == a[0] && (a + b)[1..] == a[1..] + b;
      CardPortsAppend(a[1..], b);
      assert CardPorts(a + b) == PortsOfCard(a[0]) + CardPorts(a[1..] + b);
      assert CardPorts(a) == PortsOfCard(a[0]) + CardPorts(a[1..]);
    } else {
      assert a + b == b;
    }
  }

  /** The port has a product name and the pattern matches it. */
  predicate PortMatches(p: Port, pattern: string, m: Matcher)
  {
    p.productName.Some? && m(pattern, p.productName.value)
  }

  /** The index of the first port, from `i` on, whose product name the pattern matches. */
  function FirstPort(ports: seq<(Card, Port)>, pattern: string, m: Matcher, i: nat): (r: Option<nat>)
    requires i <= |ports|
    ensures r.None? <==> forall k :: i <= k < |ports| ==> !PortMatches(ports[k].1, pattern, m)
    ensures r.Some? ==>
              i <= r.value < |ports| && PortMatches(ports[r.value].1, pattern, m) &&
              forall k :: i <= k < r.value ==> !PortMatches(ports[k].1, pattern, m)
    decreases |ports| - i
  {
    if i == |ports| then None
    else if PortMatches(ports[i].1, pattern, m) then Some(i)
    else FirstPort(ports, pattern, m, i + 1)
  }

  /** The product-name pattern of the device's card port. */
  function ProductPattern(s: AudioSettings, device: Device): Option<string>
  {
    if device.Vr? then s.vrProductPattern else s.normalProductPattern
  }

  /** The first port of the cards, in card then port order, whose product name the pattern matches. */
  function PortIn(cs: seq<Card>, pattern: string, m: Matcher): (r: Option<(Card, Port)>)
    ensures r.Some? ==>
              PortMatches(r.value.1, pattern, m) &&
              ((forall i :: 0 <= i < |cs| ==> NamedProfiles(cs[i])) ==>
                 forall j :: 0 <= j < |r.value.1.profiles| ==> r.value.1.profiles[j].name.Some?)
  {
    var ports := CardPorts(cs);
    match FirstPort(ports, pattern, m, 0)
    case None => None
    case Some(k) => Some(ports[k])
  }

  /**
   * The port found is the first matching one: every port listed before it fails to match;
   * none is found only when no port matches.
   */
  lemma {:induction false} PortInFirst(cs: seq<Card>, pattern: string, m: Matcher)
    ensures PortIn(cs, pattern, m).None? <==>
              forall k :: 0 <= k < |CardPorts(cs)| ==> !PortMatches(CardPorts(cs)[k].1, pattern, m)
    ensures PortIn(cs, pattern, m).Some? ==>
              exists i :: 0 <= i < |CardPorts(cs)| && CardPorts(cs)[i] == PortIn(cs, pattern, m).value &&
                forall k :: 0 <= k < i ==> !PortMatches(CardPorts(cs)[k].1, pattern, m)
  {
    var ports := CardPorts(cs);
    var r := FirstPort(ports, pattern, m, 0);
    if r.Some? {
      assert PortMatches(ports[r.value].1, pattern, m);
      assert ports[r.value] == PortIn(cs, pattern, m).value;
      var w: int := r.value;
      assert 0 <= w < |CardPorts(cs)| && PortMatches(CardPorts(cs)[w].1, pattern, m);
    }
  }

  /** The cards of a `pactl list cards` reply, as `Card.get_all_cards()` returns them. */
  type CardListing = Result<seq<Card>, CardError>

  /**
   * `get_port(device_type)`: no port when the device has no product-name pattern (and then
   * nothing is listed); otherwise the first port, in card then port order, whose product
   * name the pattern matches, if any. `cards` is what listing the cards returns. Also
   * returns the commands run.
   */
  function GetPort(s: AudioSettings, m: Matcher, device: Device, cards: CardListing): (r: (Result<Option<(Card, Port)>, SwitchError>, seq<Event>))
    ensures ProductPattern(s, device).None? ==> r == (Success(None), [])
    ensures ProductPattern(s, device).Some? ==> r.1 == [Exec(CardsArgs)]
    ensures ProductPattern(s, device).Some? && cards.Success? ==>
              r.0 == Success(PortIn(cards.value, ProductPattern(s, device).value, m))
    ensures ProductPattern(s, device).Some? && cards.Failure? ==> r.0 == Failure(CardsFailed(cards.error))
  {
    match ProductPattern(s, device)
    case None => (Success(None), [])
    case Some(pattern) =>
      match cards
      case Failure(e) => (Failure(CardsFailed(e)), [Exec(CardsArgs)])
      case Success(cs) => (Success(PortIn(cs, pattern, m)), [Exec(CardsArgs)])
  }

  /** The cards `pactl list cards` yields have only named profiles. */
  predicate NamedCards(cards: CardListing)
  {
    cards.Success? ==> forall k :: 0 <= k < |cards.value| ==> NamedProfiles(cards.value[k])
  }

  /**
   * Suspend the sink, wait the rescan time, and resume it, which makes the audio server
   * scan the sink's ports again. In a dry run only the wait remains.
   */
  function Rescan(s: AudioSettings, stream: Stream): (r: seq<Event>)
    ensures !s.dryRun ==> r == [Exec(["pactl", "suspend-sink", stream.name, "true"]), Pause(s.rescanPauseMs),
                                Exec(["pactl", "suspend-sink", stream.name, "false"])]
    ensures s.dryRun ==> r == [Pause(s.rescanPauseMs)]
  {
    Run(SuspendCommand(s.dryRun, stream.name, true)) + [Pause(s.rescanPauseMs)] +
    Run(SuspendCommand(s.dryRun, stream.name, false))
  }

  /**
   * The sink's card-port step of `switch_to_stream`: with `set_card_port`, select the
   * first profile of the matching port's card, or, without a port, suspend the sink, wait,
   * and resume it so that its ports are scanned again. A source switcher has no such step.
   */
  function PortStep(role: Role, s: AudioSettings, m: Matcher, stream: Stream, device: Device, cards: CardListing): (r: (seq<Event>, Option<SwitchError>))
  {
    if role.Sources? || !s.setCardPort then ([], None)
    else
      var (found, listed) := GetPort(s, m, device, cards);
      match found
      case Failure(e) => (listed, Some(e))
      case Success(Some((card, port))) =>
        if port.profiles == [] then (listed, Some(PortWithoutProfiles(port.name)))
        else if port.profiles[0].name.None? then (listed, Some(UnnamedProfile(port.name)))
        else (listed + Run(SetProfileCommand(s.dryRun, card, port.profiles[0])), None)
      case Success(None) => (listed + Rescan(s, stream), None)
  }

  /** A connection is excluded when it has a client name that one of the patterns matches. */
  predicate Excluded(c: Connection, patterns: seq<string>, m: Matcher)
  {
    c.clientName.Some? && exists j :: 0 <= j < |patterns| && m(patterns[j], c.clientName.value)
  }

  /** The connections that are not excluded, in their order. */
  function Kept(conns: seq<Connection>, patterns: seq<string>, m: Matcher): (r: seq<Connection>)
    ensures |r| <= |conns|
    decreases |conns|
  {
    if conns == [] then []
    else
      var n := |conns| - 1;
      var rest := Kept(conns[..n], patterns, m);
      if Excluded(conns[n], patterns, m) then rest else rest + [conns[n]]
  }

  /** A connection is kept exactly when it is given and not excluded. */
  lemma {:induction false} KeptMembers(conns: seq<Connection>, patterns: seq<string>, m: Matcher)
    ensures forall c :: c in Kept(conns, patterns, m) <==> c in conns && !Excluded(c, patterns, m)
    decreases |conns|
  {
    if conns != [] {
      var n := |conns| - 1;
      assert conns == conns[..n] + [conns[n]];
      KeptMembers(conns[..n], patterns, m);
    }
  }

  /** Filtering keeps order: filtering a concatenation concatenates the filtered parts. */
  lemma {:induction false} KeptAppend(a: seq<Connection>, b: seq<Connection>, patterns: seq<string>, m: Matcher)
    ensures Kept(a + b, patterns, m) == Kept(a, patterns, m) + Kept(b, patterns, m)
    decreases |b|
  {
    if b == [] {
      assert a + b == a;
    } else {
      var n := |b| - 1;
      var ab := a + b;
      assert ab[..|ab| - 1] == a + b[..n];
      assert ab[|ab| - 1] == b[n];
      KeptAppend(a, b[..n], patterns, m);
      var x := b[n];
      if Excluded(x, patterns, m) {
        assert Kept(ab, patterns, m) == Kept(a + b[..n], patterns, m);
        assert Kept(b, patterns, m) == Kept(b[..n], patterns, m);
      } else {
        assert Kept(ab, patterns, m) == Kept(a + b[..n], patterns, m) + [x];
        assert Kept(b, patterns, m) == Kept(b[..n], patterns, m) + [x];
      }
    }
  }

  /** Without patterns, or when no connection has a client name, nothing is filtered out. */
  lemma {:induction false} KeptNothingExcluded(conns: seq<Connection>, patterns: seq<string>, m: Matcher)
    requires patterns == [] || forall k :: 0 <= k < |conns| ==> conns[k].clientName.None?
    ensures Kept(conns, patterns, m) == conns
    decreases |conns|
  {
    if conns != [] {
      var n := |conns| - 1;
      KeptNothingExcluded(conns[..n], patterns, m);
      assert conns[..n] + [conns[n]] == conns;
    }
  }

  /** Every move of the loop over the kept connections moves a connection that is not excluded. */
  lemma {:induction false} KeptMoves(failures: seq<Failure>, conns: seq<Connection>, patterns: seq<string>, m: Matcher,
                                     target: string, command: string, now: int, exit: nat -> int, ceiling: int)
    ensures forall e :: e in Moves(failures, Kept(conns, patterns, m), target, command, now, exit, ceiling).1 ==>
              exists k :: 0 <= k < |conns| && !Excluded(conns[k], patterns, m) && e == Exec(MoveArgs(command, conns[k].id, target))
  {
    var kept := Kept(conns, patterns, m);
    MovesOnlyGiven(failures, kept, target, command, now, exit, ceiling);
    KeptMembers(conns, patterns, m);
    forall e | e in Moves(failures, kept, target, command, now, exit, ceiling).1
      ensures exists k :: 0 <= k < |conns| && !Excluded(conns[k], patterns, m) && e == Exec(MoveArgs(command, conns[k].id, target))
    {
      var i :| 0 <= i < |kept| && e == Exec(MoveArgs(command, kept[i].id, target));
      assert kept[i] in kept;
      var k :| 0 <= k < |conns| && conns[k] == kept[i];
    }
  }

  /**
   * `filter_by_client_name`: the connections in order, without those whose client name
   * one of the excluded-client patterns matches; a connection without a client name is
   * always kept.
   */
  method FilterByClientName(conns: seq<Connection>, patterns: seq<string>, m: Matcher) returns (kept: seq<Connection>)
    ensures kept == Kept(conns, patterns, m)
  {
    kept := [];
    for k := 0 to |conns|
      invariant kept == Kept(conns[..k], patterns, m)
    {
      assert conns[..k + 1][..k] == conns[..k];
      var c := conns[k];
      var excluded := false;
      var j := 0;
      while j < |patterns|
        invariant 0 <= j <= |patterns|
        invariant excluded ==> Excluded(c, patterns, m)
        invariant !excluded ==> forall i :: 0 <= i < j ==> !(c.clientName.Some? && m(patterns[i], c.clientName.value))
      {
        if c.clientName.Some? && m(patterns[j], c.clientName.value) {
          excluded := true;
          break;
        }
        j := j + 1;
      }
      if !excluded {
        kept := kept + [c];
      }
    }
    assert conns[..|conns|] == conns;
  }

  /** `get_client_names` on a list of connections, as a value. */
  function ResolveAll(conns: seq<Connection>, clients: seq<Client>): (r: seq<Connection>)
    ensures |r| == |conns| && forall k :: 0 <= k < |r| ==> r[k] == Resolved(conns[k], clients)
  {
    seq(|conns|, k requires 0 <= k < |conns| => Resolved(conns[k], clients))
  }

  /** The records, the commands run, and the error raised (if any) by one operation. */
  datatype PassResult = PassResult(failures: seq<Failure>, events: seq<Event>, error: Option<SwitchError>)

  /**
   * `set_stream_for_all_stream_connections(target)`: nothing in a dry run; otherwise list
   * the endpoints (which must succeed) and stop when the target is not among them; then
   * list the connections and the clients, name the connections, drop the excluded ones, and
   * run the move loop.
   */
  function PassSpec(role: Role, s: AudioSettings, m: Matcher, failures: seq<Failure>, target: Stream, w: World): (r: PassResult)
    ensures s.dryRun ==> r == PassResult(failures, [], None)
    ensures !s.dryRun ==> |r.events| >= 1 && r.events[0] == Exec(ListArgs(StreamListing(role)))
    ensures r.error.Some? ==> r.failures == failures
    ensures !s.dryRun && ListedStreams(role, w.check).Success? && target !in ListedStreams(role, w.check).value ==>
              r == PassResult(failures, [Exec(ListArgs(StreamListing(role)))], None)
  {
    if s.dryRun then PassResult(failures, [], None)
    else
      var listing := Exec(ListArgs(StreamListing(role)));
      match ListedStreams(role, w.check)
      case Failure(e) => PassResult(failures, [listing], Some(e))
      case Success(list) =>
        if target !in list then PassResult(failures, [listing], None)
        else
          var listed := [listing, Exec(ListArgs(ConnectionListing(role)))];
          match ParseListing(w.connections.stdout, ParseConnection)
          case Failure(e) => PassResult(failures, listed, Some(Listing(e)))
          case Success(conns) =>
            match GetAllClients(w.clients)
            case Failure(e) => PassResult(failures, listed + [Exec(ClientsArgs)], Some(Listing(e)))
            case Success(clients) =>
              var kept := Kept(ResolveAll(conns, clients), s.excluded, m);
              var moved := Moves(failures, kept, target.name, MoveCommand(role), w.now, w.exit, NewCeiling);
              PassResult(moved.0, listed + [Exec(ClientsArgs)] + moved.1, None)
  }

  /** The three listings a pass runs before it moves anything. */
  function PassListings(role: Role): seq<Event>
  {
    [Exec(ListArgs(StreamListing(role))), Exec(ListArgs(ConnectionListing(role))), Exec(ClientsArgs)]
  }

  /** A pass that reaches the move loop: the listings, then the moves of the kept connections. */
  lemma {:induction false} PassReachesMoves(role: Role, s: AudioSettings, m: Matcher, failures: seq<Failure>, target: Stream, w: World)
    requires !s.dryRun && ListedStreams(role, w.check).Success? && target in ListedStreams(role, w.check).value
    requires ParseListing(w.connections.stdout, ParseConnection).Success? && GetAllClients(w.clients).Success?
    ensures var conns := ResolveAll(ParseListing(w.connections.stdout, ParseConnection).value, GetAllClients(w.clients).value);
            var moved := Moves(failures, Kept(conns, s.excluded, m), target.name, MoveCommand(role), w.now, w.exit, NewCeiling);
            PassSpec(role, s, m, failures, target, w) == PassResult(moved.0, PassListings(role) + moved.1, None)
  {
    var listing := Exec(ListArgs(StreamListing(role)));
    var listed := [listing, Exec(ListArgs(ConnectionListing(role)))];
    assert listed + [Exec(ClientsArgs)] == PassListings(role);
  }

  /**
   * A pass that reaches the move loop runs the three listings, then exactly the moves
   * of the connections that are kept and eligible, in order (connection ids being
   * distinct); every move targets the given endpoint and a kept connection.
   */
  lemma {:induction false} PassMoves(role: Role, s: AudioSettings, m: Matcher, failures: seq<Failure>, target: Stream, w: World)
    requires !s.dryRun && ListedStreams(role, w.check).Success? && target in ListedStreams(role, w.check).value
    requires ParseListing(w.connections.stdout, ParseConnection).Success? && GetAllClients(w.clients).Success?
    ensures var conns := ResolveAll(ParseListing(w.connections.stdout, ParseConnection).value, GetAllClients(w.clients).value);
            var r := PassSpec(role, s, m, failures, target, w);
            r.error.None? && |r.events| >= 3 && r.events[..3] == PassListings(role) &&
            (forall e :: e in r.events[3..] ==>
               exists k :: 0 <= k < |conns| && !Excluded(conns[k], s.excluded, m) &&
                 e == Exec(MoveArgs(MoveCommand(role), conns[k].id, target.name))) &&
            (DistinctConnections(Kept(conns, s.excluded, m)) ==>
               r.events[3..] == MoveCommands(Issued(failures, Kept(conns, s.excluded, m), w.now, NewCeiling), target.name, MoveCommand(role)))
  {
    var conns := ResolveAll(ParseListing(w.connections.stdout, ParseConnection).value, GetAllClients(w.clients).value);
    var kept := Kept(conns, s.excluded, m);
    var moved := Moves(failures, kept, target.name, MoveCommand(role), w.now, w.exit, NewCeiling);
    var r := PassSpec(role, s, m, failures, target, w);
    PassReachesMoves(role, s, m, failures, target, w);
    assert r.events[3..] == moved.1;
    KeptMoves(failures, conns, s.excluded, m, target.name, MoveCommand(role), w.now, w.exit, NewCeiling);
    if DistinctConnections(kept) {
      MovesIssue(failures, kept, target.name, MoveCommand(role), w.now, w.exit, NewCeiling);
    }
  }

  /**
   * A pass keeps the failure records consistent: ids stay unique, counts stay within one
   * past the ceiling, no record disappears or moves, and no count goes down.
   */
  lemma {:induction false} PassKeepsRecords(role: Role, s: AudioSettings, m: Matcher, failures: seq<Failure>, target: Stream, w: World)
    requires UniqueIds(failures) && Bounded(failures, NewCeiling)
    ensures var r := PassSpec(role, s, m, failures, target, w).failures;
            UniqueIds(r) && Bounded(r, NewCeiling) && |r| >= |failures| &&
            forall i :: 0 <= i < |failures| ==> r[i].connectionId == failures[i].connectionId && r[i].count >= failures[i].count
  {
    var r := PassSpec(role, s, m, failures, target, w);
    if r.failures != failures {
      var conns := ResolveAll(ParseListing(w.connections.stdout, ParseConnection).value, GetAllClients(w.clients).value);
      var kept := Kept(conns, s.excluded, m);
      MovesKeep(failures, kept, target.name, MoveCommand(role), w.now, w.exit, NewCeiling);
    }
  }

  /** The event runs `pactl <verb> ...`. */
  predicate IsCommand(e: Event, verb: string)
  {
    e.Exec? && |e.arguments| >= 2 && e.arguments[1] == verb
  }

  /**
   * The card-port step of a sink switch outside a dry run, when a port matches: it lists
   * the cards and selects the first profile of that port's card, and suspends nothing.
   */
  lemma {:induction false} PortStepSelects(role: Role, s: AudioSettings, m: Matcher, stream: Stream, device: Device,
                                           cards: CardListing, card: Card, port: Port)
    requires NamedCards(cards)
    requires role.Sinks? && s.setCardPort && !s.dryRun
    requires GetPort(s, m, device, cards).0 == Success(Some((card, port))) && port.profiles != []
    ensures port.profiles[0].name.Some?
    ensures PortStep(role, s, m, stream, device, cards) ==
              ([Exec(CardsArgs), Exec(["pactl", "set-card-profile", card.name, port.profiles[0].name.value])], None)
  {
    var (found, listed) := GetPort(s, m, device, cards);
    assert listed == [Exec(CardsArgs)];
    assert port.profiles[0].name.Some?;
    assert PortStep(role, s, m, stream, device, cards) == (listed + Run(SetProfileCommand(s.dryRun, card, port.profiles[0])), None);
    var select := Exec(["pactl", "set-card-profile", card.name, port.profiles[0].name.value]);
    assert Run(SetProfileCommand(false, card, port.profiles[0])) == [select];
    assert listed + [select] == [Exec(CardsArgs), select];
  }

  /**
   * The card-port step of a sink switch outside a dry run, when no port matches: after the
   * listing it suspends the sink, waits the rescan time and resumes it, and selects no profile.
   */
  lemma {:induction false} PortStepRescans(role: Role, s: AudioSettings, m: Matcher, stream: Stream, device: Device, cards: CardListing)
    requires role.Sinks? && s.setCardPort && !s.dryRun
    requires GetPort(s, m, device, cards).0 == Success(None)
    ensures var r := PortStep(role, s, m, stream, device, cards);
            r.1.None? &&
            r.0 == GetPort(s, m, device, cards).1 + [Exec(["pactl", "suspend-sink", stream.name, "true"]), Pause(s.rescanPauseMs),
                                                     Exec(["pactl", "suspend-sink", stream.name, "false"])] &&
            forall e :: e in r.0 ==> !IsCommand(e, "set-card-profile")
  {
    var (found, listed) := GetPort(s, m, device, cards);
    assert forall e :: e in listed ==> e == Exec(CardsArgs);
    assert !IsCommand(Exec(CardsArgs), "set-card-profile");
  }

  /**
   * `switch_to_stream(stream, device_type)`: the card-port step (sinks only), then the move
   * pass, unless the port step raised.
   */
  function SwitchSpec(role: Role, s: AudioSettings, m: Matcher, failures: seq<Failure>, stream: Stream, device: Device, w: World): (r: PassResult)
    ensures r.error.Some? ==> r.failures == failures
    ensures role.Sources? ==> r == PassSpec(role, s, m, failures, stream, w)
  {
    var (prep, error) := PortStep(role, s, m, stream, device, w.cards);
    if error.Some? then PassResult(failures, prep, error)
    else
      var pass := PassSpec(role, s, m, failures, stream, w);
      assert role.Sources? ==> prep == [];
      PassResult(pass.failures, prep + pass.events, pass.error)
  }

  /** The endpoint `switch_to_vr` picks: the listing, then the one endpoint its pattern matches. */
  function VrFound(role: Role, s: AudioSettings, m: Matcher, w: World): (r: Result<Option<Stream>, SwitchError>)
    ensures r.Success? ==>
              ListedStreams(role, w.streams).Success? &&
              r == Matching(ListedStreams(role, w.streams).value, VrPattern(role, s), m)
  {
    match ListedStreams(role, w.streams)
    case Failure(e) => Failure(e)
    case Success(list) => Matching(list, VrPattern(role, s), m)
  }

  /**
   * `switch_to_vr`: list the endpoints again (which must succeed), pick the VR endpoint
   * anew, and switch to it when there is one. Returns the new VR endpoint, unless picking
   * it raised.
   */
  function VrSpec(role: Role, s: AudioSettings, m: Matcher, failures: seq<Failure>, w: World): (r: (Result<Option<Stream>, SwitchError>, PassResult))
    ensures r.0 == VrFound(role, s, m, w)
    ensures r.0.Failure? ==> r.1 == PassResult(failures, [Exec(ListArgs(StreamListing(role)))], Some(r.0.error))
    ensures r.0 == Success(None) ==> r.1 == PassResult(failures, [Exec(ListArgs(StreamListing(role)))], None)
    ensures r.1.error.Some? ==> r.1.failures == failures
  {
    var listing := [Exec(ListArgs(StreamListing(role)))];
    match VrFound(role, s, m, w)
    case Failure(e) => (Failure(e), PassResult(failures, listing, Some(e)))
    case Success(None) => (Success(None), PassResult(failures, listing, None))
    case Success(Some(vr)) =>
      var x := SwitchSpec(role, s, m, failures, vr, Vr, w);
      (Success(Some(vr)), PassResult(x.failures, listing + x.events, x.error))
  }

  /** The VR endpoint `switch_to_vr` picks is the only listed endpoint its pattern matches. */
  lemma {:induction false} VrSwitchPicks(role: Role, s: AudioSettings, m: Matcher, failures: seq<Failure>, w: World)
    requires VrSpec(role, s, m, failures, w).0.Success? && VrSpec(role, s, m, failures, w).0.value.Some?
    ensures var vr := VrSpec(role, s, m, failures, w).0.value.value;
            var list := ParseListing(w.streams.stdout, ParseStream).value;
            w.streams.code == 0 && vr in list && m(VrPattern(role, s), vr.name) &&
            forall k :: 0 <= k < |list| && list[k] != vr ==> !m(VrPattern(role, s), list[k].name)
  {
    assert VrFound(role, s, m, w).Success?;
  }

  /** Every move `switch_to_vr` runs goes to the VR endpoint it picked. */
  lemma {:induction false} VrSwitchMoves(role: Role, s: AudioSettings, m: Matcher, failures: seq<Failure>, w: World)
    requires VrSpec(role, s, m, failures, w).0.Success? && VrSpec(role, s, m, failures, w).0.value.Some?
    ensures var vr := VrSpec(role, s, m, failures, w).0.value.value;
            forall e :: e in VrSpec(role, s, m, failures, w).1.events && IsCommand(e, MoveCommand(role)) ==>
              e.arguments[|e.arguments| - 1] == vr.name
  {
    var r := VrSpec(role, s, m, failures, w);
    var vr := r.0.value.value;
    var x := SwitchSpec(role, s, m, failures, vr, Vr, w);
    assert r.1.events == [Exec(ListArgs(StreamListing(role)))] + x.events;
    SwitchOnlyMovesTo(role, s, m, failures, vr, Vr, w);
    assert !IsCommand(Exec(ListArgs(StreamListing(role))), MoveCommand(role));
  }

  /** Every move command a switch runs names the switch's target as its last argument. */
  lemma {:induction false} SwitchOnlyMovesTo(role: Role, s: AudioSettings, m: Matcher, failures: seq<Failure>, stream: Stream, device: Device, w: World)
    ensures forall e :: e in SwitchSpec(role, s, m, failures, stream, device, w).events && IsCommand(e, MoveCommand(role)) ==>
              e.arguments[|e.arguments| - 1] == stream.name
  {
    PassOnlyMovesTo(role, s, m, failures, stream, w);
    PortStepMovesNothing(role, s, m, stream, device, w.cards);
  }

  /** No event of the list is a move command, for either role. */
  predicate MovesNothing(events: seq<Event>)
  {
    forall e :: e in events ==> !IsCommand(e, MoveCommand(Sinks)) && !IsCommand(e, MoveCommand(Sources))
  }

  /** The card-port step never moves a connection. */
  lemma {:induction false} PortStepMovesNothing(role: Role, s: AudioSettings, m: Matcher, stream: Stream, device: Device, cards: CardListing)
    ensures MovesNothing(PortStep(role, s, m, stream, device, cards).0)
  {
    if role.Sinks? && s.setCardPort {
      var (found, listed) := GetPort(s, m, device, cards);
      assert MovesNothing(listed);
      if found.Success? && found.value.Some? {
        var (card, port) := found.value.value;
        if port.profiles != [] && port.profiles[0].name.Some? {
          ProfileMovesNothing(s.dryRun, card, port.profiles[0]);
          MovesNothingAppend(listed, Run(SetProfileCommand(s.dryRun, card, port.profiles[0])));
        }
      } else if found.Success? {
        RescanMovesNothing(s, stream);
        MovesNothingAppend(listed, Rescan(s, stream));
      }
    }
  }

  lemma {:induction false} MovesNothingAppend(a: seq<Event>, b: seq<Event>)
    requires MovesNothing(a) && MovesNothing(b)
    ensures MovesNothing(a + b)
  {
    forall e | e in a + b ensures !IsCommand(e, MoveCommand(Sinks)) && !IsCommand(e, MoveCommand(Sources)) {
      assert e in a || e in b;
    }
  }

  /** Selecting a profile is not a move. */
  lemma {:induction false} ProfileMovesNothing(dryRun: bool, card: Card, profile: Profile)
    requires profile.name.Some?
    ensures MovesNothing(Run(SetProfileCommand(dryRun, card, profile)))
  {
    if !dryRun {
      assert Run(SetProfileCommand(dryRun, card, profile)) == [Exec(["pactl", "set-card-profile", card.name, profile.name.value])];
      assert "set-card-profile"[4] != MoveCommand(Sinks)[4];
      assert "set-card-profile"[4] != MoveCommand(Sources)[4];
    }
  }

  /** Suspending and resuming an endpoint is not a move. */
  lemma {:induction false} RescanMovesNothing(s: AudioSettings, stream: Stream)
    ensures MovesNothing(Rescan(s, stream))
  {
    assert "suspend-sink"[0] != MoveCommand(Sinks)[0];
    assert "suspend-sink"[0] != MoveCommand(Sources)[0];
  }

  /** A pass that does not reach the move loop runs at most the three listings. */
  lemma {:induction false} PassStopsEarly(role: Role, s: AudioSettings, m: Matcher, failures: seq<Failure>, target: Stream, w: World)
    requires !(!s.dryRun && ListedStreams(role, w.check).Success? && target in ListedStreams(role, w.check).value &&
               ParseListing(w.connections.stdout, ParseConnection).Success? && GetAllClients(w.clients).Success?)
    ensures var r := PassSpec(role, s, m, failures, target, w);
            |r.events| <= 3 && r.events == PassListings(role)[..|r.events|]
  {
    var r := PassSpec(role, s, m, failures, target, w);
    if !s.dryRun && ListedStreams(role, w.check).Success? && target in ListedStreams(role, w.check).value {
      assert r.events == PassListings(role)[..2] || r.events == PassListings(role);
    }
  }

  /** Every move command a pass runs names the pass's target as its last argument. */
  lemma {:induction false} PassOnlyMovesTo(role: Role, s: AudioSettings, m: Matcher, failures: seq<Failure>, target: Stream, w: World)
    ensures forall e :: e in PassSpec(role, s, m, failures, target, w).events && IsCommand(e, MoveCommand(role)) ==>
              e.arguments[|e.arguments| - 1] == target.name
  {
    if !s.dryRun && ListedStreams(role, w.check).Success? && target in ListedStreams(role, w.check).value &&
       ParseListing(w.connections.stdout, ParseConnection).Success? && GetAllClients(w.clients).Success? {
      MovedPassMovesTo(role, s, m, failures, target, w);
    } else {
      PassStopsEarly(role, s, m, failures, target, w);
      ListingsMoveNothing(role, PassSpec(role, s, m, failures, target, w).events);
    }
  }

  /** No prefix of a pass's listings is a move. */
  lemma {:induction false} ListingsMoveNothing(role: Role, events: seq<Event>)
    requires |events| <= 3 && events == PassListings(role)[..|events|]
    ensures forall e :: e in events ==> !IsCommand(e, MoveCommand(role))
    ensures forall e :: e in PassListings(role) ==> !IsCommand(e, MoveCommand(role))
  {
    assert forall e :: e in PassListings(role) ==> !IsCommand(e, MoveCommand(role));
    assert forall e :: e in events ==> e in PassListings(role);
  }

  /** `PassOnlyMovesTo` for a pass that reaches its move loop. */
  lemma {:induction false} MovedPassMovesTo(role: Role, s: AudioSettings, m: Matcher, failures: seq<Failure>, target: Stream, w: World)
    requires !s.dryRun && ListedStreams(role, w.check).Success? && target in ListedStreams(role, w.check).value
    requires ParseListing(w.connections.stdout, ParseConnection).Success? && GetAllClients(w.clients).Success?
    ensures forall e :: e in PassSpec(role, s, m, failures, target, w).events && IsCommand(e, MoveCommand(role)) ==>
              e.arguments[|e.arguments| - 1] == target.name
  {
    var conns := ResolveAll(ParseListing(w.connections.stdout, ParseConnection).value, GetAllClients(w.clients).value);
    var moved := Moves(failures, Kept(conns, s.excluded, m), target.name, MoveCommand(role), w.now, w.exit, NewCeiling);
    PassReachesMoves(role, s, m, failures, target, w);
    MovesTarget(failures, Kept(conns, s.excluded, m), target.name, MoveCommand(role), w.now, w.exit, NewCeiling);
    ListingsMoveNothing(role, []);
    ListingsThenMoves(PassListings(role), moved.1, MoveCommand(role), target.name);
  }

  /** Listings that move nothing, followed by moves to `target`, move only to `target`. */
  lemma {:induction false} ListingsThenMoves(listings: seq<Event>, moves: seq<Event>, verb: string, target: string)
    requires forall e :: e in listings ==> !IsCommand(e, verb)
    requires forall e :: e in moves ==> e.Exec? && |e.arguments| == 4 && e.arguments[1] == verb && e.arguments[3] == target
    ensures forall e :: e in listings + moves && IsCommand(e, verb) ==> e.arguments[|e.arguments| - 1] == target
  {
  }

  /** The check of `set_stream_for_all_stream_connections` that the target is listed, by name. */
  method IsListed(streams: seq<Stream>, target: Stream) returns (found: bool)
    ensures found <==> target in streams
  {
    found := false;
    for k := 0 to |streams|
      invariant found <==> exists j :: 0 <= j < k && streams[j].name == target.name
    {
      if streams[k].name == target.name {
        found := true;
      }
    }
  }

  /**
   * The tail of `set_stream_for_all_stream_connections`: resolve the client names, drop the
   * excluded clients, and move the rest to the target.
   */
  method MoveConnections(failures: seq<Failure>, conns: seq<Connection>, clients: seq<Client>, target: Stream,
                         command: string, s: AudioSettings, m: Matcher, w: World)
    returns (updated: seq<Failure>, moves: seq<Event>)
    ensures (updated, moves) == Moves(failures, Kept(ResolveAll(conns, clients), s.excluded, m), target.name, command, w.now, w.exit, NewCeiling)
  {
    var named := new Connection[|conns|](k requires 0 <= k < |conns| => conns[k]);
    GetClientNames(named, clients);
    assert named[..] == ResolveAll(conns, clients);
    var kept := FilterByClientName(named[..], s.excluded, m);
    updated, moves := MoveAll(failures, kept, target.name, command, w.now, w.exit, NewCeiling);
  }

  lemma {:induction false} SeqAssoc(a: seq<Event>, b: seq<Event>, c: seq<Event>)
    ensures (a + b) + c == a + (b + c)
  {
  }

  /** One stream switcher: its settings, the endpoints it chose, its failure records. */
  class StreamSwitcher {
    const role: Role
    const settings: AudioSettings
    const matches: Matcher
    /** `output_logger` */
    const logger: OutputLogger
    /** `failed_stream_connections` */
    var failures: seq<Failure>
    /** The external commands run so far, and the pauses, in order. */
    var trace: seq<Event>
    /** `normal_stream`, absent when its pattern matched no endpoint. */
    var normalStream: Option<Stream>
    /** `vr_stream`, absent when its pattern matched no endpoint. */
    var vrStream: Option<Stream>

    ghost predicate Valid()
      reads this, logger
    {
      logger.Valid() && UniqueIds(failures) && Bounded(failures, NewCeiling)
    }

    constructor (role: Role, settings: AudioSettings, matches: Matcher, logger: OutputLogger,
                 normal: Option<Stream>, vr: Option<Stream>, opening: seq<Event>)
      requires logger.Valid()
      ensures Valid()
      ensures this.role == role && this.settings == settings && this.matches == matches && this.logger == logger
      ensures normalStream == normal && vrStream == vr && failures == [] && trace == opening
    {
      this.role, this.settings, this.matches, this.logger := role, settings, matches, logger;
      normalStream, vrStream, failures, trace := normal, vr, [], opening;
    }

    /** `set_stream_for_all_stream_connections(stream)`. */
    method SetStreamForAllConnections(stream: Stream, w: World) returns (error: Option<SwitchError>)
      requires Valid()
      modifies this, logger
      ensures Valid()
      ensures var x := PassSpec(role, settings, matches, old(failures), stream, w);
              failures == x.failures && trace == old(trace) + x.events && error == x.error
      ensures normalStream == old(normalStream) && vrStream == old(vrStream)
      ensures forall k :: k in old(logger.outputs) ==> k in logger.outputs
    {
      ghost var x := PassSpec(role, settings, matches, failures, stream, w);
      if settings.dryRun {
        return None;
      }
      var listing := Exec(ListArgs(StreamListing(role)));
      var listed := GetAllStreams(StreamListing(role), w.check, logger);
      if listed.Failure? {
        trace := trace + [listing];
        return Some(Listing(listed.error));
      }
      var streams := listed.value;
      assert ListedStreams(role, w.check) == Success(streams);
      var found := IsListed(streams, stream);
      if !found {
        trace := trace + [listing];
        return None;
      }
      var conns := GetAllConnections(ConnectionListing(role), w.connections, logger);
      var listings := [listing, Exec(ListArgs(ConnectionListing(role)))];
      if conns.Failure? {
        trace := trace + listings;
        return Some(Listing(conns.error));
      }
      listings := listings + [Exec(ClientsArgs)];
      var clients := GetAllClients(w.clients);
      if clients.Failure? {
        trace := trace + listings;
        return Some(Listing(clients.error));
      }
      PassKeepsRecords(role, settings, matches, failures, stream, w);
      var updated, moves := MoveConnections(failures, conns.value, clients.value, stream, MoveCommand(role), settings, matches, w);
      assert x == PassResult(updated, listings + moves, None);
      failures := updated;
      trace := trace + (listings + moves);
      error := None;
    }

    /** The card-port step of `SinkSwitcher.switch_to_stream`, with `get_port`. */
    method SelectPort(stream: Stream, device: Device, w: World) returns (error: Option<SwitchError>)
      modifies this
      ensures var x := PortStep(role, settings, matches, stream, device, w.cards);
              trace == old(trace) + x.0 && error == x.1
      ensures failures == old(failures) && normalStream == old(normalStream) && vrStream == old(vrStream)
    {
      if role.Sources? || !settings.setCardPort {
        return None;
      }
      ghost var x := PortStep(role, settings, matches, stream, device, w.cards);
      var found: Option<(Card, Port)> := None;
      var listed: seq<Event> := [];
      var pattern := ProductPattern(settings, device);
      if pattern.Some? {
        listed := [Exec(CardsArgs)];
        var cards := w.cards;
        if cards.Failure? {
          trace := trace + listed;
          return Some(CardsFailed(cards.error));
        }
        found := PortIn(cards.value, pattern.value, matches);
      }
      assert GetPort(settings, matches, device, w.cards) == (Success(found), listed);
      var steps: seq<Event>;
      if found.Some? {
        var (card, port) := found.value;
        if port.profiles == [] {
          trace := trace + listed;
          return Some(PortWithoutProfiles(port.name));
        }
        if port.profiles[0].name.None? {
          trace := trace + listed;
          return Some(UnnamedProfile(port.name));
        }
        steps := Run(SetProfileCommand(settings.dryRun, card, port.profiles[0]));
      } else {
        steps := Run(SuspendCommand(settings.dryRun, stream.name, true));
        steps := steps + [Pause(settings.rescanPauseMs)];
        steps := steps + Run(SuspendCommand(settings.dryRun, stream.name, false));
        assert steps == Rescan(settings, stream);
      }
      assert x == (listed + steps, None);
      trace := trace + (listed + steps);
      error := None;
    }

    /** `switch_to_stream(stream, device_type)`. */
    method SwitchToStream(stream: Stream, device: Device, w: World) returns (error: Option<SwitchError>)
      requires Valid()
      modifies this, logger
      ensures Valid()
      ensures var x := SwitchSpec(role, settings, matches, old(failures), stream, device, w);
              failures == x.failures && trace == old(trace) + x.events && error == x.error
      ensures normalStream == old(normalStream) && vrStream == old(vrStream)
      ensures forall k :: k in old(logger.outputs) ==> k in logger.outputs
    {
      ghost var before, t0 := failures, trace;
      ghost var prep := PortStep(role, settings, matches, stream, device, w.cards);
      ghost var x := SwitchSpec(role, settings, matches, before, stream, device, w);
      error := SelectPort(stream, device, w);
      if error.Some? {
        assert x == PassResult(before, prep.0, prep.1);
        return;
      }
      ghost var pass := PassSpec(role, settings, matches, before, stream, w);
      assert x == PassResult(pass.failures, prep.0 + pass.events, pass.error);
      error := SetStreamForAllConnections(stream, w);
      assert trace == (t0 + prep.0) + pass.events;
      SeqAssoc(t0, prep.0, pass.events);
    }

    /** `switch_to_vr`. */
    method SwitchToVr(w: World) returns (error: Option<SwitchError>)
      requires Valid()
      modifies this, logger
      ensures Valid()
      ensures var x := VrSpec(role, settings, matches, old(failures), w);
              vrStream == (if x.0.Success? then x.0.value else old(vrStream)) &&
              failures == x.1.failures && trace == old(trace) + x.1.events && error == x.1.error
      ensures normalStream == old(normalStream)
      ensures forall k :: k in old(logger.outputs) ==> k in logger.outputs
    {
      ghost var before, t0 := failures, trace;
      var listing := [Exec(ListArgs(StreamListing(role)))];
      var found := FindVr(w);
      trace := trace + listing;
      if found.Failure? {
        error := Some(found.error);
      } else {
        vrStream := found.value;
        if vrStream.Some? {
          ghost var y := SwitchSpec(role, settings, matches, before, vrStream.value, Vr, w);
          error := SwitchToStream(vrStream.value, Vr, w);
          SeqAssoc(t0, listing, y.events);
        } else {
          error := None;
        }
      }
    }

    /** The listing and the pattern match that open `switch_to_vr`. */
    method FindVr(w: World) returns (found: Result<Option<Stream>, SwitchError>)
      requires logger.Valid()
      modifies logger
      ensures logger.Valid()
      ensures found == VrFound(role, settings, matches, w)
      ensures forall k :: k in old(logger.outputs) ==> k in logger.outputs
    {
      var listed := GetAllStreams(StreamListing(role), w.streams, logger);
      if listed.Failure? {
        found := Failure(Listing(listed.error));
      } else {
        assert ListedStreams(role, w.streams) == Success(listed.value);
        found := Matching(listed.value, VrPattern(role, settings), matches);
      }
    }

    /** `switch_to_normal`: nothing when no normal endpoint was found. */
    method SwitchToNormal(w: World) returns (error: Option<SwitchError>)
      requires Valid()
      modifies this, logger
      ensures Valid()
      ensures normalStream.None? ==> failures == old(failures) && trace == old(trace) && error.None?
      ensures normalStream.Some? ==>
                var x := SwitchSpec(role, settings, matches, old(failures), normalStream.value, Normal, w);
                failures == x.failures && trace == old(trace) + x.events && error == x.error
      ensures normalStream == old(normalStream) && vrStream == old(vrStream)
      ensures forall k :: k in old(logger.outputs) ==> k in logger.outputs
    {
      if normalStream.None? {
        return None;
      }
      error := SwitchToStream(normalStream.value, Normal, w);
    }
  }

  /**
   * `StreamSwitcher.__init__`: list the endpoints (which must succeed), pick the normal
   * and the VR endpoint, and start without failure records. The error is the one the
   * constructor raises.
   */
  method Open(role: Role, s: AudioSettings, m: Matcher, streams: Reply, info: Reply) returns (r: Result<StreamSwitcher, SwitchError>)
    ensures r.Success? <==> Endpoints(role, s, m, streams, info).Success?
    ensures r.Failure? ==> r.error == Endpoints(role, s, m, streams, info).error
    ensures r.Success? ==>
              fresh(r.value) && fresh(r.value.logger) && r.value.Valid() &&
              r.value.role == role && r.value.settings == s && r.value.matches == m &&
              (r.value.normalStream, r.value.vrStream) == Endpoints(role, s, m, streams, info).value &&
              r.value.failures == [] && r.value.trace == OpeningEvents(role, s)
  {
    var logger := new OutputLogger();
    var listed := GetAllStreams(StreamListing(role), streams, logger);
    if listed.Failure? {
      return Failure(Listing(listed.error));
    }
    var normal := NormalEndpoint(role, s, m, listed.value, info);
    if normal.Failure? {
      return Failure(normal.error);
    }
    var vr := Matching(listed.value, VrPattern(role, s), m);
    if vr.Failure? {
      return Failure(vr.error);
    }
    var switcher := new StreamSwitcher(role, s, m, logger, normal.value, vr.value, OpeningEvents(role, s));
    return Success(switcher);
  }
}
