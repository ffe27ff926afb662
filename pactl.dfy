/**
 * The line parsers of scripts/pactl_interface/ (stream.py, stream_connection.py, sink.py,
 * sink_input.py, client.py). Each listing is `pactl list short <kind>`, one record per
 * newline-terminated line, fields separated by tabs. The command's exit code and
 * output are parameters.
 */
module Pactl {
  import opened Wrappers
  import opened Text
  import opened OutputLogging

  /** Exit code and standard output of one external command. */
  datatype Reply = Reply(code: int, stdout: string)

  /** An audio endpoint (sink or source); equality is by name. */
  datatype Stream = Stream(name: string)

  /** An active connection of a client to an endpoint (a sink input or a source output). */
  datatype Connection = Connection(id: int, clientId: Option<int>, clientName: Option<string>)

  /** A client of the audio server. */
  datatype Client = Client(clientId: int, clientName: string)

  /** Why a listing could not be turned into records. */
  datatype ListingError =
    | MissingField(line: string, index: nat)  // IndexError on `split('\t')[index]`
    | NotAnInteger(line: string, text: string) // ValueError from `int(...)`
    | CommandFailed(arguments: seq<string>, code: int)

  function ListArgs(kind: string): seq<string>
  {
    ["pactl", "list", "short", kind]
  }

  /** `Stream.__init__`: the name is tab field 1. */
  function ParseStream(line: string): (r: Result<Stream, ListingError>)
    ensures r.Success? <==> Field(line, 1).Some?
    ensures r.Success? ==> r.value.name == Field(line, 1).value
  {
    match Field(line, 1)
    case None => Failure(MissingField(line, 1))
    case Some(name) => Success(Stream(name))
  }

  /** `int(text)` on a field, reporting the line on failure. */
  function ParseIntField(line: string, text: string): (r: Result<int, ListingError>)
  {
    match ParseInt(text)
    case None => Failure(NotAnInteger(line, text))
    case Some(n) => Success(n)
  }

  /**
   * `StreamConnection.__init__`: id = int(field 0); client id = None when field 2 is "-",
   * else int(field 2); no client name yet.
   */
  function ParseConnection(line: string): (r: Result<Connection, ListingError>)
    ensures r.Success? ==>
              ParseInt(Field(line, 0).value) == Some(r.value.id) &&
              Field(line, 2).Some? &&
              (r.value.clientId.None? <==> Field(line, 2).value == "-") &&
              (r.value.clientId.Some? ==> ParseInt(Field(line, 2).value) == r.value.clientId) &&
              r.value.clientName.None?
    ensures r.Failure? <==>
              ParseInt(Field(line, 0).value).None? || Field(line, 2).None? ||
              (Field(line, 2).value != "-" && ParseInt(Field(line, 2).value).None?)
  {
    assert Field(line, 0).Some?;
    var idText := Field(line, 0).value;
    match ParseIntField(line, idText)
    case Failure(e) => Failure(e)
    case Success(id) =>
      match Field(line, 2)
      case None => Failure(MissingField(line, 2))
      case Some(clientText) =>
        if clientText == "-" then Success(Connection(id, None, None))
        else
          match ParseIntField(line, clientText)
          case Failure(e) => Failure(e)
          case Success(clientId) => Success(Connection(id, Some(clientId), None))
  }

  /** `Client.__init__`: client id = int(field 0), client name = field 2. */
  function ParseClient(line: string): (r: Result<Client, ListingError>)
    ensures r.Success? <==> ParseInt(Field(line, 0).value).Some? && Field(line, 2).Some?
    ensures r.Success? ==>
              Some(r.value.clientId) == ParseInt(Field(line, 0).value) && r.value.clientName == Field(line, 2).value
  {
    assert Field(line, 0).Some?;
    match ParseIntField(line, Field(line, 0).value)
    case Failure(e) => Failure(e)
    case Success(clientId) =>
      match Field(line, 2)
      case None => Failure(MissingField(line, 2))
      case Some(name) => Success(Client(clientId, name))
  }

  /**
   * `[cls(line) for line in lines]`: every line parsed in order, or the exception of the
   * first line that fails.
   */
  function ParseAll<T>(lines: seq<string>, parse: string -> Result<T, ListingError>): (r: Result<seq<T>, ListingError>)
    ensures r.Success? <==> forall k :: 0 <= k < |lines| ==> parse(lines[k]).Success?
    ensures r.Success? ==> |r.value| == |lines| && forall k :: 0 <= k < |lines| ==> r.value[k] == parse(lines[k]).value
    ensures r.Failure? ==>
              exists k :: 0 <= k < |lines| && parse(lines[k]) == Failure(r.error) &&
                forall j :: 0 <= j < k ==> parse(lines[j]).Success?
    decreases |lines|
  {
    if lines == [] then Success([])
    else match parse(lines[0])
      case Failure(e) => Failure(e)
      case Success(x) =>
        match ParseAll(lines[1..], parse)
        case Failure(e) =>
          var r: Result<seq<T>, ListingError> := Failure(e);
          assert exists k :: 0 <= k < |lines| && parse(lines[k]) == Failure(e) &&
                             forall j :: 0 <= j < k ==> parse(lines[j]).Success? by {
            var k :| 0 <= k < |lines[1..]| && parse(lines[1..][k]) == Failure(e) &&
                     forall j :: 0 <= j < k ==> parse(lines[1..][j]).Success?;
            assert forall j :: 1 <= j < k + 1 ==> lines[j] == lines[1..][j - 1];
          }
          r
        case Success(xs) =>
          assert forall k :: 1 <= k < |lines| ==> lines[k] == lines[1..][k - 1];
          Success([x] + xs)
  }

  /** Parsing a listing: one record per newline-terminated line. */
  function ParseListing<T>(stdout: string, parse: string -> Result<T, ListingError>): Result<seq<T>, ListingError>
  {
    ParseAll(Lines(stdout), parse)
  }

  /** A listing built from lines parses to one record per line, in order. */
  lemma {:induction false} ListingOfLines<T>(lines: seq<string>, tail: string, parse: string -> Result<T, ListingError>)
    requires forall k :: 0 <= k < |lines| ==> '\n' !in lines[k]
    requires '\n' !in tail
    requires forall k :: 0 <= k < |lines| ==> parse(lines[k]).Success?
    ensures ParseListing(Terminated(lines) + tail, parse).Success?
    ensures ParseListing(Terminated(lines) + tail, parse).value == seq(|lines|, k requires 0 <= k < |lines| => parse(lines[k]).value)
  {
    LinesOfTerminated(lines, tail);
  }

  /**
   * `Stream._get_all(type_name, cls, output_logger)`: lists `sinks` or `sources`; the
   * command must succeed; the output is recorded in the logger when one is given.
   */
  method GetAllStreams(typeName: string, reply: Reply, logger: OutputLogger?) returns (r: Result<seq<Stream>, ListingError>)
    requires typeName == "sinks" || typeName == "sources"
    requires logger != null ==> logger.Valid()
    modifies logger
    ensures logger != null ==> logger.Valid()
    ensures reply.code != 0 ==> r == Failure(CommandFailed(ListArgs(typeName), reply.code))
    ensures reply.code == 0 ==> r == ParseListing(reply.stdout, ParseStream)
    ensures logger != null && reply.code == 0 ==>
              logger.outputs == old(logger.outputs)[Key(ListArgs(typeName)) := reply.stdout]
    ensures logger != null && reply.code != 0 ==> logger.outputs == old(logger.outputs)
    ensures logger != null && reply.code == 0 ==>
              logger.order == (if Key(ListArgs(typeName)) in old(logger.outputs) then old(logger.order)
                               else old(logger.order) + [Key(ListArgs(typeName))]) &&
              logger.printed == old(logger.printed) +
                                (if Key(ListArgs(typeName)) in old(logger.outputs) then []
                                 else [(Key(ListArgs(typeName)), reply.stdout)])
    ensures logger != null && reply.code != 0 ==> unchanged(logger)
  {
    var arguments := ListArgs(typeName);
    if reply.code != 0 {
      return Failure(CommandFailed(arguments, reply.code));
    }
    if logger != null {
      logger.AddOutput(arguments, reply.stdout, true);
    }
    r := ParseListing(reply.stdout, ParseStream);
  }

  /**
   * `SinkInput.get_all_sink_inputs` (and the source-output listing): the exit code is not
   * checked; the output is recorded in the logger when one is given.
   */
  method GetAllConnections(kind: string, reply: Reply, logger: OutputLogger?) returns (r: Result<seq<Connection>, ListingError>)
    requires logger != null ==> logger.Valid()
    modifies logger
    ensures logger != null ==> logger.Valid()
    ensures r == ParseListing(reply.stdout, ParseConnection)
    ensures logger != null ==> logger.outputs == old(logger.outputs)[Key(ListArgs(kind)) := reply.stdout]
  {
    var arguments := ListArgs(kind);
    if logger != null {
      logger.AddOutput(arguments, reply.stdout, true);
    }
    r := ParseListing(reply.stdout, ParseConnection);
  }

  /** `Client.get_all_clients` without a logger, as `get_client_names` calls it. */
  function GetAllClients(reply: Reply): Result<seq<Client>, ListingError>
  {
    ParseListing(reply.stdout, ParseClient)
  }

  /** The name of the first client with the given id, if any. */
  function FirstClientName(clients: seq<Client>, id: int): (r: Option<string>)
    ensures r.None? <==> forall k :: 0 <= k < |clients| ==> clients[k].clientId != id
    ensures r.Some? ==>
              exists k :: 0 <= k < |clients| && clients[k].clientId == id && clients[k].clientName == r.value &&
                forall j :: 0 <= j < k ==> clients[j].clientId != id
    decreases |clients|
  {
    if clients == [] then None
    else if clients[0].clientId == id then Some(clients[0].clientName)
    else
      var r := FirstClientName(clients[1..], id);
      assert forall j :: 1 <= j < |clients| ==> clients[j] == clients[1..][j - 1];
      r
  }

  /** One connection after `get_client_names`: named after the first client with its id. */
  function Resolved(c: Connection, clients: seq<Client>): Connection
  {
    if c.clientId.None? then c
    else match FirstClientName(clients, c.clientId.value)
      case None => c
      case Some(name) => c.(clientName := Some(name))
  }

  /**
   * A connection without a client id is left alone; otherwise it takes the name of the
   * first client with an equal id, and keeps its name when no client has that id.
   * Nothing but the name changes.
   */
  lemma {:induction false} ResolvedName(c: Connection, clients: seq<Client>)
    ensures Resolved(c, clients).id == c.id && Resolved(c, clients).clientId == c.clientId
    ensures c.clientId.None? ==> Resolved(c, clients) == c
    ensures c.clientId.Some? && (forall k :: 0 <= k < |clients| ==> clients[k].clientId != c.clientId.value) ==>
              Resolved(c, clients) == c
    ensures forall k :: 0 <= k < |clients| && Some(clients[k].clientId) == c.clientId &&
                        (forall j :: 0 <= j < k ==> Some(clients[j].clientId) != c.clientId) ==>
              Resolved(c, clients).clientName == Some(clients[k].clientName)
  {
  }

  /**
   * `Client.get_client_names(sink_inputs)`: sets, in place, each connection's client name
   * from the client listing.
   */
  method GetClientNames(connections: array<Connection>, clients: seq<Client>)
    modifies connections
    ensures forall k :: 0 <= k < connections.Length ==> connections[k] == Resolved(old(connections[k]), clients)
  {
    var k := 0;
    while k < connections.Length
      invariant 0 <= k <= connections.Length
      invariant forall j :: 0 <= j < k ==> connections[j] == Resolved(old(connections[j]), clients)
      invariant forall j :: k <= j < connections.Length ==> connections[j] == old(connections[j])
    {
      var c := connections[k];
      if c.clientId.Some? {
        var name := FirstClientName(clients, c.clientId.value);
        if name.Some? {
          connections[k] := c.(clientName := name);
        }
      }
      k := k + 1;
    }
  }

  /** `Sink.set_suspend_state`: the command it runs, none in a dry run. */
  function SuspendCommand(dryRun: bool, name: string, state: bool): (r: Option<seq<string>>)
    ensures dryRun <==> r.None?
    ensures r.Some? ==> |r.value| == 4 && r.value[..3] == ["pactl", "suspend-sink", name] &&
                        (r.value[3] == "true" <==> state) && (r.value[3] == "false" <==> !state)
  {
    if dryRun then None
    else Some(["pactl", "suspend-sink", name, if state then "true" else "false"])
  }

  /**
   * `Sink.get_all_sinks(audio_switcher)`: the sinks and the new value of
   * `audio_switcher.last_pactl_sinks` (the raw output); the exit code is not checked.
   */
  function GetAllSinks(reply: Reply): (r: (Result<seq<Stream>, ListingError>, string))
    ensures r.1 == reply.stdout
    ensures r.0.Success? <==> forall k :: 0 <= k < |Lines(reply.stdout)| ==> Field(Lines(reply.stdout)[k], 1).Some?
    ensures r.0.Success? ==>
              |r.0.value| == |Lines(reply.stdout)| &&
              forall k :: 0 <= k < |r.0.value| ==> Some(r.0.value[k].name) == Field(Lines(reply.stdout)[k], 1)
  {
    (ParseListing(reply.stdout, ParseStream), reply.stdout)
  }
}
