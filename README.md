# steamvr_utils in Dafny

steamvr_utils prepares a Linux desktop for a SteamVR session. It does two things:

- It powers the Valve base stations on and off over Bluetooth LE.
- It moves the PulseAudio connections (sink inputs, source outputs) to the headset's sink or source and back to the normal one. It drives `pactl` to do this.

A daemon watches the SteamVR compositor and turns everything on when the session starts and off after it ends.

This project models the decision logic of those parts. External outcomes are inputs: command exit codes and outputs, Bluetooth scan results and connection failures, the clock, the regex engine. The project proves what the code promises about them.

| file | module | models |
|---|---|---|
| `wrappers.dfy` | `Wrappers` | `Option` and `Result` |
| `text.dfy` | `Text` | `str.split`, `strip`, `int()`, tab fields and newline-terminated lines, as `pactl` output needs them |
| `config.py` → `config.dfy` | `Config` | the configuration accessors with their defaults, and `dry_run` |
| `audio/output_logger.py` → `output_logger.dfy` | `OutputLogging` | the map from command to its last output |
| `pactl_interface/*.py` → `pactl.dfy` | `Pactl` | the line parsers of streams, connections and clients; naming connections after their clients; suspend arguments |
| `pactl_interface/card.py` → `card.dfy` | `Cards` | the indentation-tree builder, `as_dict`, and profile, port and card parsing and equality |
| (shared) → `rerouting.dfy` | `Rerouting` | `Failure` records with their retry window; one/zero/many matching; the move loop with its failure bookkeeping |
| `audio/stream_switcher.py`, `sink_switcher.py`, `source_switcher.py` → `stream_switcher.dfy` | `StreamSwitching` | the endpoint switcher for both roles (sinks, sources), including the card-port step |
| `audio/audio_switcher.py` → `audio_switcher.dfy` | `AudioSwitching` | the dispatcher over the optional sink and source switchers |
| `audio_switcher.py` → `legacy_audio_switcher.dfy` | `LegacySwitching` | the older sink-only switcher the orchestrator still uses |
| `steamvr_daemon.py` → `daemon.dfy` | `SessionDaemon` | the four-stage session machine, one tick at a time |
| `basestation_interface.py`, `basestation_interface/v2_interface.py` → `basestation.dfy` | `BaseStations` | discovery, scan errors, ON/OFF/TOGGLE writes, `attempt_loop` |
| `basestation_interface/lhctrl.py` → `lhctrl.dfy` | `Lighthouse` | the 20-byte v1 wake-up command, `argsCheck`, connect retries, `shutdown` |
| `steamvr_utils.py` → `steamvr_utils.dfy` | `Orchestrator` | keyword selection, action dispatch, interface choice, `turn_on`/`turn_off` |

## Modelling choices

- **State changed in place becomes a class.** Examples: `StreamSwitcher`, `LegacyAudioSwitcher`, `OutputLogger`, `Daemon`, the two base-station interfaces, the `Delegate`, the lhctrl `Radio` and `SteamvrUtils`. Their methods carry `modifies` clauses and state the whole new state.
- **Loops stay loops.** Each loop of the source is a `method` with a `while` loop, proved equal to a specification function. Examples: the move loop, the client-name join over an `array`, `add_children`, `attempt_loop`, `connect`, the device loop of `action`.
- **Effects become a trace.** The commands a switcher runs (`pactl ...`), its pauses, and the radio's connects, reads, writes and disconnects are appended to a trace. That makes "never issued" and "in this order" statable.
- **Regular expressions are a parameter.** `re.match(pattern, s) is not None` is a `Matcher` function. Every property holds for every matcher.
- **Time is integer milliseconds.** The 0.5 s cooldown is `CooldownMs == 500`. One `now` is taken per pass.
- **A raised exception is a `Failure` result.** Every `raise` the modelled code reaches becomes an error value with its own constructor.

## Model

| member | source | states |
|---|---|---|
| Text.JoinSplit | scripts/pactl_interface/stream.py:18 | joining the parts of `split(sep)` with `sep` gives back the text, so splitting loses nothing |
| Text.LinesOfTerminated | scripts/pactl_interface/stream.py:18-20 | `split('\n')[:-1]` of newline-terminated lines plus an unterminated tail is exactly those lines, in order; the tail is dropped |
| Text.ParseIntToString | scripts/pactl_interface/stream_connection.py:3 | `int(str(n)) == n` for every integer, so ids survive being printed into a command and read back |
| Text.ParseIntStrip | scripts/pactl_interface/stream_connection.py:3 | `int()` ignores surrounding whitespace: parsing a text is parsing its stripped form |
| Text.ParseIntPadded | scripts/pactl_interface/stream_connection.py:3 | a printed integer with any whitespace before and after it still reads back as that integer |
| Text.IntToStringBare | scripts/pactl_interface/stream_connection.py:3 | a printed integer is non-empty and neither starts nor ends with whitespace |
| Text.IsSpaceCodes | scripts/pactl_interface/card.py:131-132 | the characters `str.strip` removes are exactly Python's whitespace set: tab to carriage return, the file/group/record/unit separators, space, U+0085, U+00A0, U+1680, U+2000 to U+200A, U+2028, U+2029, U+202F, U+205F and U+3000 |
| Text.PrintableNotSpace | scripts/pactl_interface/stream_connection.py:3 | no printable ASCII character (digits and the minus sign among them) is whitespace |
| Text.LStripSpec | scripts/pactl_interface/card.py:131 | `lstrip` removes exactly the leading whitespace: the result is a suffix, starts with no whitespace, and everything cut was whitespace |
| Text.RStripSpec | scripts/pactl_interface/card.py:132 | `rstrip` removes exactly the trailing whitespace: the result is a prefix, ends with no whitespace, and everything cut was whitespace |
| Text.StripBare | scripts/pactl_interface/card.py:132 | `strip` leaves a text alone when it neither starts nor ends with whitespace |
| Text.StripPadded | scripts/pactl_interface/card.py:132 | `strip` of a text padded with whitespace on both sides gives back the text |
| Text.SplitLinesOfTerminated | scripts/pactl_interface/card.py:154 | `splitlines()` of newline-terminated lines plus a tail gives exactly those lines, then the tail when it is not empty |
| Config.Lookup | scripts/config.py:43-47 | the `'section' in data and 'key' in data['section']` test: a missing section gives nothing, and a mapping section gives its key's value, or nothing when the key is missing |
| Config.Flag | scripts/config.py:43-47 | a boolean accessor is its default when the key is absent and the value's truthiness otherwise |
| Config.Count | scripts/config.py:49-53 | a count accessor is its default when absent and the value passed through `int()` otherwise |
| Config.Raw | scripts/config.py:67-71 | a raw accessor is its default when absent and the stored value otherwise |
| Config.ToList | scripts/config.py:79-83 | `list(value)` succeeds exactly on a list, a string or a mapping: it copies a list, splits a string into its one-character strings, and gives a mapping's keys in order; anything else is not iterable and raises |
| Config.MapTruthyKeys | scripts/config.py:79-83 | on a loaded mapping `bool(value)` and `list(value)` agree: it is truthy exactly when it yields keys, and it yields one key per entry |
| Config.DryRun | scripts/config.py:115-122 | dry run holds whenever the command line forces it, else exactly when the top-level `dry_run` is truthy |
| Config.Defaults | scripts/config.py:43-113 | with an empty document every accessor returns its documented default (5 attempts, '.*hdmi.', no normal regex, [], set_card_port on, 10 s, 'vrcompositor', 40, dry run as the command line says) |
| Config.SectionWithoutKey | scripts/config.py:43-113 | a section that lacks a key falls back to the default just like a missing section |
| OutputLogging.ReplayKeepsLast | scripts/audio/output_logger.py:8-14 | after any sequence of `add_output` calls the map holds exactly the commands seen, each with the output of its last call |
| OutputLogging.OutputLogger.constructor | scripts/audio/output_logger.py:5-6 | a new logger holds no outputs |
| OutputLogging.OutputLogger.AddOutput | scripts/audio/output_logger.py:8-14 | stores the output under `' '.join(arguments)`, overwriting; it prints only with `print_first` and only for a command not seen before |
| OutputLogging.OutputLogger.LogAll | scripts/audio/output_logger.py:16-18 | visits every stored command exactly once, with its stored output, in first-insertion order, and changes nothing |
| OutputLogging.OutputLogger.OrderCoversKeys | scripts/audio/output_logger.py:14-18 | the visiting order lists each stored command once, so it has as many entries as the map |
| OutputLogging.DistinctCardinality | scripts/audio/output_logger.py:16-18 | a list without repeats has as many elements as its set |
| Pactl.ParseStream | scripts/pactl_interface/stream.py:5-6 | an endpoint's name is tab field 1, and a line without it raises |
| Pactl.ParseConnection | scripts/pactl_interface/stream_connection.py:2-11 | id is `int(field 0)`; the client id is absent exactly when field 2 is "-" and is `int(field 2)` otherwise; the client name starts unset; each malformed case raises |
| Pactl.ParseClient | scripts/pactl_interface/client.py:5-7 | a client is `int(field 0)` with name field 2, and a malformed line raises |
| Pactl.ParseAll | scripts/pactl_interface/stream.py:20 | a listing parses exactly when every line does, giving one record per line in order; otherwise it fails at the first bad line |
| Pactl.ListingOfLines | scripts/pactl_interface/stream.py:18-20 | a listing of newline-terminated lines gives one record per line, in order, and drops the tail |
| Pactl.GetAllStreams | scripts/pactl_interface/stream.py:9-21 | a failed listing raises and leaves the logger alone; otherwise its lines are parsed, and the output is recorded under the listing command when a logger is given, printed (`print_first`) only the first time that command is seen |
| Pactl.GetAllConnections | scripts/pactl_interface/sink_input.py:10-20 | the connections are parsed from the listing, and its output is recorded under the listing command |
| Pactl.FirstClientName | scripts/pactl_interface/client.py:30 | finds the name of the first client with the id, and nothing exactly when no client has it |
| Pactl.ResolvedName | scripts/pactl_interface/client.py:22-32 | naming keeps id and client id; a connection without client id, or with no matching client, is untouched; otherwise it takes the first matching client's name |
| Pactl.GetClientNames | scripts/pactl_interface/client.py:22-32 | the loop names every connection of the array in place, exactly as `Resolved` says |
| Pactl.SuspendCommand | scripts/pactl_interface/sink.py:10-25 | dry run runs nothing; otherwise the command is `pactl suspend-sink <name> true/false` following the flag |
| Pactl.GetAllSinks | scripts/pactl_interface/sink.py:27-39 | the sinks are one per newline-terminated line, in order, and the raw output is remembered |
| Cards.MakeLine | scripts/pactl_interface/card.py:129-132 | a node's text is the stripped line, and its level counts the leading characters that `lstrip` removes: all of them are whitespace and the next one is not |
| Cards.NodeLines | scripts/pactl_interface/card.py:154 | the kept lines are never more than the listing's lines, and none of them has empty text |
| Cards.NodeLinesAt | scripts/pactl_interface/card.py:154 | the filter `if line.strip()` works line by line: a line becomes exactly one node when its stripped text is not empty, and none otherwise |
| Cards.NodeLinesBlank | scripts/pactl_interface/card.py:154 | no node is built exactly when every line of the listing is blank |
| Cards.NodeLinesAppend | scripts/pactl_interface/card.py:154 | building nodes from two runs of lines is building them from each run and joining the results |
| Cards.AddChildrenSpec | scripts/pactl_interface/card.py:134-145 | `add_children` consumes a prefix and pushes back the first node at or above its own level; its new children are exactly the consumed nodes at the first node's level, in order |
| Cards.CollectSpec | scripts/pactl_interface/card.py:136-145 | the loop once it holds a child: it stops at the first node at or above the parent's level and pushes that node back; every consumed node at the child level becomes a child, in order |
| Cards.CollectChildSpec | scripts/pactl_interface/card.py:138-139 | a node at the child level becomes the next child |
| Cards.CollectGrandchildSpec | scripts/pactl_interface/card.py:140-142 | a deeper node is pushed back and a nested `add_children` of the most recent child consumes it; the loop's promise still holds |
| Cards.GrandchildCombine | scripts/pactl_interface/card.py:140-142 | after the nested call, the loop's promise still holds for the whole list |
| Cards.CollectDropSpec | scripts/pactl_interface/card.py:143-145 | a node deeper than the parent but shallower than the children matches no branch: it is consumed without becoming a child and without ending the loop, and the loop's promise still holds |
| Cards.FlattenAppend | scripts/pactl_interface/card.py:134-145 | flattening a forest pre-order distributes over joining forests |
| Cards.FlattenReplaced | scripts/pactl_interface/card.py:142 | replacing the last child's children changes the flattened forest only after that child |
| Cards.AddChildrenFlat | scripts/pactl_interface/card.py:134-145 | reference definition: the tree `add_children` builds, flattened pre-order, is the existing children, the first node, then exactly the lines a level stack keeps; what it leaves over is what the stack stops at |
| Cards.CollectFlat | scripts/pactl_interface/card.py:136-145 | the same agreement with the level-stack reference for the loop once it holds a child |
| Cards.CollectGrandchildFlat | scripts/pactl_interface/card.py:140-142 | the same agreement across the nested call for grandchildren |
| Cards.CollectDropFlat | scripts/pactl_interface/card.py:136-145 | a line between the parent's and the child level appears nowhere in the tree: the flattened tree and what is left over are those of the following lines alone |
| Cards.KeptNested | scripts/pactl_interface/card.py:140-145 | the level stack of a nested call followed by its parent's stack keeps and leaves over the same lines as one deeper stack |
| Cards.UnwindBelow | scripts/pactl_interface/card.py:143-145 | a line at or above every open level unwinds the stack to the root's two levels |
| Cards.StepNested | scripts/pactl_interface/card.py:140-142 | a line deeper than the bottom open level is handled the same with one more level below it |
| Cards.StepBelow | scripts/pactl_interface/card.py:143-145 | a line at or above the bottom open level ends the nested call and is decided by the parent's levels alone |
| Cards.AddChildrenNested | scripts/pactl_interface/card.py:134-145 | nesting invariant: every child `add_children` adds sits at the first node's level, earlier children keep their levels, and in the whole tree every child is deeper than its parent |
| Cards.CollectNested | scripts/pactl_interface/card.py:136-145 | the loop keeps the nesting invariant: the new children are at the child level and every subtree stays strictly deeper than its parent |
| Cards.CollectGrandchildNested | scripts/pactl_interface/card.py:140-142 | the nested call for grandchildren keeps the nesting invariant |
| Cards.AddChildrenLoop | scripts/pactl_interface/card.py:134-145 | the pop/insert loop over the shared list computes the recursive specification |
| Cards.AsDict | scripts/pactl_interface/card.py:147-151 | a node without children becomes its text; any other node becomes `{text: [...]}` with one entry per child, each the child's own dict, in order |
| Cards.Dicts | scripts/pactl_interface/card.py:158 | the root's list holds one dict per top-level node, each that node's `as_dict()`, in order |
| Cards.LastIndexOf | scripts/pactl_interface/card.py:32 | the greedy `(.*): ` finds the last occurrence of ": ", and there is none when it reports none |
| Cards.FirstSpace | scripts/pactl_interface/card.py:16 | `[^ ]*` stops at the first space, and there is none when it reports none |
| Cards.ParseProfile | scripts/pactl_interface/card.py:12-19 | name and human name are both set or both unset |
| Cards.ProfileRoundTrip | scripts/pactl_interface/card.py:16-19 | a line `name: human (details)` with a space-free name and no " (" in the details parses back to that name and human name |
| Cards.ProfileShape | scripts/pactl_interface/card.py:16-19 | conversely, a line parses only when it is `name: human (details)` with a space-free name, and the human name ends at the last " (" |
| Cards.ProfileMatches | scripts/pactl_interface/card.py:16-19 | every line of the form `name: human (details)` with a space-free name matches, whatever the details hold |
| Cards.ProductName | scripts/pactl_interface/card.py:40-42 | an item matches exactly when it starts with the pattern `device.product.name = "`, whose dots match any character; the product name is the rest of the item |
| Cards.ProductNameOf | scripts/pactl_interface/card.py:40-42 | the pattern followed by any value reads back as that value |
| Cards.ProductNameDots | scripts/pactl_interface/card.py:40 | the unescaped dots match other characters: `device-product-name = "Index` gives `Index` |
| Cards.PropertiesProduct | scripts/pactl_interface/card.py:36-42 | the last matching property wins; with no matching property the product name stays as it was |
| Cards.PropertiesProductAppend | scripts/pactl_interface/card.py:35-42 | scanning two runs of properties is scanning the first, then the second from its result |
| Cards.ProfilesNamed | scripts/pactl_interface/card.py:48-51 | the matches are card profiles with that name, and every card profile with that name is among them |
| Cards.ProfilesNamedCount | scripts/pactl_interface/card.py:48-51 | the matches are the card profiles with that name, each as many times as the card lists it |
| Cards.PortProfiles | scripts/pactl_interface/card.py:46-55 | a profile is kept exactly when, for some listed name, it is the card's only profile of that name; at most one is kept per name, and each kept profile is a named card profile |
| Cards.PortProfilesAppend | scripts/pactl_interface/card.py:46-55 | the profiles of two runs of names are those of each run, joined in order |
| Cards.PortProfilesAt | scripts/pactl_interface/card.py:52-55 | one name contributes its single match, or nothing when there are zero or several |
| Cards.PortContentStep | scripts/pactl_interface/card.py:35-55 | one content: it fails exactly when it cannot be read, a Properties block updates the product name, a profile line appends its profiles |
| Cards.PortContentsSpec | scripts/pactl_interface/card.py:35-55 | the contents parse exactly when each one can be read; the product name is the scan of all property items, and the profiles are those of all profile lines, in order |
| Cards.PortContents | scripts/pactl_interface/card.py:35-55 | reading a port's contents keeps its name |
| Cards.ParsePort | scripts/pactl_interface/card.py:25-55 | a port parses exactly when its key contains ": " and every content can be read; its name is the key up to the last ": ", its product name the last matching property, its profiles those of its profile lines |
| Cards.ParseProfiles | scripts/pactl_interface/card.py:81-84 | the Profiles block parses exactly when all its items are lines, and the profiles are those lines parsed, in order |
| Cards.ParsePorts | scripts/pactl_interface/card.py:85-88 | the Ports block parses exactly when every entry does, giving one port per entry, in order, each with named profiles |
| Cards.CardItemsSnoc | scripts/pactl_interface/card.py:73-88 | the item loop after one more item is one more step of the loop |
| Cards.CardItemsSpec | scripts/pactl_interface/card.py:73-88 | the item loop fails exactly when some Profiles or Ports block cannot be read; otherwise the name is the last `Name: ` line's, the profiles the last Profiles block's, the ports the last Ports block's, read with the profiles known at that point |
| Cards.ParseCard | scripts/pactl_interface/card.py:66-91 | a card parses exactly when it is an entry, its blocks can be read, and a Name line and a Ports block occur; the card holds the last name, profiles and ports, and its port profiles are named |
| Cards.ParseCards | scripts/pactl_interface/card.py:158-159 | all cards parse exactly when each top-level entry does, giving one card per entry, in order |
| Cards.CardsOfBlank | scripts/pactl_interface/card.py:153-154 | with only blank lines no node is built, and `nodes[0]` raises: no card listing |
| Cards.CardsOfTree | scripts/pactl_interface/card.py:153-161 | otherwise the cards are exactly the parsed top-level dicts of the root, one per dict, in order, failing when one of them fails |
| Cards.CardsOf | scripts/pactl_interface/card.py:120-161 | every parsed card's port profiles are named |
| Cards.GetAllCards | scripts/pactl_interface/card.py:120-161 | `get_all_cards` computes `CardsOf` of the listing |
| Cards.TopLevelTree | scripts/pactl_interface/card.py:153-154 | under the root, the children are exactly the level-0 lines, in order, and nothing is left over |
| Cards.CollectAtRoot | scripts/pactl_interface/card.py:153-154 | the root's loop consumes the whole list |
| Cards.OneCardPerTopLine | scripts/pactl_interface/card.py:153-161 | `get_all_cards` returns one card per unindented line of the listing |
| Cards.DroppedLine | scripts/pactl_interface/card.py:143-145 | a concrete listing in which a line between two levels vanishes from the tree |
| Cards.PortsOfDifferentCardsEqual | scripts/pactl_interface/card.py:57-60 | Port equality as written: two ports of different cards with the same name compare equal |
| Cards.PortsEqualMeansSameCard | scripts/pactl_interface/card.py:57-60 | corrected Port equality: equal exactly when names and cards are equal |
| Cards.SetProfileCommand | scripts/pactl_interface/card.py:93-102 | dry run runs nothing; otherwise `pactl set-card-profile <card> <profile>` |
| Rerouting.RetryWindow | scripts/audio/stream_switcher.py:15-32 | a new record has count 1; `add_attempt` adds exactly 1 and stamps now; above the ceiling there is no retry; otherwise a retry is allowed exactly from 500 ms after the last failure |
| Rerouting.FindFailure | scripts/audio/stream_switcher.py:134-137 | finds the first record of the connection, and none exactly when no record has its id |
| Rerouting.MatchingNames | scripts/audio/stream_switcher.py:82-84 | the matches are exactly the indexes of matching names, in order |
| Rerouting.FindMatching | scripts/audio/stream_switcher.py:81-94 | exactly one match gives it, no match gives none, two or more raise |
| Rerouting.MoveAll | scripts/audio/stream_switcher.py:133-157 | the move loop computes `Moves` |
| Rerouting.MoveOneKeeps | scripts/audio/stream_switcher.py:138-150 | one step keeps ids unique and counts at most one past the ceiling; it removes no record and lowers no count |
| Rerouting.MovesKeep | scripts/audio/stream_switcher.py:133-150 | the same for a whole pass |
| Rerouting.MovesAllSucceed | scripts/audio/stream_switcher.py:145 | when every move succeeds no record changes |
| Rerouting.MoveCommands | scripts/audio/stream_switcher.py:141 | each command is `pactl <move> <id> <target>` |
| Rerouting.Issued | scripts/audio/stream_switcher.py:138-139 | the connections moved are exactly the given ones without a blocking record |
| Rerouting.MoveOneOthers | scripts/audio/stream_switcher.py:145-150 | a step for one connection leaves every other connection's record alone |
| Rerouting.MovesOthers | scripts/audio/stream_switcher.py:133-150 | a pass over other connections leaves a connection's record alone |
| Rerouting.MovesIssue | scripts/audio/stream_switcher.py:133-143 | with distinct ids, the pass runs exactly one move per eligible connection, in order, and none for a blocked one |
| Rerouting.MovesTarget | scripts/audio/stream_switcher.py:141 | every command of the move loop moves to the target |
| Rerouting.MovesOnlyGiven | scripts/audio/stream_switcher.py:133-143 | every command moves one of the given connections |
| StreamSwitching.NormalPattern | scripts/audio/stream_switcher.py:43-46 | an empty normal regex counts as unset |
| StreamSwitching.Matching | scripts/audio/stream_switcher.py:81-94 | exactly one matching endpoint is returned, none when nothing matches, and two or more raise |
| StreamSwitching.DefaultName | scripts/audio/stream_switcher.py:163-171 | the default is what follows the `Default Sink: ` prefix on the first line that starts with it, and none when no line does |
| StreamSwitching.DefaultFromInfo | scripts/audio/stream_switcher.py:159-178 | when line k is the first default line of `pactl info`, its name is the default |
| StreamSwitching.ListedStreams | scripts/pactl_interface/sink.py:27-39 | the endpoints are listed when the command succeeds and every line parses |
| StreamSwitching.EndpointsListed | scripts/audio/stream_switcher.py:42-61 | construction picks the normal endpoint (the default's namesake, or the one normal match) and the VR match from the listing, raising as the source does |
| StreamSwitching.CardPorts | scripts/audio/sink_switcher.py:57-58 | the ports are visited card by card, port by port |
| StreamSwitching.CardPortsAppend | scripts/audio/sink_switcher.py:57-58 | the port order of two card lists is the concatenation of theirs |
| StreamSwitching.FirstPort | scripts/audio/sink_switcher.py:57-61 | finds the first port whose product name is set and matches, and none when no later port does |
| StreamSwitching.PortIn | scripts/audio/sink_switcher.py:56-61 | a port found belongs to one of the cards and matches |
| StreamSwitching.PortInFirst | scripts/audio/sink_switcher.py:56-72 | `get_port` finds a port exactly when some port matches, and then the first one in card-then-port order |
| StreamSwitching.GetPort | scripts/audio/sink_switcher.py:42-72 | with no product regex `get_port` returns none and lists no cards; otherwise it lists the cards once and searches them |
| StreamSwitching.Rescan | scripts/audio/sink_switcher.py:34-38 | the rescan is suspend, pause, resume in that order; in dry run only the pause |
| StreamSwitching.Kept | scripts/audio/stream_switcher.py:180-200 | the filter never adds a connection |
| StreamSwitching.KeptMembers | scripts/audio/stream_switcher.py:187-198 | a connection is kept exactly when its client is unnamed or no exclusion matches the name |
| StreamSwitching.KeptAppend | scripts/audio/stream_switcher.py:189-198 | filtering works connection by connection, in order |
| StreamSwitching.KeptNothingExcluded | scripts/audio/stream_switcher.py:180-200 | when nothing is excluded the filter keeps everything |
| StreamSwitching.KeptMoves | scripts/audio/stream_switcher.py:131-143 | an excluded connection is never moved |
| StreamSwitching.FilterByClientName | scripts/audio/stream_switcher.py:180-200 | the nested loop computes `Kept` |
| StreamSwitching.ResolveAll | scripts/pactl_interface/client.py:22-32 | every connection is named after its client |
| StreamSwitching.PassSpec | scripts/audio/stream_switcher.py:111-157 | dry run does nothing; otherwise the endpoints are listed first; a raised pass changes no record; an absent target stops after the listing with records untouched |
| StreamSwitching.PassReachesMoves | scripts/audio/stream_switcher.py:129-157 | a pass that reaches the loop runs the three listings, then the moves of the kept connections |
| StreamSwitching.PassMoves | scripts/audio/stream_switcher.py:129-157 | such a pass moves only kept connections to the target; with distinct ids it moves exactly the eligible kept ones, in order |
| StreamSwitching.PassKeepsRecords | scripts/audio/stream_switcher.py:133-150 | across a pass ids stay unique, counts stay at most one past the ceiling 10, and no record disappears, changes its connection or lowers its count |
| StreamSwitching.PortStepSelects | scripts/audio/sink_switcher.py:29-33 | when a port is found, exactly one profile is selected, `port.profiles[0]`, and nothing is suspended |
| StreamSwitching.PortStepRescans | scripts/audio/sink_switcher.py:34-38 | when no port is found, the sink is suspended, the pause passes, the sink resumes, and no profile is selected |
| StreamSwitching.SwitchSpec | scripts/audio/sink_switcher.py:28-40 | a switch of sources is just the pass; a raising port step changes no record |
| StreamSwitching.VrFound | scripts/audio/stream_switcher.py:100-102 | the VR endpoint is looked up again in a fresh listing |
| StreamSwitching.VrSpec | scripts/audio/stream_switcher.py:99-106 | a failed lookup stops after the listing with that error; when nothing matches nothing is moved |
| StreamSwitching.VrSwitchPicks | scripts/audio/stream_switcher.py:99-102 | the VR endpoint picked is listed, matches, and is the only listed endpoint that does |
| StreamSwitching.VrSwitchMoves | scripts/audio/stream_switcher.py:99-106 | every move `switch_to_vr` runs goes to the endpoint it picked |
| StreamSwitching.SwitchOnlyMovesTo | scripts/audio/sink_switcher.py:28-40 | every move a switch runs goes to its target |
| StreamSwitching.PortStepMovesNothing | scripts/audio/sink_switcher.py:29-38 | the port step moves no connection |
| StreamSwitching.MovesNothingAppend | scripts/audio/sink_switcher.py:29-38 | two stretches without moves make one |
| StreamSwitching.ProfileMovesNothing | scripts/pactl_interface/card.py:98 | selecting a profile is not a move |
| StreamSwitching.RescanMovesNothing | scripts/pactl_interface/sink.py:15-20 | suspending and resuming is not a move |
| StreamSwitching.PassStopsEarly | scripts/audio/stream_switcher.py:112-131 | a pass that does not reach the loop runs at most the three listings |
| StreamSwitching.PassOnlyMovesTo | scripts/audio/stream_switcher.py:141 | every move a pass runs names its target |
| StreamSwitching.ListingsMoveNothing | scripts/audio/stream_switcher.py:117-130 | the listings before the loop are not moves |
| StreamSwitching.MovedPassMovesTo | scripts/audio/stream_switcher.py:133-143 | every move of a pass that reaches its loop names its target |
| StreamSwitching.ListingsThenMoves | scripts/audio/stream_switcher.py:129-143 | listings followed by moves to a target move only to that target |
| StreamSwitching.IsListed | scripts/audio/stream_switcher.py:117-121 | the search loop finds the target exactly when it is listed |
| StreamSwitching.MoveConnections | scripts/audio/stream_switcher.py:129-157 | names, filters and moves the connections with the ceiling 10 |
| StreamSwitching.StreamSwitcher.constructor | scripts/audio/stream_switcher.py:34-61 | a new switcher has no failure records and the endpoints it was given |
| StreamSwitching.StreamSwitcher.SetStreamForAllConnections | scripts/audio/stream_switcher.py:111-157 | the records and trace become those of `PassSpec`; the endpoints are kept and nothing logged is lost |
| StreamSwitching.StreamSwitcher.SelectPort | scripts/audio/sink_switcher.py:29-38 | runs the port step and changes no record |
| StreamSwitching.StreamSwitcher.SwitchToStream | scripts/audio/sink_switcher.py:28-40 | records and trace become those of `SwitchSpec`: port step, then the pass |
| StreamSwitching.StreamSwitcher.SwitchToVr | scripts/audio/stream_switcher.py:99-106 | re-picks the VR endpoint, then switches to it, as `VrSpec` says |
| StreamSwitching.StreamSwitcher.FindVr | scripts/audio/stream_switcher.py:100-102 | lists the endpoints and picks the VR match, as `VrFound` says |
| StreamSwitching.StreamSwitcher.SwitchToNormal | scripts/audio/stream_switcher.py:108-109 | switches to the normal endpoint, or does nothing when there is none |
| StreamSwitching.Open | scripts/audio/stream_switcher.py:34-61 | construction succeeds exactly when both endpoints can be resolved, and raises their error otherwise |
| AudioSwitching.Switchers | scripts/audio/audio_switcher.py:6-13 | the sink switcher exists exactly when sinks are to be changed, the source switcher exactly when sources are |
| AudioSwitching.AudioSwitcher.constructor | scripts/audio/audio_switcher.py:6-13 | holds the switchers it was given |
| AudioSwitching.AudioSwitcher.SwitchToVr | scripts/audio/audio_switcher.py:15-19 | the sink switcher switches to VR first and the source switcher after it; absent ones are skipped and a raise stops the rest |
| AudioSwitching.AudioSwitcher.SwitchToNormal | scripts/audio/audio_switcher.py:21-25 | the sink switcher switches to its normal sink first; an error it raises is returned and the source switcher is not touched; otherwise the source switcher makes its pass, and its error is the one returned; a missing switcher or one without a normal endpoint changes nothing and raises nothing |
| AudioSwitching.OpenAudio | scripts/audio/audio_switcher.py:6-13 | opening succeeds exactly when each configured switcher can be built |
| LegacySwitching.ParseLegacySink | scripts/audio_switcher.py:135-138 | a sink is named by tab field 1 and is running exactly when field 4 is 'RUNNING' |
| LegacySwitching.ParseLegacyInput | scripts/audio_switcher.py:153-157 | a sink input is `int(field 0)` with client id `int(field 2)` and no name yet |
| LegacySwitching.FirstRunning | scripts/audio_switcher.py:50 | finds the first running sink, and none exactly when no sink runs |
| LegacySwitching.MatchingSink | scripts/audio_switcher.py:61-73 | exactly one match is returned, zero matches fail, two or more raise |
| LegacySwitching.NormalSinkPattern | scripts/audio_switcher.py:44-45 | an empty normal regex counts as unset |
| LegacySwitching.MatchingSinkUnique | scripts/audio_switcher.py:61-73 | the sink found is the only one that matches |
| LegacySwitching.LegacyNormalChosen | scripts/audio_switcher.py:47-56 | without a normal regex the normal sink is the first running one (raising if none runs), with one it is the single match |
| LegacySwitching.LegacyVrChosen | scripts/audio_switcher.py:58 | the VR sink is the single listed sink its regex matches |
| LegacySwitching.LegacyFilterAgrees | scripts/audio_switcher.py:193-208 | the filter as written keeps what the guarded filter keeps when every connection is named or nothing is excluded, and raises otherwise |
| LegacySwitching.LegacyFilterRaises | scripts/audio_switcher.py:201 | a concrete unnamed sink input that makes the filter as written raise |
| LegacySwitching.LegacyPass | scripts/audio_switcher.py:102-132 | the pass lists sink inputs first; in dry run it runs at most the two listings; a raised or dry pass changes no record |
| LegacySwitching.ListingLogs | scripts/audio_switcher.py:162-182 | only the outputs of the two listings are logged, and nothing once both were taken before |
| LegacySwitching.LegacyPassMoves | scripts/audio_switcher.py:102-125 | a pass that reaches the loop lists sink inputs and clients, then moves only inputs no exclusion matches, each to the sink |
| LegacySwitching.LegacyPassKeepsRecords | scripts/audio_switcher.py:111-125 | ids stay unique, counts stay at most one past the ceiling 20, and no record is lost: every old record stays in its place with its sink input and a count no smaller |
| LegacySwitching.MoveInputs | scripts/audio_switcher.py:104-125 | names, filters and moves the sink inputs |
| LegacySwitching.PassAfterListings | scripts/audio_switcher.py:102-132 | the pass after its listings equals `LegacyPass` |
| LegacySwitching.LegacyAudioSwitcher.constructor | scripts/audio_switcher.py:32-59 | a new switcher remembers the sinks listing, has logged it, and has no records |
| LegacySwitching.LegacyAudioSwitcher.List | scripts/audio_switcher.py:140-145 | a listing runs its command, remembers the output, and logs it only the first time |
| LegacySwitching.LegacyAudioSwitcher.ListInputsAndClients | scripts/audio_switcher.py:103-104 | lists sink inputs and then, if they parse, clients, remembering both outputs |
| LegacySwitching.LegacyAudioSwitcher.SetSinkForAllInputs | scripts/audio_switcher.py:102-132 | records and trace become those of `LegacyPass` |
| LegacySwitching.LegacyAudioSwitcher.SwitchToVr | scripts/audio_switcher.py:75-76 | moves everything to the VR sink |
| LegacySwitching.LegacyAudioSwitcher.SwitchToNormal | scripts/audio_switcher.py:78-79 | moves everything to the normal sink |
| LegacySwitching.OpenLegacy | scripts/audio_switcher.py:32-59 | construction succeeds exactly when both sinks can be chosen, raising the chooser's error otherwise; the switcher holds those two sinks, its settings, no failure records and the sink listing |
| SessionDaemon.CheckQuits | scripts/steamvr_daemon.py:69-96 | the daemon quits exactly when SteamVR is not running in "before" after 60 s or in "after" after `wait_after_quit` |
| SessionDaemon.CheckFollowsProbe | scripts/steamvr_daemon.py:69-96 | after a check the stage is "during" exactly when SteamVR runs, "before" is never re-entered, and a changed stage starts now |
| SessionDaemon.TickTurnsOnFirst | scripts/steamvr_daemon.py:54-60 | `turn_on` is called on the first tick only, and first |
| SessionDaemon.TickTurnOnRaises | scripts/steamvr_daemon.py:55-58 | a raising `turn_on` leaves the daemon in start-up with nothing scheduled |
| SessionDaemon.TickIterates | scripts/steamvr_daemon.py:60-67 | `turn_on_iteration` runs exactly on ticks that see SteamVR running; `turn_off` only on one that does not, and last |
| SessionDaemon.TickStops | scripts/steamvr_daemon.py:62-67 | a tick stops the daemon exactly when it turned off or a call raised |
| SessionDaemon.TickLeavesStartup | scripts/steamvr_daemon.py:55-58 | start-up is left on the first tick that does not raise and is never re-entered |
| SessionDaemon.RunTurnsOnOnce | scripts/steamvr_daemon.py:54-67 | over a whole run `turn_on` happens at most once, as the first call |
| SessionDaemon.RunTurnsOffLast | scripts/steamvr_daemon.py:65-96 | over a whole run `turn_off` happens at most once, as the last call |
| SessionDaemon.Daemon.constructor | scripts/steamvr_daemon.py:18-23 | a new daemon is in start-up, entered now |
| SessionDaemon.Daemon.UpdateStage | scripts/steamvr_daemon.py:25-28 | sets the stage and restarts its clock at now |
| SessionDaemon.Daemon.CheckStage | scripts/steamvr_daemon.py:69-96 | updates the stage as `Check` says, turning off on timeout |
| SessionDaemon.Daemon.Loop | scripts/steamvr_daemon.py:54-67 | one tick updates the state and calls as `TickStep` says, and re-arms the timer exactly when it is scheduled |
| BaseStations.DiscoveredAppend | scripts/basestation_interface/v2_interface.py:28-38 | discovery is taken advertisement by advertisement, in order |
| BaseStations.DiscoveredMembers | scripts/basestation_interface/v2_interface.py:28-38 | an address is recorded exactly when a new device's manufacturer data starts with 5d 05 00 02 |
| BaseStations.Delegate.constructor | scripts/basestation_interface/v2_interface.py:24-26 | a new delegate has no devices |
| BaseStations.Delegate.HandleDiscovery | scripts/basestation_interface/v2_interface.py:28-38 | appends the address of a new base station and nothing else |
| BaseStations.ClassifyV2 | scripts/basestation_interface/v2_interface.py:49-73 | permission errors, failed passive scans and failed active scans get their own exception, in that order of precedence; any other error is re-raised |
| BaseStations.ClassifyOriginal | scripts/basestation_interface.py:50-63 | the original interface singles out only the permission error |
| BaseStations.ClassifyAgrees | scripts/basestation_interface/v2_interface.py:49-73 | the two interfaces raise the same exactly unless v2 explains a failed passive or active scan |
| BaseStations.ScanResult | scripts/basestation_interface/v2_interface.py:75-79 | a scan succeeds exactly when no error was raised and at least one base station was found, and raises when none was |
| BaseStations.Resolve | scripts/basestation_interface.py:79-87 | TOGGLE becomes ON exactly when the state read is b'\x00', and OFF otherwise |
| BaseStations.Reached | scripts/basestation_interface/v2_interface.py:84-87 | an attempt gets through the devices before the first refused connection |
| BaseStations.AttemptFailure | scripts/basestation_interface/v2_interface.py:81-102 | an attempt fails exactly when some device refuses the connection |
| BaseStations.SwitchEventsLength | scripts/basestation_interface/v2_interface.py:84-102 | each device reached is connected and disconnected, plus one write for ON or OFF outside dry run |
| BaseStations.SwitchEventsOnly | scripts/basestation_interface/v2_interface.py:81-102 | switching touches only found devices, reads nothing, and writes only 0x01 (ON) or 0x00 (OFF) at handle 0x12, never in dry run |
| BaseStations.SwitchEventsReach | scripts/basestation_interface/v2_interface.py:84-102 | every device before the first refusal is connected, written and disconnected |
| BaseStations.ToggleDecidesOnFirst | scripts/basestation_interface.py:71-102 | ON and OFF switch as in v2; TOGGLE reads only the first device and gives every device the state it decided |
| BaseStations.SwitchEventsFrom | scripts/basestation_interface/v2_interface.py:84-102 | one device's events come before those of the devices after it |
| BaseStations.OriginalFirstStep | scripts/basestation_interface.py:74-102 | the original attempt reads the first device for a TOGGLE, then switches the rest |
| BaseStations.FirstSuccess | scripts/basestation_interface/v2_interface.py:109-114 | returning on first success stops at the first successful attempt |
| BaseStations.AttemptLoopMeaning | scripts/basestation_interface/v2_interface.py:105-126 | the loop raises exactly when no attempt succeeded, then with the last error; returning on first success calls at most `max_attempts` times; `try_all` calls exactly `max_attempts` times |
| BaseStations.ScanFoundMeaning | scripts/basestation_interface/v2_interface.py:105-129 | with no attempt (`attempt_count_scan <= 0`) the loop raises and the known base stations stay as they were; otherwise they are known exactly when the loop did not raise, and are those of a successful scan |
| BaseStations.ReachedAt | scripts/basestation_interface/v2_interface.py:84-87 | an attempt that stops at device i reached i devices and fails with that device's error |
| BaseStations.FirstSuccessIs | scripts/basestation_interface/v2_interface.py:109-114 | when attempt k is the first success, the loop stops there |
| BaseStations.LoopSucceeded | scripts/basestation_interface/v2_interface.py:124-126 | after a success the loop does not raise |
| BaseStations.LoopFailed | scripts/basestation_interface/v2_interface.py:124-126 | when every attempt failed the loop raises the last error, and `raise None` after zero attempts |
| BaseStations.TallyMeaning | scripts/basestation_interface/v2_interface.py:106-120 | no success is counted exactly when every attempt failed, and the last error is then the last attempt's |
| BaseStations.TallyStep | scripts/basestation_interface/v2_interface.py:115-120 | one more attempt counts a success or replaces the last error |
| BaseStations.LoopResult | scripts/basestation_interface/v2_interface.py:124-126 | the loop's outcome follows from its counters |
| BaseStations.PowerInterface.constructor | scripts/basestation_interface.py:20-23 | a new interface knows no devices |
| BaseStations.PowerInterface.Scan | scripts/basestation_interface.py:25-69 | the devices become the scan's base stations (none when it raised), with the original error mapping |
| BaseStations.PowerInterface.Action | scripts/basestation_interface.py:71-102 | the device loop leaves the device list alone, extends the radio trace as `AttemptEvents` says, and fails at the first refused connection |
| BaseStations.PowerInterface.SwitchDevice | scripts/basestation_interface.py:75-102 | connect; read and decide for a TOGGLE; write unless in dry run; disconnect |
| BaseStations.PowerInterface.RobustAction | scripts/basestation_interface.py:104-131 | scans until one succeeds, the devices left as before when no scan is attempted; if none succeeds, raises its error and touches no device; otherwise makes every switch attempt and raises exactly when none succeeded |
| BaseStations.PowerInterface.ScanAttempts | scripts/basestation_interface.py:105-129 | the scan loop returns on the first successful scan; with no attempt it raises and the devices are those from before |
| BaseStations.PowerInterface.SwitchAttempts | scripts/basestation_interface.py:131 | the switch loop makes every attempt |
| BaseStations.PowerInterface.AttemptAll | scripts/basestation_interface.py:105-126 | the `try_all` loop makes exactly `max_attempts` attempts and keeps the counters |
| BaseStations.PowerInterface.NextAttempt | scripts/basestation_interface.py:110-122 | one call extends the trace and the counters |
| BaseStations.V2Interface.constructor | scripts/basestation_interface/v2_interface.py:16-19 | a new interface knows no devices |
| BaseStations.V2Interface.Scan | scripts/basestation_interface/v2_interface.py:21-79 | the devices become the scan's base stations (none when it raised), with the v2 error mapping |
| BaseStations.V2Interface.ActionAttempt | scripts/basestation_interface/v2_interface.py:81-102 | the device loop extends the trace as `AttemptEvents` says and fails at the first refused connection |
| BaseStations.V2Interface.SwitchDevice | scripts/basestation_interface/v2_interface.py:85-102 | connect, write unless in dry run, disconnect |
| BaseStations.V2Interface.Action | scripts/basestation_interface/v2_interface.py:104-131 | scans until one succeeds, the devices left as before when no scan is attempted, then makes every switch attempt, raising exactly when a loop had no success |
| BaseStations.V2Interface.ScanAttempts | scripts/basestation_interface/v2_interface.py:105-129 | the scan loop returns on the first successful scan; with no attempt it raises and the devices are those from before |
| BaseStations.V2Interface.SwitchAttempts | scripts/basestation_interface/v2_interface.py:131 | the switch loop makes every attempt |
| BaseStations.V2Interface.AttemptAll | scripts/basestation_interface/v2_interface.py:105-126 | the `try_all` loop makes exactly `max_attempts` attempts and keeps the counters |
| BaseStations.V2Interface.NextAttempt | scripts/basestation_interface/v2_interface.py:110-122 | one call extends the trace and the counters |
| Lighthouse.LittleEndianRoundTrip | scripts/basestation_interface/lhctrl.py:75 | `to_bytes(n, 'little')` loses nothing for a value that fits |
| Lighthouse.BigEndianRoundTrip | scripts/basestation_interface/lhctrl.py:74 | `to_bytes(n, 'big')` loses nothing for a value that fits |
| Lighthouse.ToBytes | scripts/basestation_interface/lhctrl.py:69-75 | a conversion succeeds exactly for values that fit, and raises the negative or too-big overflow otherwise |
| Lighthouse.MakeUpCmd | scripts/basestation_interface/lhctrl.py:66-76 | the command exists exactly when cmd2 fits a byte, off_timeout 16 bits and lh_id 32 bits; it is 20 bytes, 0x12 first, then cmd2 or 0x02, and ends in twelve zero bytes |
| Lighthouse.ParseCmd | scripts/basestation_interface/lhctrl.py:42-45 | a wake-up command is recognised by its length, header and zero tail |
| Lighthouse.MakeUpCmdRoundTrip | scripts/basestation_interface/lhctrl.py:66-76 | decoding a command gives back lh_id, off_timeout and the header byte |
| Lighthouse.ArgsCheck | scripts/basestation_interface/lhctrl.py:78-88 | a B or C id without its MAC is refused, in that order; a ping sleep of 0.75 of the timeout or more is refused when both are set |
| Lighthouse.CallsFromMeaning | scripts/basestation_interface/lhctrl.py:121-138 | from any point the loop makes at most the tries left, retrying only after a disconnect error |
| Lighthouse.ConnectRetries | scripts/basestation_interface/lhctrl.py:119-138 | `connect` makes between 1 and max(try_count, 1) calls, retries only disconnect errors, and succeeds exactly when the last call connected |
| Lighthouse.Connects | scripts/basestation_interface/lhctrl.py:125 | every call connects to the given MAC |
| Lighthouse.Radio.ConnectLoop | scripts/basestation_interface/lhctrl.py:119-138 | the retry loop connects as often as `ConnectCalls` says and raises as `ConnectError` says |
| Lighthouse.Radio.HandleIo | scripts/basestation_interface/lhctrl.py:152-159 | connect, then write and read the handle, then disconnect, unless connecting raised |
| Lighthouse.Radio.Shutdown | scripts/basestation_interface/lhctrl.py:187-198 | the radio events and error are those of `ShutdownRun` |
| Lighthouse.IoWrites | scripts/basestation_interface/lhctrl.py:152-159 | the only write is the command to the handle, and it happens exactly when connecting succeeded |
| Lighthouse.ShutdownWritesOffCommands | scripts/basestation_interface/lhctrl.py:187-198 | every write tells B, or C only when a C id is given, to switch off after one second; without error both were written |
| Orchestrator.KeywordsDisjoint | scripts/steamvr_utils.py:83-88 | no keyword belongs to two actions |
| Orchestrator.LastMatchIsOnly | scripts/steamvr_utils.py:116-119 | the selection loop finds an action exactly when the keyword is one of its keywords |
| Orchestrator.SelectionMeaning | scripts/steamvr_utils.py:83-119 | each accepted keyword selects its one action, and an unknown one selects nothing |
| Orchestrator.SelectAction | scripts/steamvr_utils.py:116-119 | the loop assigning `selected_action` computes the selection |
| Orchestrator.KindFor | scripts/steamvr_utils.py:31-40 | 'v1', 'v2' and 'cmd' select their interface, and any other type raises |
| Orchestrator.Dispatch | scripts/steamvr_utils.py:45-53 | ON, OFF and DAEMON dispatch to their operation; anything else, including CONFIG_HELP, raises |
| Orchestrator.SteamvrUtils.constructor | scripts/steamvr_utils.py:22-43 | holds the configuration and the collaborators it was given, with nothing done yet |
| Orchestrator.SteamvrUtils.SetPower | scripts/steamvr_utils.py:62-63 | powers the base stations when an interface exists and leaves audio alone; the error is the interface's; a v2 interface ends with the devices the scan loop leaves (those from before when it makes no attempt, else the first successful scan's or none) and the radio events of every switch attempt, and is untouched when an attempt count cannot be read |
| Orchestrator.SteamvrUtils.TurnOn | scripts/steamvr_utils.py:68-75 | base stations go ON before audio goes to VR, each only when configured; a power failure is returned and leaves audio alone; otherwise the error is the VR pass's, whose records and commands the switcher takes on; the v2 interface ends as after an ON action |
| Orchestrator.SteamvrUtils.TurnOff | scripts/steamvr_utils.py:59-66 | base stations go OFF before audio goes back to normal, each only when configured; a power failure is returned and leaves audio alone; otherwise the error is the normal pass's; the v2 interface ends as after an OFF action |
| Orchestrator.SteamvrUtils.TurnOnIteration | scripts/steamvr_utils.py:77-79 | only audio is switched to VR, and base stations are never touched |
| Orchestrator.SteamvrUtils.Perform | scripts/steamvr_utils.py:45-57 | an unknown action or CONFIG_HELP raises without changing anything; DAEMON records the daemon start and changes nothing else; ON does exactly what `turn_on` does and OFF exactly what `turn_off` does: steps, error, audio switcher and v2 interface |
| Orchestrator.Open | scripts/steamvr_utils.py:22-43 | construction succeeds exactly when the flags read, an enabled base-station type is known and, with audio enabled, both sinks can be chosen; each failure raises its own error, in the source's order; an interface exists exactly when base stations are enabled, has the configured kind and starts with no devices; the audio switcher exists exactly when enabled and holds the chosen sinks with no records |

## Left out

- Running commands, Bluetooth, the clock and sleeps are not modelled. `utlis.run`, `subprocess`, bluepy's `Scanner`/`Peripheral` and `time.sleep` do not appear. Their results are parameters: exit codes and outputs, scan outcomes, refused connections, the state byte read, connect outcomes per call and `now`. Only the card-rescan pause of the sink switcher is a trace event (`Pause`). The 0.5 s sleep after each attempt in `attempt_loop` and lhctrl's `time.sleep(try_pause)` between connect tries are not recorded.
- Log messages are not modelled, except the output logger's map and its first-time print. They only report.
- Regular expressions from the configuration are not implemented. `re.match` with such a pattern is the `Matcher` parameter, so every property holds for any engine. The fixed patterns of card.py are written out as functions.
- In the fixed patterns of card.py, `.` does not match a newline and `$` may match before a final newline. The model lets `.` match every character and `$` only the end. The two agree on the listing's lines, since `splitlines()` leaves no line break in them.
- Text.ParseInt accepts ASCII digits only. Python's `int()` also accepts the decimal digits of other scripts; `pactl` prints ASCII ids.
- A pass reads the clock once, and every `try_again` and `Failure` of that pass uses that instant. The source reads `time.time()` per connection, milliseconds apart.
- Floating-point times are not modelled. The 0.5 s cooldown and the rescan pause are whole milliseconds. `card_rescan_pause_time` accepts only whole seconds (a fractional YAML number is not representable). `argsCheck` uses reals for the ping ratio.
- `create_daemon` is left out: it double-forks, uses `killall` and runs a `threading.Timer`. One `loop` is one method call. `is_steamvr_running` is the tick's `running` input. The start-up `time.sleep` is left out.
- The v1 and cmd base-station interfaces (`basestation_interface/v1_interface.py`, `cmd_interface.py`) are not part of this model. Their outcome is a parameter of `Orchestrator.PowerOutcome`.
- Orchestrator.PowerOutcome reads both attempt counts before scanning. The source reads `attempt_count_set` only after the scan loop. A configuration error in that count is therefore reported before, rather than after, a scan failure, and no scan is made then: `SetPower` and `Orchestrator.V2Powered` leave the devices unchanged, where the source would hold the devices of the scan that preceded the failed read.
- BaseStations.Link: only connecting can fail. A `readCharacteristic`, `writeCharacteristic` or `disconnect` that raises is not modelled. In the source such an exception ends the attempt at that device with no disconnect, and `attempt_loop` counts it as a failed attempt. The model's device traces therefore always end in a disconnect. The same holds for lhctrl's `hndl_io` (Lighthouse.Radio.HandleIo), where only `connect` can raise.
- Lighthouse: lhctrl's `loop`, signal handlers, `argsProcess` (hex parsing of ids) and `main` are left out. They are timing, OS signals and argument parsing. `writeCharacteristic`/`readCharacteristic` results are not inspected by the source and are not modelled.
- `config_helper.py` is left out: it only prints help. `Config.__init__` (YAML loading) and `log_path` are left out: they do file-system work.
- `rescan_all_cards` in card.py is never called by the modelled code and is left out.
- StreamSwitching.Matching: `find_matching_stream` returns None for zero matches, and `switch_to_vr` and the constructor then dereference `.name`, which raises. The model keeps the None: the VR switch moves nothing, and construction leaves the endpoint unset.
- StreamSwitching.GetPort: `get_port`'s `NotImplementedError` for other device types cannot arise. `Device` has only the two values the callers pass.
- LegacySwitching: `set_default_sink` (scripts/audio_switcher.py:90-100) is dead code; its only call is commented out. `log_state` only logs.
- Snapshot inconsistencies are modelled as evidently intended, not as the crash the code would hit:
  - `SinkSwitcher` defines no `get_move_stream_connection_command`; the model uses 'move-sink-input'.
  - `StreamType` has no `source` member; the model uses a `Sources` role.
  - `utlis.run` has no `assert_success` parameter; a failed listing raises and a failed move is a failure record.
  - The sink and sink-input listings are handed the switcher instead of its output logger; the model logs to the logger.
  - `get_default_stream_name` sets a regex only for sinks; the model uses `Default Source: ` for sources.
  - The configuration has no accessor for the sink/source change flags, the source regexes or the per-device product regexes; the model reads them from `AudioSettings`.
  - The legacy switcher calls `config.excluded_clients_regexes()`, which does not exist; the model uses the audio exclusion list.
  - `basestation_type`, `basestation_bluetooth_interface` and `basestation_scan_type` have no accessor either; the type is a parameter, and the other two only concern bluepy.
  - `source_output.py` calls a `StreamConnection._get_all` that does not exist; source outputs are listed like sink inputs.
  - `STARTUP = enum.auto` (without the call) is still a distinct stage, which is what the daemon relies on.
- SessionDaemon: the 60 s limit of the "before" stage is in milliseconds, like `wait_after_quit`. An exception from `turn_on_iteration` or `turn_off` is modelled as stopping the timer, which is what an uncaught exception in a `threading.Timer` callback does.

## Findings

| source | as written | input that shows it | evidently intended | confidence | as-written member | corrected member |
|---|---|---|---|---|---|---|
| scripts/pactl_interface/card.py:57-60 | `Port.__eq__` compares `self.card == self.card`, which always holds, so only port names are compared | two cards named `alsa_card.a` and `alsa_card.b`, each with a port `analog-output`: the ports compare equal | ports are equal when their names and their cards are equal | not executed | Cards.PortsOfDifferentCardsEqual | Cards.PortsEqualMeansSameCard |
| scripts/audio_switcher.py:193-208 | the legacy filter calls `re.match(regex, sink_input.client_name)` even when no client matched and the name is still None, which raises a TypeError | one sink input whose client id has no client, and one exclusion pattern | an unnamed connection is kept, as the newer switcher's filter does with its `is not None` guard | not executed | LegacySwitching.LegacyFilterRaises | StreamSwitching.KeptMembers |
