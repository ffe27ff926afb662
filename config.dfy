/**
 * The configuration accessors of `scripts/config.py`: lookups with defaults over the
 * already-loaded YAML document. Loading the file and creating the log directory are
 * not modelled; the document is a parameter.
 */
module Config {
  import opened Wrappers
  import opened Text

  /**
   * A YAML value as `yaml.load` returns it (fractional numbers are not modelled). A
   * mapping keeps its keys in document order beside the key-to-value lookup; a loaded
   * mapping lists each key of its lookup exactly once (`OrderedMap`).
   */
  datatype Yaml =
    | YNull
    | YBool(b: bool)
    | YInt(i: int)
    | YStr(s: string)
    | YList(items: seq<Yaml>)
    | YMap(keys: seq<string>, entries: map<string, Yaml>)

  /** A mapping's key order and lookup agree: every key listed once, and exactly the lookup's keys. */
  predicate OrderedMap(keys: seq<string>, entries: map<string, Yaml>)
  {
    (forall i, j :: 0 <= i < j < |keys| ==> keys[i] != keys[j]) &&
    (forall k :: k in entries ==> k in keys) && (forall i :: 0 <= i < |keys| ==> keys[i] in entries)
  }

  /** The exceptions the accessors can raise on a malformed document. */
  datatype ConfigError =
    | NotIterable(section: string)      // `key in section` on a null, boolean or number
    | NotSubscriptable(section: string) // `section[key]` on a string or a list
    | NotConvertible(key: string)       // `int(...)`, `float(...)` or `list(...)` refused the value

  /** The loaded document together with the command line's `--dry-run` flag. */
  datatype Settings = Settings(data: map<string, Yaml>, dryRunOverwrite: bool)

  /** Python's truthiness, as `bool(value)` computes it. */
  predicate Truthy(v: Yaml)
  {
    match v
    case YNull => false
    case YBool(b) => b
    case YInt(i) => i != 0
    case YStr(s) => s != ""
    case YList(items) => items != []
    case YMap(_, entries) => entries != map[]
  }

  /**
   * `'section' in data and 'key' in data['section']`, then `data['section']['key']`:
   * `Success(None)` when either test fails, the raised exception when the section is
   * not a mapping and the membership test or the subscript raises.
   */
  function Lookup(data: map<string, Yaml>, section: string, key: string): (r: Result<Option<Yaml>, ConfigError>)
    ensures section !in data ==> r == Success(None)
    ensures section in data && data[section].YMap? ==>
              r == Success(if key in data[section].entries then Some(data[section].entries[key]) else None)
  {
    if section !in data then Success(None)
    else match data[section]
      case YMap(_, entries) => Success(if key in entries then Some(entries[key]) else None)
      case YStr(s) => if Contains(s, key) then Failure(NotSubscriptable(section)) else Success(None)
      case YList(items) => if YStr(key) in items then Failure(NotSubscriptable(section)) else Success(None)
      case _ => Failure(NotIterable(section))
  }

  /** `int(value)` */
  function ToInt(key: string, v: Yaml): Result<int, ConfigError>
  {
    match v
    case YInt(i) => Success(i)
    case YBool(b) => Success(if b then 1 else 0)
    case YStr(s) => if ParseInt(s).Some? then Success(ParseInt(s).value) else Failure(NotConvertible(key))
    case _ => Failure(NotConvertible(key))
  }

  /** A flag: `bool(value)` when present, `default` otherwise. */
  function Flag(data: map<string, Yaml>, section: string, key: string, default: bool): (r: Result<bool, ConfigError>)
    ensures Lookup(data, section, key) == Success(None) ==> r == Success(default)
    ensures Lookup(data, section, key).Success? && Lookup(data, section, key).value.Some? ==>
              r == Success(Truthy(Lookup(data, section, key).value.value))
  {
    match Lookup(data, section, key)
    case Failure(e) => Failure(e)
    case Success(None) => Success(default)
    case Success(Some(v)) => Success(Truthy(v))
  }

  /** A count: `int(value)` when present, `default` otherwise. */
  function Count(data: map<string, Yaml>, section: string, key: string, default: int): (r: Result<int, ConfigError>)
    ensures Lookup(data, section, key) == Success(None) ==> r == Success(default)
    ensures Lookup(data, section, key).Success? && Lookup(data, section, key).value.Some? ==>
              r == ToInt(key, Lookup(data, section, key).value.value)
  {
    match Lookup(data, section, key)
    case Failure(e) => Failure(e)
    case Success(None) => Success(default)
    case Success(Some(v)) => ToInt(key, v)
  }

  /** A value returned as stored: the value when present, `default` otherwise. */
  function Raw(data: map<string, Yaml>, section: string, key: string, default: Yaml): (r: Result<Yaml, ConfigError>)
    ensures Lookup(data, section, key) == Success(None) ==> r == Success(default)
    ensures Lookup(data, section, key).Success? && Lookup(data, section, key).value.Some? ==>
              r == Success(Lookup(data, section, key).value.value)
  {
    match Lookup(data, section, key)
    case Failure(e) => Failure(e)
    case Success(None) => Success(default)
    case Success(Some(v)) => Success(v)
  }

  function BasestationEnabled(c: Settings): Result<bool, ConfigError>
  {
    Flag(c.data, "basestation", "enabled", false)
  }

  function BasestationAttemptCountScan(c: Settings): Result<int, ConfigError>
  {
    Count(c.data, "basestation", "attempt_count_scan", 5)
  }

  function BasestationAttemptCountSet(c: Settings): Result<int, ConfigError>
  {
    Count(c.data, "basestation", "attempt_count_set", 5)
  }

  function AudioEnabled(c: Settings): Result<bool, ConfigError>
  {
    Flag(c.data, "audio", "enabled", false)
  }

  function AudioVrSinkRegex(c: Settings): Result<Yaml, ConfigError>
  {
    Raw(c.data, "audio", "vr_sink_regex", YStr(".*hdmi."))
  }

  function AudioNormalSinkRegex(c: Settings): Result<Yaml, ConfigError>
  {
    Raw(c.data, "audio", "normal_sink_regex", YNull)
  }

  /**
   * `list(value)`: the items of a list, the one-character strings of a string, the keys
   * of a mapping in document order; a null, boolean or number is not iterable.
   */
  function ToList(key: string, v: Yaml): (r: Result<seq<Yaml>, ConfigError>)
    ensures r.Success? <==> v.YList? || v.YStr? || v.YMap?
    ensures v.YList? ==> r == Success(v.items)
    ensures v.YStr? ==>
              r.Success? && |r.value| == |v.s| && forall k :: 0 <= k < |v.s| ==> r.value[k] == YStr([v.s[k]])
    ensures v.YMap? ==>
              r.Success? && |r.value| == |v.keys| && forall k :: 0 <= k < |v.keys| ==> r.value[k] == YStr(v.keys[k])
  {
    match v
    case YList(items) => Success(items)
    case YStr(s) => Success(seq(|s|, k requires 0 <= k < |s| => YStr([s[k]])))
    case YMap(keys, _) => Success(seq(|keys|, k requires 0 <= k < |keys| => YStr(keys[k])))
    case _ => Failure(NotConvertible(key))
  }

  /**
   * On a loaded mapping, `bool(value)` and `list(value)` agree: the mapping is truthy exactly
   * when it yields keys, and it yields one per entry.
   */
  lemma {:induction false} MapTruthyKeys(key: string, keys: seq<string>, entries: map<string, Yaml>)
    requires OrderedMap(keys, entries)
    ensures Truthy(YMap(keys, entries)) <==> |ToList(key, YMap(keys, entries)).value| > 0
    ensures |ToList(key, YMap(keys, entries)).value| == |entries|
  {
    DistinctCount(keys, entries.Keys);
  }

  /** A repeat-free list of exactly a set's members is as long as the set. */
  lemma {:induction false} DistinctCount(keys: seq<string>, ks: set<string>)
    requires forall i, j :: 0 <= i < j < |keys| ==> keys[i] != keys[j]
    requires forall k :: k in ks <==> k in keys
    ensures |keys| == |ks|
    decreases |keys|
  {
    if keys != [] {
      var last := keys[|keys| - 1];
      var init := keys[..|keys| - 1];
      assert forall k :: k in init ==> k in keys && k != last;
      assert forall k :: k in ks - {last} <==> k in init;
      DistinctCount(init, ks - {last});
    } else {
      assert ks == {};
    }
  }

  function AudioExcludedClientsRegexes(c: Settings): Result<seq<Yaml>, ConfigError>
  {
    match Lookup(c.data, "audio", "excluded_clients_regexes")
    case Failure(e) => Failure(e)
    case Success(None) => Success([])
    case Success(Some(v)) => ToList("excluded_clients_regexes", v)
  }

  function AudioSetCardPort(c: Settings): Result<bool, ConfigError>
  {
    Flag(c.data, "audio", "set_card_port", true)
  }

  function AudioCardPortProductNameRegex(c: Settings): Result<Yaml, ConfigError>
  {
    Raw(c.data, "audio", "card_port_product_name_regex", YStr("(Index HMD)|(VIVE)"))
  }

  /** `float(value)` in milliseconds, for whole or boolean seconds (10.0 s by default). */
  function AudioCardRescanPauseTimeMs(c: Settings): Result<int, ConfigError>
  {
    match Lookup(c.data, "audio", "card_rescan_pause_time")
    case Failure(e) => Failure(e)
    case Success(None) => Success(10000)
    case Success(Some(v)) =>
      match ToInt("card_rescan_pause_time", v)
      case Failure(e) => Failure(e)
      case Success(seconds) => Success(seconds * 1000)
  }

  function DaemonWatchProcessName(c: Settings): Result<Yaml, ConfigError>
  {
    Raw(c.data, "daemon", "watch_process_name", YStr("vrcompositor"))
  }

  function DaemonWaitAfterQuit(c: Settings): Result<Yaml, ConfigError>
  {
    Raw(c.data, "daemon", "wait_after_quit", YInt(40))
  }

  /** Dry run is forced by the command line, else taken from the top-level `dry_run` key. */
  function DryRun(c: Settings): (r: bool)
    ensures c.dryRunOverwrite ==> r
    ensures !c.dryRunOverwrite ==> (r <==> "dry_run" in c.data && Truthy(c.data["dry_run"]))
  {
    if c.dryRunOverwrite then true
    else if "dry_run" in c.data then Truthy(c.data["dry_run"])
    else false
  }

  /** The defaults every accessor falls back to when the document says nothing. */
  lemma {:induction false} Defaults(c: Settings)
    requires c.data == map[]
    ensures BasestationEnabled(c) == Success(false) && AudioEnabled(c) == Success(false)
    ensures BasestationAttemptCountScan(c) == Success(5) && BasestationAttemptCountSet(c) == Success(5)
    ensures AudioVrSinkRegex(c) == Success(YStr(".*hdmi.")) && AudioNormalSinkRegex(c) == Success(YNull)
    ensures AudioExcludedClientsRegexes(c) == Success([])
    ensures AudioSetCardPort(c) == Success(true) && AudioCardRescanPauseTimeMs(c) == Success(10000)
    ensures AudioCardPortProductNameRegex(c) == Success(YStr("(Index HMD)|(VIVE)"))
    ensures DaemonWatchProcessName(c) == Success(YStr("vrcompositor")) && DaemonWaitAfterQuit(c) == Success(YInt(40))
    ensures DryRun(c) == c.dryRunOverwrite
  {
  }

  /** The same defaults apply when the section exists but lacks the key. */
  lemma {:induction false} SectionWithoutKey(c: Settings, section: string, key: string, default: Yaml)
    requires section in c.data && c.data[section] == YMap([], map[])
    ensures Raw(c.data, section, key, default) == Success(default)
    ensures Flag(c.data, section, key, true) == Success(true)
    ensures Count(c.data, section, key, 5) == Success(5)
  {
  }
}
