/**
 * Base-station power control over Bluetooth LE: scripts/basestation_interface.py (the original
 * `BasestationPowerInterface`, with ON, OFF and TOGGLE) and
 * scripts/basestation_interface/v2_interface.py (`V2BasestationInterface`, ON and OFF).
 *
 * A scan collects the addresses of newly seen devices whose manufacturer data starts with
 * 5d 05 00 02; an action connects to every found base station in turn and writes the power
 * byte at handle 0x12 (nothing in dry run). Both wrap scanning and switching in the same retry
 * loop `attempt_loop`. The radio is not modelled: a scan is given as the advertisements it
 * reports and the management error it raises, and an attempt to switch as the set of
 * addresses that refuse the connection and the power state the first device reports.
 */
module BaseStations {
  import opened Wrappers
  import opened Text

  newtype byte = x: int | 0 <= x < 256

  /** The two interfaces that share this logic. */
  datatype Generation = Original | V2

  /** `Action`: the original interface also toggles; the v2 interface knows only ON and OFF. */
  datatype Power = On | Off | Toggle

  /** One advertisement as the scanner's delegate sees it. */
  datatype Discovery = Discovery(address: string, isNew: bool, manufacturer: Option<seq<byte>>)

  /** What a scan reports: the advertisements, then possibly a management error's text. */
  datatype ScanOutcome = ScanOutcome(events: seq<Discovery>, managementError: Option<string>)

  /** What one attempt to switch meets: addresses that refuse the connection, and the state read. */
  datatype Link = Link(refuses: set<string>, state: seq<byte>)

  /** What happens on the radio during an action. */
  datatype BleEvent =
    | Connect(address: string)
    | Read(address: string, handle: int)
    | Write(address: string, handle: int, value: byte)
    | Disconnect(address: string)

  /** The exceptions raised while scanning or switching. */
  datatype PowerError =
    | PermissionDenied                    // RuntimeError 'Missing Permissions for Bluetooth'
    | PassiveScanFailed(message: string)  // RuntimeError 'Passive bluetooth scan failed'
    | ActiveScanFailed(message: string)   // RuntimeError 'Active bluetooth scan failed'
    | ManagementError(message: string)    // the BTLEManagementError, re-raised
    | NoBasestations                      // RuntimeError 'Bluetooth scan found no Base Stations'
    | ConnectFailed(address: string)      // the connection error of one device
    | NoAttempt                           // `raise None` after zero attempts (a TypeError)

  /** Manufacturer data of a Valve base station. */
  const ManufacturerPrefix: seq<byte> := [0x5d, 0x05, 0x00, 0x02]
  /** Handle of the characteristic holding the power state. */
  const PowerHandle: int := 0x12

  const PermissionText: string := "code: 20, error: Permission Denied"
  const PassiveText: string := "Failed to execute management command 'pasvend'"
  const ActiveText: string := "Failed to execute management command 'scanend'"

  /** `handleDiscovery`'s test: a new device whose manufacturer data starts with the prefix. */
  predicate IsBasestation(d: Discovery)
  {
    d.isNew && d.manufacturer.Some? && |d.manufacturer.value| >= 4 &&
    d.manufacturer.value[..4] == ManufacturerPrefix
  }

  /** The addresses the delegate records, in discovery order. */
  function Discovered(events: seq<Discovery>): (addresses: seq<string>)
    decreases |events|
  {
    if events == [] then []
    else
      var last := events[|events| - 1];
      Discovered(events[..|events| - 1]) + (if IsBasestation(last) then [last.address] else [])
  }

  /** Discovery is taken advertisement by advertisement, in order. */
  lemma {:induction false} DiscoveredAppend(a: seq<Discovery>, b: seq<Discovery>)
    ensures Discovered(a + b) == Discovered(a) + Discovered(b)
    decreases |b|
  {
    if b == [] {
      assert a + b == a;
    } else {
      var b' := b[..|b| - 1];
      assert (a + b)[..|a + b| - 1] == a + b';
      assert (a + b)[|a + b| - 1] == b[|b| - 1];
      DiscoveredAppend(a, b');
    }
  }

  /** An address is recorded exactly when some advertisement of it passes the test. */
  lemma {:induction false} DiscoveredMembers(events: seq<Discovery>, address: string)
    ensures address in Discovered(events) <==>
              exists i :: 0 <= i < |events| && IsBasestation(events[i]) && events[i].address == address
    decreases |events|
  {
    if events != [] {
      var init := events[..|events| - 1];
      DiscoveredMembers(init, address);
      if exists i :: 0 <= i < |init| && IsBasestation(init[i]) && init[i].address == address {
        var i :| 0 <= i < |init| && IsBasestation(init[i]) && init[i].address == address;
        assert events[i] == init[i];
      }
      if exists i :: 0 <= i < |events| && IsBasestation(events[i]) && events[i].address == address {
        var i :| 0 <= i < |events| && IsBasestation(events[i]) && events[i].address == address;
        if i < |init| {
          assert init[i] == events[i];
        }
      }
    }
  }

  /** The delegate of one scan: the addresses of the base stations it has seen. */
  class Delegate {
    var devices: seq<string>

    constructor ()
      ensures devices == []
    {
      devices := [];
    }

    /** `handleDiscovery`. */
    method HandleDiscovery(d: Discovery)
      modifies this
      ensures devices == old(devices) + Discovered([d])
    {
      assert [d][..0] == [];
      if IsBasestation(d) {
        devices := devices + [d.address];
      }
    }
  }

  /** How the v2 interface turns a management error into an exception. */
  function ClassifyV2(message: string): (e: PowerError)
    ensures e == PermissionDenied <==> Contains(message, PermissionText)
    ensures e.PassiveScanFailed? <==> !Contains(message, PermissionText) && Contains(message, PassiveText)
    ensures e.ActiveScanFailed? <==>
              !Contains(message, PermissionText) && !Contains(message, PassiveText) && Contains(message, ActiveText)
    ensures e.ManagementError? || e.PassiveScanFailed? || e.ActiveScanFailed? ==> e.message == message
    ensures e.PermissionDenied? || e.PassiveScanFailed? || e.ActiveScanFailed? || e.ManagementError?
  {
    if Contains(message, PermissionText) then PermissionDenied
    else if Contains(message, PassiveText) then PassiveScanFailed(message)
    else if Contains(message, ActiveText) then ActiveScanFailed(message)
    else ManagementError(message)
  }

  /** How the original interface does it: only the permission error gets its own message. */
  function ClassifyOriginal(message: string): (e: PowerError)
    ensures e == PermissionDenied <==> Contains(message, PermissionText)
    ensures e != PermissionDenied ==> e == ManagementError(message)
  {
    if Contains(message, PermissionText) then PermissionDenied else ManagementError(message)
  }

  /** The two interfaces agree except that v2 explains failed passive and active scans. */
  lemma {:induction false} ClassifyAgrees(message: string)
    ensures ClassifyV2(message) == ClassifyOriginal(message) <==>
              Contains(message, PermissionText) || (!Contains(message, PassiveText) && !Contains(message, ActiveText))
  {
  }

  function Classify(gen: Generation, message: string): PowerError
  {
    if gen == V2 then ClassifyV2(message) else ClassifyOriginal(message)
  }

  /** `scan`: the base stations found, or the exception raised. */
  function ScanResult(gen: Generation, o: ScanOutcome): (r: Result<seq<string>, PowerError>)
    ensures r.Success? ==> r.value == Discovered(o.events) && r.value != []
    ensures r.Success? <==> o.managementError.None? && Discovered(o.events) != []
    ensures o.managementError.None? && Discovered(o.events) == [] ==> r == Failure(NoBasestations)
  {
    if o.managementError.Some? then Failure(Classify(gen, o.managementError.value))
    else if Discovered(o.events) == [] then Failure(NoBasestations)
    else Success(Discovered(o.events))
  }

  /** The byte written for a power state. */
  function PowerByte(p: Power): byte
  {
    if p == On then 0x01 else 0x00
  }

  /** The state TOGGLE switches to: ON when the first device reads b'\x00', OFF otherwise. */
  function Resolve(act: Power, state: seq<byte>): (r: Power)
    ensures r != Toggle
    ensures act != Toggle ==> r == act
    ensures act == Toggle ==> (r == On <==> state == [0])
  {
    if act != Toggle then act else if state == [0] then On else Off
  }

  /** The write for one device: none in dry run, none for an action that is neither ON nor OFF. */
  function Writes(address: string, act: Power, dryRun: bool): seq<BleEvent>
  {
    if act == Toggle || dryRun then [] else [Write(address, PowerHandle, PowerByte(act))]
  }

  /** One device switched: connect, write, disconnect. */
  function DeviceEvents(address: string, act: Power, dryRun: bool): seq<BleEvent>
  {
    [Connect(address)] + Writes(address, act, dryRun) + [Disconnect(address)]
  }

  /** One device switched by the original interface, which reads it first for a TOGGLE. */
  function OriginalDeviceEvents(address: string, act: Power, next: Power, dryRun: bool): seq<BleEvent>
  {
    [Connect(address)] + (if act == Toggle then [Read(address, PowerHandle)] else []) +
    Writes(address, next, dryRun) + [Disconnect(address)]
  }

  /** How many devices an attempt gets through before one refuses the connection. */
  function Reached(ds: seq<string>, refuses: set<string>): (k: nat)
    ensures k <= |ds|
    ensures forall i :: 0 <= i < k ==> ds[i] !in refuses
    ensures k < |ds| ==> ds[k] in refuses
    decreases |ds|
  {
    if ds == [] || ds[0] in refuses then 0 else 1 + Reached(ds[1..], refuses)
  }

  /** Switching `ds` in order to `act`, up to the first device that refuses the connection. */
  function SwitchEvents(ds: seq<string>, act: Power, refuses: set<string>, dryRun: bool): seq<BleEvent>
    decreases |ds|
  {
    if ds == [] || ds[0] in refuses then []
    else DeviceEvents(ds[0], act, dryRun) + SwitchEvents(ds[1..], act, refuses, dryRun)
  }

  /**
   * The radio events of one attempt to switch `ds`. In the original interface a TOGGLE reads
   * the first device, and the state it decides is then used for every device.
   */
  function AttemptEvents(gen: Generation, ds: seq<string>, act: Power, link: Link, dryRun: bool): seq<BleEvent>
  {
    if gen == Original && act == Toggle && ds != [] && ds[0] !in link.refuses then
      var next := Resolve(act, link.state);
      [Connect(ds[0]), Read(ds[0], PowerHandle)] + Writes(ds[0], next, dryRun) + [Disconnect(ds[0])] +
      SwitchEvents(ds[1..], next, link.refuses, dryRun)
    else SwitchEvents(ds, act, link.refuses, dryRun)
  }

  /** The exception of one attempt to switch `ds`: the first refused connection, if any. */
  function AttemptFailure(ds: seq<string>, link: Link): (r: Option<PowerError>)
    ensures r.None? <==> forall i :: 0 <= i < |ds| ==> ds[i] !in link.refuses
  {
    var k := Reached(ds, link.refuses);
    if k < |ds| then Some(ConnectFailed(ds[k])) else None
  }

  /** Each device an attempt reaches costs two radio events, plus one for its write. */
  lemma {:induction false} SwitchEventsLength(ds: seq<string>, act: Power, refuses: set<string>, dryRun: bool)
    ensures |SwitchEvents(ds, act, refuses, dryRun)| == (if act == Toggle || dryRun then 2 else 3) * Reached(ds, refuses)
    decreases |ds|
  {
    if ds != [] && ds[0] !in refuses {
      SwitchEventsLength(ds[1..], act, refuses, dryRun);
    }
  }

  /**
   * Switching touches only the given devices, never reads, and writes nothing but the chosen
   * state's byte at handle 0x12, and that only for ON or OFF outside dry run.
   */
  lemma {:induction false} SwitchEventsOnly(ds: seq<string>, act: Power, refuses: set<string>, dryRun: bool)
    ensures forall e :: e in SwitchEvents(ds, act, refuses, dryRun) ==> e.address in ds && !e.Read?
    ensures forall e :: e in SwitchEvents(ds, act, refuses, dryRun) && e.Write? ==>
              !dryRun && act != Toggle && e == Write(e.address, PowerHandle, PowerByte(act))
    decreases |ds|
  {
    if ds != [] && ds[0] !in refuses {
      var rest := ds[1..];
      SwitchEventsOnly(rest, act, refuses, dryRun);
      assert SwitchEvents(ds, act, refuses, dryRun) == DeviceEvents(ds[0], act, dryRun) + SwitchEvents(rest, act, refuses, dryRun);
      forall e | e in SwitchEvents(rest, act, refuses, dryRun)
        ensures e.address in ds
      {
        assert e.address in rest;
      }
    }
  }

  /**
   * Every device before the first refusal is connected and disconnected, and for ON or OFF
   * outside dry run written the chosen state's byte.
   */
  lemma {:induction false} SwitchEventsReach(ds: seq<string>, act: Power, refuses: set<string>, dryRun: bool, i: nat)
    requires i < Reached(ds, refuses)
    ensures Connect(ds[i]) in SwitchEvents(ds, act, refuses, dryRun)
    ensures Disconnect(ds[i]) in SwitchEvents(ds, act, refuses, dryRun)
    ensures !dryRun && act != Toggle ==> Write(ds[i], PowerHandle, PowerByte(act)) in SwitchEvents(ds, act, refuses, dryRun)
    decreases i
  {
    var rest := ds[1..];
    assert SwitchEvents(ds, act, refuses, dryRun) == DeviceEvents(ds[0], act, dryRun) + SwitchEvents(rest, act, refuses, dryRun);
    if i > 0 {
      SwitchEventsReach(rest, act, refuses, dryRun, i - 1);
      assert ds[i] == rest[i - 1];
    }
  }

  /**
   * With ON or OFF the original interface switches exactly like the v2 interface. A TOGGLE
   * reads the first reachable device and then switches exactly as the v2 interface would
   * switch to the state it decided: ON when that device read b'\x00', OFF otherwise.
   */
  lemma {:induction false} ToggleDecidesOnFirst(ds: seq<string>, act: Power, link: Link, dryRun: bool)
    ensures act != Toggle ==> AttemptEvents(Original, ds, act, link, dryRun) == AttemptEvents(V2, ds, act, link, dryRun)
    ensures act == Toggle && Reached(ds, link.refuses) == 0 ==> AttemptEvents(Original, ds, act, link, dryRun) == []
    ensures act == Toggle && Reached(ds, link.refuses) > 0 ==>
              AttemptEvents(Original, ds, act, link, dryRun) ==
                [Connect(ds[0]), Read(ds[0], PowerHandle)] +
                AttemptEvents(V2, ds, Resolve(act, link.state), link, dryRun)[1..]
  {
    if act == Toggle && ds != [] && ds[0] !in link.refuses {
      var next := Resolve(act, link.state);
      var rest := SwitchEvents(ds[1..], next, link.refuses, dryRun);
      var v2 := AttemptEvents(V2, ds, next, link, dryRun);
      assert v2 == [Connect(ds[0])] + (Writes(ds[0], next, dryRun) + [Disconnect(ds[0])] + rest);
      assert v2[1..] == Writes(ds[0], next, dryRun) + [Disconnect(ds[0])] + rest;
    }
  }

  /** One step of an attempt: a reached device's events, then those of the devices after it. */
  lemma {:induction false} SwitchEventsFrom(ds: seq<string>, i: nat, act: Power, refuses: set<string>, dryRun: bool)
    requires i <= |ds|
    ensures i < |ds| && ds[i] !in refuses ==>
              SwitchEvents(ds[i..], act, refuses, dryRun) ==
                DeviceEvents(ds[i], act, dryRun) + SwitchEvents(ds[i + 1..], act, refuses, dryRun)
    ensures i == |ds| || ds[i] in refuses ==> SwitchEvents(ds[i..], act, refuses, dryRun) == []
  {
    if i < |ds| {
      assert ds[i..][0] == ds[i];
      assert ds[i..][1..] == ds[i + 1..];
    } else {
      assert ds[i..] == [];
    }
  }

  /** The first step of an original attempt, which reads the first device for a TOGGLE. */
  lemma {:induction false} OriginalFirstStep(ds: seq<string>, act: Power, link: Link, dryRun: bool)
    requires ds != [] && ds[0] !in link.refuses
    ensures AttemptEvents(Original, ds, act, link, dryRun) ==
              OriginalDeviceEvents(ds[0], act, Resolve(act, link.state), dryRun) +
              SwitchEvents(ds[1..], Resolve(act, link.state), link.refuses, dryRun)
  {
  }

  /**
   * `attempt_loop`: the index of the first attempt that succeeds among the first `n`, or `n`.
   * `outcome(i)` is the exception attempt `i` raises, `None` when it succeeds.
   */
  function FirstSuccess(outcome: nat -> Option<PowerError>, n: nat): (k: nat)
    ensures k <= n
    ensures forall i :: 0 <= i < k ==> outcome(i).Some?
    ensures k < n ==> outcome(k).None?
    decreases n
  {
    if n == 0 then 0
    else if FirstSuccess(outcome, n - 1) < n - 1 then FirstSuccess(outcome, n - 1)
    else if outcome(n - 1).None? then n - 1
    else n
  }

  function Attempts(maxAttempts: int): nat
  {
    if maxAttempts < 0 then 0 else maxAttempts
  }

  /** How many times `attempt_loop` calls its function. */
  function LoopCalls(outcome: nat -> Option<PowerError>, maxAttempts: int, tryAll: bool): nat
  {
    var n := Attempts(maxAttempts);
    if tryAll || FirstSuccess(outcome, n) == n then n else FirstSuccess(outcome, n) + 1
  }

  /** What `attempt_loop` raises: nothing after a success, else the last error (or `None`). */
  function LoopError(outcome: nat -> Option<PowerError>, maxAttempts: int): Option<PowerError>
  {
    var n := Attempts(maxAttempts);
    if FirstSuccess(outcome, n) < n then None
    else if n == 0 then Some(NoAttempt)
    else outcome(n - 1)
  }

  /**
   * Both modes raise exactly when no attempt succeeded, and then the error of the last attempt;
   * returning on the first success calls the function up to and including that attempt, trying
   * all calls it exactly `max_attempts` times.
   */
  lemma {:induction false} AttemptLoopMeaning(outcome: nat -> Option<PowerError>, maxAttempts: int, tryAll: bool)
    ensures var n := Attempts(maxAttempts);
            (LoopError(outcome, maxAttempts).None? <==> exists i :: 0 <= i < n && outcome(i).None?) &&
            (LoopError(outcome, maxAttempts).Some? && n > 0 ==> LoopError(outcome, maxAttempts) == outcome(n - 1)) &&
            (tryAll ==> LoopCalls(outcome, maxAttempts, tryAll) == n) &&
            (!tryAll ==> LoopCalls(outcome, maxAttempts, tryAll) <= n &&
                         (forall i :: 0 <= i < LoopCalls(outcome, maxAttempts, tryAll) - 1 ==> outcome(i).Some?)) &&
            (!tryAll && LoopError(outcome, maxAttempts).None? ==>
               outcome(LoopCalls(outcome, maxAttempts, tryAll) - 1).None?)
  {
    var n := Attempts(maxAttempts);
    var k := FirstSuccess(outcome, n);
    if exists i :: 0 <= i < n && outcome(i).None? {
      var i :| 0 <= i < n && outcome(i).None?;
      assert k <= i;
    }
  }

  /** The exception each scan attempt raises. */
  function ScanFailures(gen: Generation, scans: nat -> ScanOutcome): nat -> Option<PowerError>
  {
    (i: nat) => if ScanResult(gen, scans(i)).Failure? then Some(ScanResult(gen, scans(i)).error) else None
  }

  /**
   * The base stations known after the scan attempts, given those known before: unchanged when
   * no attempt is made, those of the first successful scan, or none when every scan failed
   * (`scan` clears them before it can fail).
   */
  function ScanFound(gen: Generation, scans: nat -> ScanOutcome, before: seq<string>, maxAttempts: int): (r: seq<string>)
  {
    var k := FirstSuccess(ScanFailures(gen, scans), Attempts(maxAttempts));
    if Attempts(maxAttempts) == 0 then before
    else if k < Attempts(maxAttempts) then ScanResult(gen, scans(k)).value
    else []
  }

  /**
   * Without an attempt the loop raises and the base stations stay as they were; otherwise there
   * are base stations exactly when the loop did not raise, and they are those of a successful scan.
   */
  lemma {:induction false} ScanFoundMeaning(gen: Generation, scans: nat -> ScanOutcome, before: seq<string>, maxAttempts: int)
    ensures Attempts(maxAttempts) == 0 ==>
              ScanFound(gen, scans, before, maxAttempts) == before &&
              LoopError(ScanFailures(gen, scans), maxAttempts) == Some(NoAttempt)
    ensures Attempts(maxAttempts) > 0 ==>
              (ScanFound(gen, scans, before, maxAttempts) != [] <==> LoopError(ScanFailures(gen, scans), maxAttempts).None?)
    ensures LoopError(ScanFailures(gen, scans), maxAttempts).None? ==>
              exists i :: 0 <= i < Attempts(maxAttempts) &&
                ScanFound(gen, scans, before, maxAttempts) == Discovered(scans(i).events)
  {
    var k := FirstSuccess(ScanFailures(gen, scans), Attempts(maxAttempts));
    if k < Attempts(maxAttempts) {
      assert ScanFailures(gen, scans)(k).None?;
    }
  }

  /**
   * What `action` raises: the scan loop's error when no scan succeeded, else the error of the
   * attempts to switch the base stations that scan found.
   */
  function RobustError(gen: Generation, scans: nat -> ScanOutcome, links: nat -> Link, countScan: int, countSet: int): Option<PowerError>
  {
    var scanError := LoopError(ScanFailures(gen, scans), countScan);
    if scanError.Some? then scanError
    // A scan loop that did not raise made an attempt, so the devices known before do not matter.
    else LoopError(AttemptFailures(ScanFound(gen, scans, [], countScan), links), countSet)
  }

  /** The exception each attempt to switch raises. */
  function AttemptFailures(ds: seq<string>, links: nat -> Link): nat -> Option<PowerError>
  {
    (i: nat) => AttemptFailure(ds, links(i))
  }

  /** The radio events of the first `n` attempts to switch. */
  function AttemptsEvents(gen: Generation, ds: seq<string>, act: Power, links: nat -> Link, dryRun: bool, n: nat): seq<BleEvent>
    decreases n
  {
    if n == 0 then [] else AttemptsEvents(gen, ds, act, links, dryRun, n - 1) + AttemptEvents(gen, ds, act, links(n - 1), dryRun)
  }

  /** An attempt that stops at device `i` reached exactly `i` devices, and that decides its outcome. */
  lemma {:induction false} ReachedAt(ds: seq<string>, link: Link, i: nat)
    requires i <= |ds|
    requires forall j :: 0 <= j < i ==> ds[j] !in link.refuses
    requires i < |ds| ==> ds[i] in link.refuses
    ensures Reached(ds, link.refuses) == i
    ensures AttemptFailure(ds, link) == if i < |ds| then Some(ConnectFailed(ds[i])) else None
  {
    var k := Reached(ds, link.refuses);
    assert k < |ds| ==> ds[k] in link.refuses;
    assert i < |ds| ==> ds[i] in link.refuses;
  }

  /** The first success among `n` attempts, when attempt `k` is the first to succeed. */
  lemma {:induction false} FirstSuccessIs(outcome: nat -> Option<PowerError>, n: nat, k: nat)
    requires k < n && outcome(k).None?
    requires forall i :: 0 <= i < k ==> outcome(i).Some?
    ensures FirstSuccess(outcome, n) == k
  {
    var f := FirstSuccess(outcome, n);
    assert k < f ==> outcome(k).Some?;
  }

  /** `attempt_loop` raises nothing once an attempt succeeded. */
  lemma {:induction false} LoopSucceeded(outcome: nat -> Option<PowerError>, maxAttempts: int, k: nat)
    requires k < Attempts(maxAttempts) && outcome(k).None?
    ensures LoopError(outcome, maxAttempts).None?
  {
    var f := FirstSuccess(outcome, Attempts(maxAttempts));
    assert f == Attempts(maxAttempts) ==> outcome(k).Some?;
  }

  /** `attempt_loop` raises the last error when every attempt failed. */
  lemma {:induction false} LoopFailed(outcome: nat -> Option<PowerError>, maxAttempts: int)
    requires forall i :: 0 <= i < Attempts(maxAttempts) ==> outcome(i).Some?
    ensures LoopError(outcome, maxAttempts) ==
              if Attempts(maxAttempts) == 0 then Some(NoAttempt) else outcome(Attempts(maxAttempts) - 1)
  {
  }

  /** The events of one more attempt follow those of the earlier ones. */
  lemma {:induction false} AttemptsEventsStep(gen: Generation, ds: seq<string>, act: Power, links: nat -> Link, dryRun: bool, n: nat, ev: seq<BleEvent>)
    requires ev == AttemptEvents(gen, ds, act, links(n), dryRun)
    ensures AttemptsEvents(gen, ds, act, links, dryRun, n + 1) == AttemptsEvents(gen, ds, act, links, dryRun, n) + ev
  {
  }

  /** `attempt_loop`'s counters after `n` attempts made with `try_all`: successes and the last error. */
  function Tally(outcome: nat -> Option<PowerError>, n: nat): (nat, Option<PowerError>)
    decreases n
  {
    if n == 0 then (0, None)
    else
      var (successes, lastError) := Tally(outcome, n - 1);
      if outcome(n - 1).None? then (successes + 1, lastError) else (successes, outcome(n - 1))
  }

  /** No success is counted exactly when every attempt failed, and then the last error is the last attempt's. */
  lemma {:induction false} TallyMeaning(outcome: nat -> Option<PowerError>, n: nat)
    ensures Tally(outcome, n).0 == 0 <==> forall i :: 0 <= i < n ==> outcome(i).Some?
    ensures Tally(outcome, n).0 == 0 && n > 0 ==> Tally(outcome, n).1 == outcome(n - 1)
    decreases n
  {
    if n > 0 {
      TallyMeaning(outcome, n - 1);
    }
  }

  /** The counters after one more attempt. */
  lemma {:induction false} TallyStep(outcome: nat -> Option<PowerError>, n: nat, e: Option<PowerError>)
    requires e == outcome(n)
    ensures Tally(outcome, n + 1) ==
              if e.None? then (Tally(outcome, n).0 + 1, Tally(outcome, n).1) else (Tally(outcome, n).0, e)
  {
  }

  /** What `attempt_loop` raises after the last of its attempts, from its counters. */
  lemma {:induction false} LoopResult(outcome: nat -> Option<PowerError>, maxAttempts: int, successes: nat, lastError: Option<PowerError>)
    requires (successes, lastError) == Tally(outcome, Attempts(maxAttempts))
    ensures LoopError(outcome, maxAttempts) ==
              if successes > 0 then None else if Attempts(maxAttempts) == 0 then Some(NoAttempt) else lastError
  {
    TallyMeaning(outcome, Attempts(maxAttempts));
    if successes == 0 {
      LoopFailed(outcome, maxAttempts);
    } else {
      var k :| 0 <= k < Attempts(maxAttempts) && outcome(k).None?;
      LoopSucceeded(outcome, maxAttempts, k);
    }
  }

  /** Concatenation is associative (stated for the radio trace). */
  lemma {:induction false} TraceAssoc(a: seq<BleEvent>, b: seq<BleEvent>, c: seq<BleEvent>)
    ensures (a + b) + c == a + (b + c)
  {
  }

  /** `BasestationPowerInterface`, the original interface. */
  class PowerInterface {
    const dryRun: bool
    /** `self.devices`: the addresses found by the last scan. */
    var devices: seq<string>
    /** The radio events so far. */
    var trace: seq<BleEvent>

    constructor (dryRun: bool)
      ensures this.dryRun == dryRun && devices == [] && trace == []
    {
      this.dryRun := dryRun;
      devices, trace := [], [];
    }

    /** `scan`. */
    method Scan(o: ScanOutcome) returns (error: Option<PowerError>)
      modifies this
      ensures devices == (if ScanResult(Original, o).Success? then ScanResult(Original, o).value else [])
      ensures error == (if ScanResult(Original, o).Failure? then Some(ScanResult(Original, o).error) else None)
      ensures trace == old(trace)
    {
      devices := [];
      if o.managementError.Some? {
        return Some(ClassifyOriginal(o.managementError.value));
      }
      var delegate := new Delegate();
      for i := 0 to |o.events|
        invariant delegate.devices == Discovered(o.events[..i])
        invariant devices == [] && trace == old(trace)
      {
        delegate.HandleDiscovery(o.events[i]);
        DiscoveredAppend(o.events[..i], [o.events[i]]);
        assert o.events[..i + 1] == o.events[..i] + [o.events[i]];
      }
      assert o.events[..|o.events|] == o.events;
      devices := delegate.devices;
      if |devices| == 0 {
        return Some(NoBasestations);
      }
      return None;
    }

    /** `action`: switch every found base station; a TOGGLE decides on the first one's state. */
    method Action(act: Power, link: Link) returns (error: Option<PowerError>)
      modifies this
      ensures devices == old(devices)
      ensures trace == old(trace) + AttemptEvents(Original, devices, act, link, dryRun)
      ensures error == AttemptFailure(devices, link)
    {
      var ds, start := devices, trace;
      ghost var goal := start + AttemptEvents(Original, ds, act, link, dryRun);
      var current := act;
      var i := 0;
      while i < |ds|
        invariant i <= |ds| && devices == ds
        invariant forall j :: 0 <= j < i ==> ds[j] !in link.refuses
        invariant i == 0 ==> current == act && trace == start
        invariant i > 0 ==> current == Resolve(act, link.state) &&
                            goal == trace + SwitchEvents(ds[i..], current, link.refuses, dryRun)
      {
        if ds[i] in link.refuses {
          break;
        }
        ghost var before := trace;
        var next := SwitchDevice(ds[i], current, link.state);
        if i == 0 {
          OriginalFirstStep(ds, act, link, dryRun);
        } else {
          SwitchEventsFrom(ds, i, current, link.refuses, dryRun);
          assert OriginalDeviceEvents(ds[i], current, next, dryRun) == DeviceEvents(ds[i], current, dryRun);
        }
        TraceAssoc(before, OriginalDeviceEvents(ds[i], current, next, dryRun), SwitchEvents(ds[i + 1..], next, link.refuses, dryRun));
        current := next;
        i := i + 1;
      }
      if i > 0 {
        SwitchEventsFrom(ds, i, current, link.refuses, dryRun);
      }
      ReachedAt(ds, link, i);
      error := if i < |ds| then Some(ConnectFailed(ds[i])) else None;
    }

    /**
     * The body of `action`'s loop: connect; for a TOGGLE read the state and decide ON (state
     * b'\x00') or OFF, which `action` keeps for the later devices; write unless in dry run;
     * disconnect.
     */
    method SwitchDevice(device: string, act: Power, state: seq<byte>) returns (next: Power)
      modifies this
      ensures next == Resolve(act, state)
      ensures devices == old(devices)
      ensures trace == old(trace) + OriginalDeviceEvents(device, act, next, dryRun)
    {
      next := act;
      trace := trace + [Connect(device)];
      if act == Toggle {
        trace := trace + [Read(device, PowerHandle)];
        if state == [0] {
          next := On;
        } else {
          next := Off;
        }
      }
      if next == On {
        if !dryRun {
          trace := trace + [Write(device, PowerHandle, 0x01)];
        }
      } else if next == Off {
        if !dryRun {
          trace := trace + [Write(device, PowerHandle, 0x00)];
        }
      }
      trace := trace + [Disconnect(device)];
    }

    /** `robust_action`: scan until one scan succeeds, then make every attempt to switch. */
    method RobustAction(act: Power, scans: nat -> ScanOutcome, links: nat -> Link, countScan: int, countSet: int)
      returns (error: Option<PowerError>)
      modifies this
      ensures devices == ScanFound(Original, scans, old(devices), countScan)
      ensures error == RobustError(Original, scans, links, countScan, countSet)
      ensures LoopError(ScanFailures(Original, scans), countScan).Some? ==>
                error == LoopError(ScanFailures(Original, scans), countScan) && trace == old(trace)
      ensures LoopError(ScanFailures(Original, scans), countScan).None? ==>
                error == LoopError(AttemptFailures(devices, links), countSet) &&
                trace == old(trace) + AttemptsEvents(Original, devices, act, links, dryRun, Attempts(countSet))
    {
      error := ScanAttempts(scans, countScan);
      if error.Some? {
        return;
      }
      error := SwitchAttempts(act, links, countSet);
    }

    /** `attempt_loop(scan, attempt_count_scan)`: returns on the first successful scan. */
    method ScanAttempts(scans: nat -> ScanOutcome, maxAttempts: int) returns (error: Option<PowerError>)
      modifies this
      ensures devices == ScanFound(Original, scans, old(devices), maxAttempts)
      ensures error == LoopError(ScanFailures(Original, scans), maxAttempts)
      ensures trace == old(trace)
    {
      var outcome := ScanFailures(Original, scans);
      var attempt := 0;
      var lastError: Option<PowerError> := None;
      while attempt < maxAttempts
        invariant 0 <= attempt <= Attempts(maxAttempts)
        invariant forall i :: 0 <= i < attempt ==> outcome(i).Some?
        invariant devices == (if attempt == 0 then old(devices) else []) && trace == old(trace)
        invariant attempt > 0 ==> lastError == outcome(attempt - 1)
      {
        var e := Scan(scans(attempt));
        assert e == outcome(attempt);
        if e.None? {
          FirstSuccessIs(outcome, Attempts(maxAttempts), attempt);
          LoopSucceeded(outcome, maxAttempts, attempt);
          return None;
        }
        lastError := e;
        attempt := attempt + 1;
      }
      LoopFailed(outcome, maxAttempts);
      error := if attempt == 0 then Some(NoAttempt) else lastError;
    }

    /** `attempt_loop(action, attempt_count_set, try_all=True)`: every attempt is made. */
    method SwitchAttempts(act: Power, links: nat -> Link, maxAttempts: int) returns (error: Option<PowerError>)
      modifies this
      ensures devices == old(devices)
      ensures error == LoopError(AttemptFailures(devices, links), maxAttempts)
      ensures trace == old(trace) + AttemptsEvents(Original, devices, act, links, dryRun, Attempts(maxAttempts))
    {
      var successes, lastError, attempts := AttemptAll(act, links, maxAttempts);
      LoopResult(AttemptFailures(devices, links), maxAttempts, successes, lastError);
      if successes == 0 {
        error := if attempts == 0 then Some(NoAttempt) else lastError;
      } else {
        error := None;
      }
    }

    /** The loop of `attempt_loop(..., try_all=True)`: every attempt, counting successes and keeping the last error. */
    method AttemptAll(act: Power, links: nat -> Link, maxAttempts: int) returns (successes: nat, lastError: Option<PowerError>, attempt: nat)
      modifies this
      ensures devices == old(devices) && attempt == Attempts(maxAttempts)
      ensures (successes, lastError) == Tally(AttemptFailures(devices, links), attempt)
      ensures trace == old(trace) + AttemptsEvents(Original, devices, act, links, dryRun, attempt)
    {
      var ds, start := devices, trace;
      attempt, successes, lastError := 0, 0, None;
      while attempt < maxAttempts
        invariant 0 <= attempt <= Attempts(maxAttempts)
        invariant devices == ds
        invariant trace == start + AttemptsEvents(Original, ds, act, links, dryRun, attempt)
        invariant (successes, lastError) == Tally(AttemptFailures(ds, links), attempt)
      {
        successes, lastError := NextAttempt(act, links, attempt, start, successes, lastError);
        attempt := attempt + 1;
      }
    }

    /** One call of `action` in `attempt_loop` with its counting: extends the trace and the counters of the attempts before it. */
    method NextAttempt(act: Power, links: nat -> Link, attempt: nat, ghost start: seq<BleEvent>,
                       successes: nat, lastError: Option<PowerError>)
      returns (successes': nat, lastError': Option<PowerError>)
      modifies this
      requires trace == start + AttemptsEvents(Original, devices, act, links, dryRun, attempt)
      requires (successes, lastError) == Tally(AttemptFailures(devices, links), attempt)
      ensures devices == old(devices)
      ensures trace == start + AttemptsEvents(Original, devices, act, links, dryRun, attempt + 1)
      ensures (successes', lastError') == Tally(AttemptFailures(devices, links), attempt + 1)
    {
      ghost var ev := AttemptEvents(Original, devices, act, links(attempt), dryRun);
      var e := Action(act, links(attempt));
      TraceAssoc(start, AttemptsEvents(Original, devices, act, links, dryRun, attempt), ev);
      AttemptsEventsStep(Original, devices, act, links, dryRun, attempt, ev);
      TallyStep(AttemptFailures(devices, links), attempt, e);
      if e.None? {
        successes', lastError' := successes + 1, lastError;
      } else {
        successes', lastError' := successes, e;
      }
    }
  }

  /** `V2BasestationInterface`. */
  class V2Interface {
    const dryRun: bool
    /** `self.devices`: the addresses found by the last scan. */
    var devices: seq<string>
    /** The radio events so far. */
    var trace: seq<BleEvent>

    constructor (dryRun: bool)
      ensures this.dryRun == dryRun && devices == [] && trace == []
    {
      this.dryRun := dryRun;
      devices, trace := [], [];
    }

    /** `scan`, with explanations for failed passive and active scans. */
    method Scan(o: ScanOutcome) returns (error: Option<PowerError>)
      modifies this
      ensures devices == (if ScanResult(V2, o).Success? then ScanResult(V2, o).value else [])
      ensures error == (if ScanResult(V2, o).Failure? then Some(ScanResult(V2, o).error) else None)
      ensures trace == old(trace)
    {
      devices := [];
      if o.managementError.Some? {
        return Some(ClassifyV2(o.managementError.value));
      }
      var delegate := new Delegate();
      for i := 0 to |o.events|
        invariant delegate.devices == Discovered(o.events[..i])
        invariant devices == [] && trace == old(trace)
      {
        delegate.HandleDiscovery(o.events[i]);
        DiscoveredAppend(o.events[..i], [o.events[i]]);
        assert o.events[..i + 1] == o.events[..i] + [o.events[i]];
      }
      assert o.events[..|o.events|] == o.events;
      devices := delegate.devices;
      if |devices| == 0 {
        return Some(NoBasestations);
      }
      return None;
    }

    /** `action_attempt`: switch every found base station to ON or OFF. */
    method ActionAttempt(act: Power, link: Link) returns (error: Option<PowerError>)
      modifies this
      ensures devices == old(devices)
      ensures trace == old(trace) + AttemptEvents(V2, devices, act, link, dryRun)
      ensures error == AttemptFailure(devices, link)
    {
      var ds, start := devices, trace;
      var i := 0;
      assert ds[0..] == ds;
      while i < |ds|
        invariant i <= |ds| && devices == ds
        invariant forall j :: 0 <= j < i ==> ds[j] !in link.refuses
        invariant start + SwitchEvents(ds, act, link.refuses, dryRun) == trace + SwitchEvents(ds[i..], act, link.refuses, dryRun)
      {
        if ds[i] in link.refuses {
          break;
        }
        ghost var before := trace;
        SwitchEventsFrom(ds, i, act, link.refuses, dryRun);
        SwitchDevice(ds[i], act);
        TraceAssoc(before, DeviceEvents(ds[i], act, dryRun), SwitchEvents(ds[i + 1..], act, link.refuses, dryRun));
        i := i + 1;
      }
      SwitchEventsFrom(ds, i, act, link.refuses, dryRun);
      ReachedAt(ds, link, i);
      error := if i < |ds| then Some(ConnectFailed(ds[i])) else None;
    }

    /** The body of `action_attempt`'s loop: connect, write ON or OFF unless in dry run, disconnect. */
    method SwitchDevice(device: string, act: Power)
      modifies this
      ensures devices == old(devices)
      ensures trace == old(trace) + DeviceEvents(device, act, dryRun)
    {
      trace := trace + [Connect(device)];
      if act == On {
        if !dryRun {
          trace := trace + [Write(device, PowerHandle, 0x01)];
        }
      } else if act == Off {
        if !dryRun {
          trace := trace + [Write(device, PowerHandle, 0x00)];
        }
      }
      trace := trace + [Disconnect(device)];
    }

    /** `action`: scan until one scan succeeds, then make every attempt to switch. */
    method Action(act: Power, scans: nat -> ScanOutcome, links: nat -> Link, countScan: int, countSet: int)
      returns (error: Option<PowerError>)
      modifies this
      ensures devices == ScanFound(V2, scans, old(devices), countScan)
      ensures error == RobustError(V2, scans, links, countScan, countSet)
      ensures LoopError(ScanFailures(V2, scans), countScan).Some? ==>
                error == LoopError(ScanFailures(V2, scans), countScan) && trace == old(trace)
      ensures LoopError(ScanFailures(V2, scans), countScan).None? ==>
                error == LoopError(AttemptFailures(devices, links), countSet) &&
                trace == old(trace) + AttemptsEvents(V2, devices, act, links, dryRun, Attempts(countSet))
    {
      error := ScanAttempts(scans, countScan);
      if error.Some? {
        return;
      }
      error := SwitchAttempts(act, links, countSet);
    }

    /** `attempt_loop(scan, attempt_count_scan)`: returns on the first successful scan. */
    method ScanAttempts(scans: nat -> ScanOutcome, maxAttempts: int) returns (error: Option<PowerError>)
      modifies this
      ensures devices == ScanFound(V2, scans, old(devices), maxAttempts)
      ensures error == LoopError(ScanFailures(V2, scans), maxAttempts)
      ensures trace == old(trace)
    {
      var outcome := ScanFailures(V2, scans);
      var attempt := 0;
      var lastError: Option<PowerError> := None;
      while attempt < maxAttempts
        invariant 0 <= attempt <= Attempts(maxAttempts)
        invariant forall i :: 0 <= i < attempt ==> outcome(i).Some?
        invariant devices == (if attempt == 0 then old(devices) else []) && trace == old(trace)
        invariant attempt > 0 ==> lastError == outcome(attempt - 1)
      {
        var e := Scan(scans(attempt));
        assert e == outcome(attempt);
        if e.None? {
          FirstSuccessIs(outcome, Attempts(maxAttempts), attempt);
          LoopSucceeded(outcome, maxAttempts, attempt);
          return None;
        }
        lastError := e;
        attempt := attempt + 1;
      }
      LoopFailed(outcome, maxAttempts);
      error := if attempt == 0 then Some(NoAttempt) else lastError;
    }

    /** `attempt_loop(action_attempt, attempt_count_set, try_all=True)`: every attempt is made. */
    method SwitchAttempts(act: Power, links: nat -> Link, maxAttempts: int) returns (error: Option<PowerError>)
      modifies this
      ensures devices == old(devices)
      ensures error == LoopError(AttemptFailures(devices, links), maxAttempts)
      ensures trace == old(trace) + AttemptsEvents(V2, devices, act, links, dryRun, Attempts(maxAttempts))
    {
      var successes, lastError, attempts := AttemptAll(act, links, maxAttempts);
      LoopResult(AttemptFailures(devices, links), maxAttempts, successes, lastError);
      if successes == 0 {
        error := if attempts == 0 then Some(NoAttempt) else lastError;
      } else {
        error := None;
      }
    }

    /** The loop of `attempt_loop(..., try_all=True)`: every attempt, counting successes and keeping the last error. */
    method AttemptAll(act: Power, links: nat -> Link, maxAttempts: int) returns (successes: nat, lastError: Option<PowerError>, attempt: nat)
      modifies this
      ensures devices == old(devices) && attempt == Attempts(maxAttempts)
      ensures (successes, lastError) == Tally(AttemptFailures(devices, links), attempt)
      ensures trace == old(trace) + AttemptsEvents(V2, devices, act, links, dryRun, attempt)
    {
      var ds, start := devices, trace;
      attempt, successes, lastError := 0, 0, None;
      while attempt < maxAttempts
        invariant 0 <= attempt <= Attempts(maxAttempts)
        invariant devices == ds
        invariant trace == start + AttemptsEvents(V2, ds, act, links, dryRun, attempt)
        invariant (successes, lastError) == Tally(AttemptFailures(ds, links), attempt)
      {
        successes, lastError := NextAttempt(act, links, attempt, start, successes, lastError);
        attempt := attempt + 1;
      }
    }

    /** One call of `action_attempt` in `attempt_loop` with its counting: extends the trace and the counters of the attempts before it. */
    method NextAttempt(act: Power, links: nat -> Link, attempt: nat, ghost start: seq<BleEvent>,
                       successes: nat, lastError: Option<PowerError>)
      returns (successes': nat, lastError': Option<PowerError>)
      modifies this
      requires trace == start + AttemptsEvents(V2, devices, act, links, dryRun, attempt)
      requires (successes, lastError) == Tally(AttemptFailures(devices, links), attempt)
      ensures devices == old(devices)
      ensures trace == start + AttemptsEvents(V2, devices, act, links, dryRun, attempt + 1)
      ensures (successes', lastError') == Tally(AttemptFailures(devices, links), attempt + 1)
    {
      ghost var ev := AttemptEvents(V2, devices, act, links(attempt), dryRun);
      var e := ActionAttempt(act, links(attempt));
      TraceAssoc(start, AttemptsEvents(V2, devices, act, links, dryRun, attempt), ev);
      AttemptsEventsStep(V2, devices, act, links, dryRun, attempt, ev);
      TallyStep(AttemptFailures(devices, links), attempt, e);
      if e.None? {
        successes', lastError' := successes + 1, lastError;
      } else {
        successes', lastError' := successes, e;
      }
    }
  }
}
