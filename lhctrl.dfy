/**
 * `lhctrl`: power management of first-generation (v1) lighthouses over Bluetooth LE. A
 * lighthouse is kept on by writing a 20-byte wake-up command to one of its characteristics; the
 * command carries the lighthouse's id and how long it stays on without another one, so a command
 * with an off-timeout of one second shuts it down.
 */
module Lighthouse {
  import opened Wrappers
  import BaseStations

  type byte = BaseStations.byte

  /** `CMD_HDR1` and `CMD_HDR2`: the two header bytes of the wake-up command. */
  const CmdHeader1: byte := 0x12
  const CmdHeader2: byte := 0x02
  /** `CMD_TAIL`: the command ends in twelve zero bytes. */
  const CmdTail: seq<byte> := [0, 0, 0, 0, 0, 0, 0, 0, 0, 0, 0, 0]
  /** `HCHAR`: the default characteristic handle. */
  const DefaultHandle := 0x35
  /** `LH_TIMEOUT`, `PING_SLEEP`, `TRY_COUNT`: the defaults of the command line. */
  const DefaultLhTimeout := 60
  const DefaultPingSleep: real := 20.0
  const DefaultTryCount := 5

  /** The two ways Python's `int.to_bytes` raises `OverflowError`. */
  datatype ConvertError = NegativeInt | IntTooBig

  function Pow256(n: nat): (p: nat)
    ensures p > 0
  {
    if n == 0 then 1 else 256 * Pow256(n - 1)
  }

  /** The `width` bytes of `x`, least significant first. */
  function LittleEndian(x: nat, width: nat): (bs: seq<byte>)
    requires x < Pow256(width)
    ensures |bs| == width
  {
    if width == 0 then [] else [(x % 256) as byte] + LittleEndian(x / 256, width - 1)
  }

  /** The `width` bytes of `x`, most significant first. */
  function BigEndian(x: nat, width: nat): (bs: seq<byte>)
    requires x < Pow256(width)
    ensures |bs| == width
  {
    if width == 0 then [] else BigEndian(x / 256, width - 1) + [(x % 256) as byte]
  }

  /** The number whose little-endian bytes are `bs`. */
  function FromLittleEndian(bs: seq<byte>): nat
  {
    if bs == [] then 0 else bs[0] as nat + 256 * FromLittleEndian(bs[1..])
  }

  /** The number whose big-endian bytes are `bs`. */
  function FromBigEndian(bs: seq<byte>): nat
  {
    if bs == [] then 0 else 256 * FromBigEndian(bs[..|bs| - 1]) + bs[|bs| - 1] as nat
  }

  /** Reading back little-endian bytes gives the number, and every byte string is one's bytes. */
  lemma {:induction false} LittleEndianRoundTrip(x: nat, width: nat)
    requires x < Pow256(width)
    ensures FromLittleEndian(LittleEndian(x, width)) == x
  {
    if width > 0 {
      LittleEndianRoundTrip(x / 256, width - 1);
      var bs := LittleEndian(x, width);
      assert bs[1..] == LittleEndian(x / 256, width - 1);
    }
  }

  /** Reading back big-endian bytes gives the number. */
  lemma {:induction false} BigEndianRoundTrip(x: nat, width: nat)
    requires x < Pow256(width)
    ensures FromBigEndian(BigEndian(x, width)) == x
  {
    if width > 0 {
      BigEndianRoundTrip(x / 256, width - 1);
      var bs := BigEndian(x, width);
      assert bs[..|bs| - 1] == BigEndian(x / 256, width - 1);
    }
  }

  /** Python's `x.to_bytes(width, order)`: raises when `x` is negative or does not fit. */
  function ToBytes(x: int, width: nat, bigEndian: bool): (r: Result<seq<byte>, ConvertError>)
    ensures r.Success? <==> 0 <= x < Pow256(width)
    ensures r.Failure? ==> r.error == if x < 0 then NegativeInt else IntTooBig
    ensures r.Success? ==>
              (|r.value| == width && (if bigEndian then FromBigEndian(r.value) else FromLittleEndian(r.value)) == x)
  {
    if x < 0 then Failure(NegativeInt)
    else if x >= Pow256(width) then Failure(IntTooBig)
    else if bigEndian then
      BigEndianRoundTrip(x, width);
      Success(BigEndian(x, width))
    else
      LittleEndianRoundTrip(x, width);
      Success(LittleEndian(x, width))
  }

  /**
   * `makeUpCmd`: header 0x12, then `cmd2` (0x02 when absent), the off-timeout as two big-endian
   * bytes, the lighthouse id as four little-endian bytes and twelve zero bytes. The conversions
   * run in that order, so the first field that does not fit decides the error.
   */
  function MakeUpCmd(lhId: int, offTimeout: int, cmd2: Option<int>): (r: Result<seq<byte>, ConvertError>)
    ensures r.Success? <==>
              (cmd2.None? || 0 <= cmd2.value < 256) && 0 <= offTimeout < 0x1_0000 && 0 <= lhId < 0x1_0000_0000
    ensures r.Success? ==>
              (|r.value| == 20 && r.value[0] == CmdHeader1 &&
               r.value[1] as int == (if cmd2.None? then CmdHeader2 as int else cmd2.value) &&
               r.value[8..] == CmdTail)
  {
    var hdr2 := if cmd2.None? then Success([CmdHeader2]) else ToBytes(cmd2.value, 1, false);
    if hdr2.Failure? then Failure(hdr2.error)
    else
      var ot := ToBytes(offTimeout, 2, true);
      if ot.Failure? then Failure(ot.error)
      else
        var id := ToBytes(lhId, 4, false);
        if id.Failure? then Failure(id.error)
        else Success([CmdHeader1] + hdr2.value + ot.value + id.value + CmdTail)
  }

  /** The fields a lighthouse reads from a wake-up command: id, off-timeout and second header byte. */
  datatype WakeUp = WakeUp(lhId: nat, offTimeout: nat, cmd2: byte)

  /** Decoding a 20-byte wake-up command. */
  function ParseCmd(cmd: seq<byte>): (r: Option<WakeUp>)
    ensures r.Some? <==> |cmd| == 20 && cmd[0] == CmdHeader1 && cmd[8..] == CmdTail
  {
    if |cmd| == 20 && cmd[0] == CmdHeader1 && cmd[8..] == CmdTail then
      Some(WakeUp(FromLittleEndian(cmd[4..8]), FromBigEndian(cmd[2..4]), cmd[1]))
    else None
  }

  /** Every command `makeUpCmd` builds decodes to the id, off-timeout and second byte it was given. */
  lemma {:induction false} MakeUpCmdRoundTrip(lhId: int, offTimeout: int, cmd2: Option<int>)
    requires MakeUpCmd(lhId, offTimeout, cmd2).Success?
    ensures ParseCmd(MakeUpCmd(lhId, offTimeout, cmd2).value) ==
              Some(WakeUp(lhId, offTimeout, if cmd2.None? then CmdHeader2 else cmd2.value as byte))
  {
    var cmd := MakeUpCmd(lhId, offTimeout, cmd2).value;
    var hdr2 := if cmd2.None? then [CmdHeader2] else ToBytes(cmd2.value, 1, false).value;
    var ot := ToBytes(offTimeout, 2, true).value;
    var id := ToBytes(lhId, 4, false).value;
    assert cmd == [CmdHeader1] + hdr2 + ot + id + CmdTail;
    assert cmd[2..4] == ot;
    assert cmd[4..8] == id;
    if cmd2.Some? {
      assert FromLittleEndian(hdr2) == cmd2.value;
      assert FromLittleEndian(hdr2[1..]) == 0;
    }
  }

  /** Why `argsCheck` exits with `EXIT_ERR`. */
  datatype ArgsError = MissingBMac | MissingCMac | PingTooSlow

  /** The command-line options `argsCheck` looks at; an absent option is `None`. */
  datatype Args = Args(lhBId: Option<string>, lhCId: Option<string>, lhBMac: Option<string>, lhCMac: Option<string>,
                       lhTimeout: int, pingSleep: real)

  /** Python's truth value of an optional string: present and not empty. */
  predicate Truthy(s: Option<string>)
  {
    s.Some? && s.value != ""
  }

  /**
   * `argsCheck`: a B or C id needs its MAC, since scanning is not implemented, and a ping sleep
   * of 0.75 of the lighthouse timeout or more is refused when both are set (not zero).
   */
  function ArgsCheck(args: Args): (r: Option<ArgsError>)
    ensures r == Some(MissingBMac) <==> Truthy(args.lhBId) && !Truthy(args.lhBMac)
    ensures r == Some(MissingCMac) <==>
              !(Truthy(args.lhBId) && !Truthy(args.lhBMac)) && Truthy(args.lhCId) && !Truthy(args.lhCMac)
    ensures r.None? <==>
              (Truthy(args.lhBId) ==> Truthy(args.lhBMac)) && (Truthy(args.lhCId) ==> Truthy(args.lhCMac)) &&
              (args.pingSleep == 0.0 || args.lhTimeout == 0 || 4.0 * args.pingSleep < 3.0 * args.lhTimeout as real)
  {
    if Truthy(args.lhBId) && !Truthy(args.lhBMac) then Some(MissingBMac)
    else if Truthy(args.lhCId) && !Truthy(args.lhCMac) then Some(MissingCMac)
    else if args.pingSleep != 0.0 && args.lhTimeout != 0 && args.pingSleep >= 0.75 * args.lhTimeout as real then Some(PingTooSlow)
    else None
  }

  /** What `lh.connect` does on one attempt. */
  datatype ConnectOutcome = Connected | Disconnected(message: string) | OtherError(message: string)

  /** What `connect` raises. */
  datatype LinkError = DisconnectError(message: string) | Raised(message: string)

  /**
   * How many times `connect` calls `lh.connect` from attempt `i` on, with `tries` the value of
   * `try_count` then: it stops on success or on any exception but a disconnect, and re-raises a
   * disconnect once `try_count` is at most one.
   */
  function CallsFrom(outcome: nat -> ConnectOutcome, i: nat, tries: int): (n: nat)
    ensures n > i
    decreases if tries > 0 then tries else 0
  {
    if !outcome(i).Disconnected? || tries <= 1 then i + 1 else CallsFrom(outcome, i + 1, tries - 1)
  }

  /** The number of connection attempts of `connect(lh, mac, try_count, ...)`. */
  function ConnectCalls(outcome: nat -> ConnectOutcome, tryCount: int): nat
  {
    CallsFrom(outcome, 0, tryCount)
  }

  /** What `connect` raises, after its last attempt. */
  function ConnectError(outcome: nat -> ConnectOutcome, tryCount: int): Option<LinkError>
  {
    match outcome(ConnectCalls(outcome, tryCount) - 1)
    case Connected => None
    case Disconnected(m) => Some(DisconnectError(m))
    case OtherError(m) => Some(Raised(m))
  }

  /** Each attempt after the first from `i` on consumes one of the remaining tries. */
  lemma {:induction false} CallsFromMeaning(outcome: nat -> ConnectOutcome, i: nat, tries: int)
    ensures CallsFrom(outcome, i, tries) <= i + (if tries > 1 then tries else 1)
    ensures forall j :: i <= j < CallsFrom(outcome, i, tries) - 1 ==> outcome(j).Disconnected?
    ensures outcome(CallsFrom(outcome, i, tries) - 1).Disconnected? ==>
              CallsFrom(outcome, i, tries) == i + (if tries > 1 then tries else 1)
    decreases if tries > 0 then tries else 0
  {
    if outcome(i).Disconnected? && tries > 1 {
      CallsFromMeaning(outcome, i + 1, tries - 1);
    }
  }

  /**
   * `connect` makes at most `max(try_count, 1)` attempts, retrying only after a disconnect; it
   * raises a disconnect only after exactly that many attempts, and any other exception on the
   * attempt that caused it.
   */
  lemma {:induction false} ConnectRetries(outcome: nat -> ConnectOutcome, tryCount: int)
    ensures 1 <= ConnectCalls(outcome, tryCount) <= (if tryCount > 1 then tryCount else 1)
    ensures forall j :: 0 <= j < ConnectCalls(outcome, tryCount) - 1 ==> outcome(j).Disconnected?
    ensures ConnectError(outcome, tryCount).None? <==> outcome(ConnectCalls(outcome, tryCount) - 1) == Connected
    ensures ConnectError(outcome, tryCount).Some? && ConnectError(outcome, tryCount).value.DisconnectError? ==>
              ConnectCalls(outcome, tryCount) == (if tryCount > 1 then tryCount else 1)
  {
    CallsFromMeaning(outcome, 0, tryCount);
  }

  /** What happens on the radio: one entry per call into the Bluetooth stack. */
  datatype RadioEvent =
    | Connect(mac: string)
    | Write(mac: string, handle: int, cmd: seq<byte>)
    | Read(mac: string, handle: int)
    | Disconnect(mac: string)

  /** `count` connection attempts to `mac`. */
  function Connects(mac: string, count: nat): (r: seq<RadioEvent>)
    ensures |r| == count && forall e :: e in r ==> e == Connect(mac)
  {
    if count == 0 then [] else Connects(mac, count - 1) + [Connect(mac)]
  }

  /** The radio events of `hndl_io(mac, hndl, cmd, try_count, ...)` and what it raises. */
  function IoEvents(mac: string, handle: int, cmd: seq<byte>, tryCount: int, outcome: nat -> ConnectOutcome): seq<RadioEvent>
  {
    Connects(mac, ConnectCalls(outcome, tryCount)) +
    (if ConnectError(outcome, tryCount).None? then [Write(mac, handle, cmd), Read(mac, handle), Disconnect(mac)] else [])
  }

  /** Why `shutdown` stops: a command that cannot be encoded, or a connection that failed. */
  datatype ShutdownError = Encode(conversion: ConvertError) | Link(link: LinkError)

  /** The Bluetooth stack as `lhctrl` sees it: the events so far. */
  class Radio {
    var events: seq<RadioEvent>

    constructor ()
      ensures events == []
    {
      events := [];
    }

    /**
     * `connect`: call `lh.connect` until it succeeds; a disconnect is retried while `try_count`,
     * decremented on each retry, is above one; any other exception propagates at once.
     */
    method ConnectLoop(mac: string, tryCount: int, outcome: nat -> ConnectOutcome) returns (error: Option<LinkError>)
      modifies this
      ensures events == old(events) + Connects(mac, ConnectCalls(outcome, tryCount))
      ensures error == ConnectError(outcome, tryCount)
    {
      var tries := tryCount;
      var attempt := 0;
      while true
        invariant 0 <= attempt && tries == tryCount - attempt
        invariant CallsFrom(outcome, attempt, tries) == ConnectCalls(outcome, tryCount)
        invariant events == old(events) + Connects(mac, attempt)
        decreases if tries > 0 then tries else 0
      {
        events := events + [Connect(mac)];
        var o := outcome(attempt);
        match o {
          case Connected =>
            return None;
          case Disconnected(m) =>
            if tries <= 1 {
              return Some(DisconnectError(m));
            }
            tries := tries - 1;
            attempt := attempt + 1;
          case OtherError(m) =>
            return Some(Raised(m));
        }
      }
    }

    /** `hndl_io`: connect, write the command, read the characteristic back, disconnect. */
    method HandleIo(mac: string, handle: int, cmd: seq<byte>, tryCount: int, outcome: nat -> ConnectOutcome)
      returns (error: Option<LinkError>)
      modifies this
      ensures events == old(events) + IoEvents(mac, handle, cmd, tryCount, outcome)
      ensures error == ConnectError(outcome, tryCount)
    {
      error := ConnectLoop(mac, tryCount, outcome);
      if error.Some? {
        return;
      }
      events := events + [Write(mac, handle, cmd), Read(mac, handle), Disconnect(mac)];
    }

    /**
     * `shutdown`: send B the wake-up command with an off-timeout of one second, then, only when a
     * C id is given, the same to C. An exception stops it where it is raised.
     */
    method Shutdown(bId: int, bMac: string, cId: Option<int>, cMac: string, handle: int, cmd2: Option<int>,
                    tryCount: int, outcomeB: nat -> ConnectOutcome, outcomeC: nat -> ConnectOutcome)
      returns (error: Option<ShutdownError>)
      modifies this
      ensures (events, error) == ShutdownRun(bId, bMac, cId, cMac, handle, cmd2, tryCount, outcomeB, outcomeC, old(events))
    {
      var upCmd := MakeUpCmd(bId, 1, cmd2);
      if upCmd.Failure? {
        return Some(Encode(upCmd.error));
      }
      var linkError := HandleIo(bMac, handle, upCmd.value, tryCount, outcomeB);
      if linkError.Some? {
        return Some(Link(linkError.value));
      }
      if cId.Some? {
        upCmd := MakeUpCmd(cId.value, 1, cmd2);
        if upCmd.Failure? {
          return Some(Encode(upCmd.error));
        }
        linkError := HandleIo(cMac, handle, upCmd.value, tryCount, outcomeC);
        if linkError.Some? {
          return Some(Link(linkError.value));
        }
      }
      return None;
    }
  }

  /** The events and the exception of `shutdown`, after the events `before`. */
  function ShutdownRun(bId: int, bMac: string, cId: Option<int>, cMac: string, handle: int, cmd2: Option<int>,
                       tryCount: int, outcomeB: nat -> ConnectOutcome, outcomeC: nat -> ConnectOutcome,
                       before: seq<RadioEvent>): (seq<RadioEvent>, Option<ShutdownError>)
  {
    var cmdB := MakeUpCmd(bId, 1, cmd2);
    if cmdB.Failure? then (before, Some(Encode(cmdB.error)))
    else
      var afterB := before + IoEvents(bMac, handle, cmdB.value, tryCount, outcomeB);
      var errB := ConnectError(outcomeB, tryCount);
      if errB.Some? then (afterB, Some(Link(errB.value)))
      else if cId.None? then (afterB, None)
      else
        var cmdC := MakeUpCmd(cId.value, 1, cmd2);
        if cmdC.Failure? then (afterB, Some(Encode(cmdC.error)))
        else
          var afterC := afterB + IoEvents(cMac, handle, cmdC.value, tryCount, outcomeC);
          var errC := ConnectError(outcomeC, tryCount);
          (afterC, if errC.Some? then Some(Link(errC.value)) else None)
  }

  /** `hndl_io` writes its command, and nothing else, to its device; it writes once connected. */
  lemma {:induction false} IoWrites(mac: string, handle: int, cmd: seq<byte>, tryCount: int, outcome: nat -> ConnectOutcome)
    ensures forall e :: e in IoEvents(mac, handle, cmd, tryCount, outcome) && e.Write? ==> e == Write(mac, handle, cmd)
    ensures ConnectError(outcome, tryCount).None? <==> Write(mac, handle, cmd) in IoEvents(mac, handle, cmd, tryCount, outcome)
  {
    var connects := Connects(mac, ConnectCalls(outcome, tryCount));
    assert Write(mac, handle, cmd) !in connects;
  }

  /**
   * Every command `shutdown` writes tells a lighthouse to switch off after one second: it is
   * written to B's MAC with B's id, or, only when a C id is given, to C's MAC with C's id. When
   * `shutdown` raises nothing, both were written.
   */
  lemma {:induction false} ShutdownWritesOffCommands(bId: int, bMac: string, cId: Option<int>, cMac: string, handle: int,
                                                   cmd2: Option<int>, tryCount: int,
                                                   outcomeB: nat -> ConnectOutcome, outcomeC: nat -> ConnectOutcome)
    ensures var (events, error) := ShutdownRun(bId, bMac, cId, cMac, handle, cmd2, tryCount, outcomeB, outcomeC, []);
            (forall e :: e in events && e.Write? ==>
               e.handle == handle && ParseCmd(e.cmd).Some? && ParseCmd(e.cmd).value.offTimeout == 1 &&
               ((e.mac == bMac && ParseCmd(e.cmd).value.lhId == bId) ||
                (cId.Some? && e.mac == cMac && ParseCmd(e.cmd).value.lhId == cId.value))) &&
            (error.None? ==> Write(bMac, handle, MakeUpCmd(bId, 1, cmd2).value) in events) &&
            (error.None? && cId.Some? ==> Write(cMac, handle, MakeUpCmd(cId.value, 1, cmd2).value) in events)
  {
    var cmdB := MakeUpCmd(bId, 1, cmd2);
    if cmdB.Success? {
      MakeUpCmdRoundTrip(bId, 1, cmd2);
      IoWrites(bMac, handle, cmdB.value, tryCount, outcomeB);
      if cId.Some? {
        var cmdC := MakeUpCmd(cId.value, 1, cmd2);
        if cmdC.Success? {
          MakeUpCmdRoundTrip(cId.value, 1, cmd2);
          IoWrites(cMac, handle, cmdC.value, tryCount, outcomeC);
        }
      }
    }
  }
}
