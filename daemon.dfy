/**
 * scripts/steamvr_daemon.py: the background daemon. It turns everything on once, then once
 * a second looks whether the watched process (SteamVR's compositor) runs and moves between
 * the stages "before SteamVR", "during SteamVR" and "after SteamVR". While SteamVR runs it
 * re-applies the VR switch each second; when SteamVR never starts within 60 seconds, or has
 * been gone for `daemon.wait_after_quit` seconds, it turns everything off and stops.
 *
 * Time is an integer number of milliseconds read once per tick. The process probe
 * (`ps -C <name>`) is the `running` input of a tick. The calls into the orchestrator are
 * recorded as `Call`s; the set `raises` of a tick says which of them raise an exception,
 * which ends the timer thread, so no further tick is scheduled.
 */
module SessionDaemon {

  /** `SteamvrDaemon.Stages`. */
  datatype Stage = Startup | BeforeSteamvr | DuringSteamvr | AfterSteamvr

  /** The orchestrator operations the daemon calls. */
  datatype Call = TurnOn | TurnOff | TurnOnIteration

  /** What one tick observes: whether the watched process runs, the clock, and which calls raise. */
  datatype Tick = Tick(running: bool, now: int, raises: set<Call>)

  /** The stage and the time it was entered. */
  datatype DaemonState = DaemonState(stage: Stage, start: int)

  /** The outcome of `check`: go on (possibly in a new stage) or stop after turning off. */
  datatype Verdict = Continue(state: DaemonState) | Quit

  /** The state after one `loop`, the calls it made, and whether a next tick is scheduled. */
  datatype TickResult = TickResult(state: DaemonState, calls: seq<Call>, scheduled: bool)

  /** How long SteamVR may take to start before the daemon gives up (60 seconds). */
  const StartupTimeoutMs: int := 60000

  /** How long a stage may last before the daemon quits, for the two stages that time out. */
  function Deadline(stage: Stage, waitAfterQuitMs: int): int
  {
    if stage == BeforeSteamvr then StartupTimeoutMs else waitAfterQuitMs
  }

  /** `check` as a function of the stage, the probe and the clock. */
  function Check(d: DaemonState, running: bool, now: int, waitAfterQuitMs: int): (r: Verdict)
  {
    match d.stage
    case BeforeSteamvr =>
      if running then Continue(DaemonState(DuringSteamvr, now))
      else if d.start + StartupTimeoutMs <= now then Quit
      else Continue(d)
    case DuringSteamvr =>
      if !running then Continue(DaemonState(AfterSteamvr, now)) else Continue(d)
    case AfterSteamvr =>
      if running then Continue(DaemonState(DuringSteamvr, now))
      else if d.start + waitAfterQuitMs <= now then Quit
      else Continue(d)
    case Startup => Continue(d)
  }

  /** The daemon quits exactly when SteamVR is not running and a waiting stage has lasted long enough. */
  lemma {:induction false} CheckQuits(d: DaemonState, running: bool, now: int, waitAfterQuitMs: int)
    ensures Check(d, running, now, waitAfterQuitMs).Quit? <==>
              !running && d.stage in {BeforeSteamvr, AfterSteamvr} &&
              d.start + Deadline(d.stage, waitAfterQuitMs) <= now
  {
  }

  /**
   * After a check the stage follows the probe: "during" exactly when SteamVR runs, and "before"
   * is never re-entered once left. A stage that changes starts now; one that stays keeps its start.
   */
  lemma {:induction false} CheckFollowsProbe(d: DaemonState, running: bool, now: int, waitAfterQuitMs: int)
    requires d.stage != Startup
    requires Check(d, running, now, waitAfterQuitMs).Continue?
    ensures var e := Check(d, running, now, waitAfterQuitMs).state;
            (e.stage == DuringSteamvr <==> running) &&
            (e.stage == BeforeSteamvr ==> d.stage == BeforeSteamvr) &&
            (e.stage != Startup) &&
            e.start == (if e.stage == d.stage then d.start else now)
  {
  }

  /**
   * `loop` as a function: a first tick turns on and enters "before SteamVR" (keeping the
   * start time taken at construction), then the check runs; in "during SteamVR" the VR switch
   * is re-applied; a next tick is scheduled unless the check quit or a call raised.
   */
  function TickStep(d: DaemonState, t: Tick, waitAfterQuitMs: int): (r: TickResult)
  {
    var (d1, before) := if d.stage == Startup then (DaemonState(BeforeSteamvr, d.start), [TurnOn]) else (d, []);
    if d.stage == Startup && TurnOn in t.raises then TickResult(d, before, false)
    else
      match Check(d1, t.running, t.now, waitAfterQuitMs)
      case Quit => TickResult(d1, before + [TurnOff], false)
      case Continue(d2) =>
        if d2.stage == DuringSteamvr then
          TickResult(d2, before + [TurnOnIteration], TurnOnIteration !in t.raises)
        else TickResult(d2, before, true)
  }

  /** Turning on happens on the first tick only, and first. */
  lemma {:induction false} TickTurnsOnFirst(d: DaemonState, t: Tick, waitAfterQuitMs: int)
    ensures var r := TickStep(d, t, waitAfterQuitMs);
            (TurnOn in r.calls <==> d.stage == Startup) &&
            (d.stage == Startup ==> r.calls[0] == TurnOn) &&
            (forall i :: 0 < i < |r.calls| ==> r.calls[i] != TurnOn)
  {
  }

  /** A raising turn-on leaves the daemon in its start-up stage with nothing scheduled. */
  lemma {:induction false} TickTurnOnRaises(d: DaemonState, t: Tick, waitAfterQuitMs: int)
    requires d.stage == Startup && TurnOn in t.raises
    ensures TickStep(d, t, waitAfterQuitMs) == TickResult(d, [TurnOn], false)
  {
  }

  /**
   * The VR switch is re-applied exactly on the ticks that see SteamVR running (unless turning
   * on raised first); turning off happens only on a tick that does not, and is the last call.
   */
  lemma {:induction false} TickIterates(d: DaemonState, t: Tick, waitAfterQuitMs: int)
    requires !(d.stage == Startup && TurnOn in t.raises)
    ensures var r := TickStep(d, t, waitAfterQuitMs);
            (TurnOnIteration in r.calls <==> t.running) &&
            (TurnOff in r.calls ==> !t.running && r.calls[|r.calls| - 1] == TurnOff && !r.scheduled) &&
            (TurnOnIteration in r.calls ==> r.calls[|r.calls| - 1] == TurnOnIteration)
  {
    var d1 := if d.stage == Startup then DaemonState(BeforeSteamvr, d.start) else d;
    CheckQuits(d1, t.running, t.now, waitAfterQuitMs);
    if Check(d1, t.running, t.now, waitAfterQuitMs).Continue? {
      CheckFollowsProbe(d1, t.running, t.now, waitAfterQuitMs);
    }
  }

  /** A tick stops the daemon exactly when it turns off or a call it made raised. */
  lemma {:induction false} TickStops(d: DaemonState, t: Tick, waitAfterQuitMs: int)
    ensures var r := TickStep(d, t, waitAfterQuitMs);
            !r.scheduled <==> TurnOff in r.calls || exists c :: c in r.calls && c in t.raises
  {
    var r := TickStep(d, t, waitAfterQuitMs);
    if d.stage == Startup && TurnOn in t.raises {
      assert r.calls[0] == TurnOn;
    } else {
      var d1 := if d.stage == Startup then DaemonState(BeforeSteamvr, d.start) else d;
      if r.scheduled {
        assert !(TurnOff in r.calls) by { TickIterates(d, t, waitAfterQuitMs); }
      } else if Check(d1, t.running, t.now, waitAfterQuitMs).Continue? {
        assert r.calls[|r.calls| - 1] == TurnOnIteration;
      }
    }
  }

  /** The start-up stage is left on the first tick that does not raise and never re-entered. */
  lemma {:induction false} TickLeavesStartup(d: DaemonState, t: Tick, waitAfterQuitMs: int)
    ensures var r := TickStep(d, t, waitAfterQuitMs);
            r.state.stage == Startup <==> d.stage == Startup && TurnOn in t.raises
  {
    var d1 := if d.stage == Startup then DaemonState(BeforeSteamvr, d.start) else d;
    if !(d.stage == Startup && TurnOn in t.raises) && Check(d1, t.running, t.now, waitAfterQuitMs).Continue? {
      CheckFollowsProbe(d1, t.running, t.now, waitAfterQuitMs);
    }
  }

  /** The daemon over a sequence of ticks: it stops consuming ticks once nothing is scheduled. */
  function Run(d: DaemonState, ticks: seq<Tick>, waitAfterQuitMs: int): (r: TickResult)
    decreases |ticks|
  {
    if ticks == [] then TickResult(d, [], true)
    else
      var x := TickStep(d, ticks[0], waitAfterQuitMs);
      if !x.scheduled then x
      else
        var rest := Run(x.state, ticks[1..], waitAfterQuitMs);
        TickResult(rest.state, x.calls + rest.calls, rest.scheduled)
  }

  /** Over a whole run, the orchestrator is turned on at most once, and only as the very first call. */
  lemma {:induction false} RunTurnsOnOnce(d: DaemonState, ticks: seq<Tick>, waitAfterQuitMs: int)
    ensures var r := Run(d, ticks, waitAfterQuitMs);
            (forall i :: 0 < i < |r.calls| ==> r.calls[i] != TurnOn) &&
            (d.stage != Startup ==> TurnOn !in r.calls)
    decreases |ticks|
  {
    if ticks != [] {
      var x := TickStep(d, ticks[0], waitAfterQuitMs);
      TickTurnsOnFirst(d, ticks[0], waitAfterQuitMs);
      if x.scheduled {
        TickLeavesStartup(d, ticks[0], waitAfterQuitMs);
        RunTurnsOnOnce(x.state, ticks[1..], waitAfterQuitMs);
        var rest := Run(x.state, ticks[1..], waitAfterQuitMs);
        assert x.state.stage != Startup;
        forall i | 0 < i < |x.calls + rest.calls|
          ensures (x.calls + rest.calls)[i] != TurnOn
        {
          if i >= |x.calls| {
            assert (x.calls + rest.calls)[i] == rest.calls[i - |x.calls|];
            assert rest.calls[i - |x.calls|] in rest.calls;
          }
        }
      }
    }
  }

  /** Over a whole run, turning off is the last call: after it the daemon has stopped. */
  lemma {:induction false} RunTurnsOffLast(d: DaemonState, ticks: seq<Tick>, waitAfterQuitMs: int)
    ensures var r := Run(d, ticks, waitAfterQuitMs);
            (forall i :: 0 <= i < |r.calls| - 1 ==> r.calls[i] != TurnOff) &&
            (TurnOff in r.calls ==> r.calls[|r.calls| - 1] == TurnOff && !r.scheduled)
    decreases |ticks|
  {
    if ticks != [] {
      var x := TickStep(d, ticks[0], waitAfterQuitMs);
      if d.stage == Startup && TurnOn in ticks[0].raises {
        assert x.calls == [TurnOn];
      } else {
        TickIterates(d, ticks[0], waitAfterQuitMs);
        TickTurnsOnFirst(d, ticks[0], waitAfterQuitMs);
        if x.scheduled {
          assert TurnOff !in x.calls;
          RunTurnsOffLast(x.state, ticks[1..], waitAfterQuitMs);
          var rest := Run(x.state, ticks[1..], waitAfterQuitMs);
          forall i | 0 <= i < |x.calls + rest.calls| - 1
            ensures (x.calls + rest.calls)[i] != TurnOff
          {
            if i < |x.calls| {
              assert x.calls[i] in x.calls;
            }
          }
          if TurnOff in x.calls + rest.calls {
            assert TurnOff in rest.calls;
          }
        } else {
          assert forall i :: 0 <= i < |x.calls| - 1 ==> x.calls[i] != TurnOff by {
            forall i | 0 <= i < |x.calls| - 1
              ensures x.calls[i] != TurnOff
            {
              if d.stage == Startup {
                assert i == 0 && x.calls[0] == TurnOn;
              }
            }
          }
        }
      }
    }
  }

  /** `SteamvrDaemon`: the stage, its start, and the calls made so far. */
  class Daemon {
    var stage: Stage
    var start: int
    /** Whether a next `loop` is scheduled. */
    var alive: bool
    /** The orchestrator calls made so far, in order. */
    var calls: seq<Call>
    /** `daemon.wait_after_quit`, in milliseconds. */
    const waitAfterQuitMs: int

    function State(): DaemonState
      reads this
    {
      DaemonState(stage, start)
    }

    /** `__init__`: start-up stage, entered now. */
    constructor (now: int, waitAfterQuitMs: int)
      ensures State() == DaemonState(Startup, now) && alive && calls == []
      ensures this.waitAfterQuitMs == waitAfterQuitMs
    {
      stage, start, alive, calls := Startup, now, true, [];
      this.waitAfterQuitMs := waitAfterQuitMs;
    }

    /** `update_stage`: enter a stage now. */
    method UpdateStage(newStage: Stage, now: int)
      modifies this
      ensures State() == DaemonState(newStage, now)
      ensures alive == old(alive) && calls == old(calls)
    {
      stage, start := newStage, now;
    }

    /** `check`: update the stage; on timeout turn off. `raised` when turning off raised. */
    method CheckStage(t: Tick) returns (continueRunning: bool, raised: bool)
      modifies this
      ensures Check(old(State()), t.running, t.now, waitAfterQuitMs).Continue? ==>
                continueRunning && !raised && State() == Check(old(State()), t.running, t.now, waitAfterQuitMs).state &&
                calls == old(calls)
      ensures Check(old(State()), t.running, t.now, waitAfterQuitMs).Quit? ==>
                !continueRunning && raised == (TurnOff in t.raises) && State() == old(State()) &&
                calls == old(calls) + [TurnOff]
      ensures alive == old(alive)
    {
      continueRunning, raised := true, false;
      if stage == BeforeSteamvr {
        if t.running {
          UpdateStage(DuringSteamvr, t.now);
        } else if start + StartupTimeoutMs <= t.now {
          calls := calls + [TurnOff];
          raised := TurnOff in t.raises;
          continueRunning := false;
        }
      } else if stage == DuringSteamvr {
        if !t.running {
          UpdateStage(AfterSteamvr, t.now);
        }
      } else if stage == AfterSteamvr {
        if t.running {
          UpdateStage(DuringSteamvr, t.now);
        } else if start + waitAfterQuitMs <= t.now {
          calls := calls + [TurnOff];
          raised := TurnOff in t.raises;
          continueRunning := false;
        }
      }
    }

    /** `loop`: one tick of the daemon; `alive` says whether the timer is re-armed. */
    method Loop(t: Tick)
      requires alive
      modifies this
      ensures var r := TickStep(old(State()), t, waitAfterQuitMs);
              State() == r.state && calls == old(calls) + r.calls && alive == r.scheduled
    {
      var startCalls := calls;
      if stage == Startup {
        calls := calls + [TurnOn];
        if TurnOn in t.raises {
          alive := false;
          return;
        }
        stage := BeforeSteamvr;
      }
      var continueRunning, raised := CheckStage(t);
      if raised {
        alive := false;
        return;
      }
      if stage == DuringSteamvr {
        calls := calls + [TurnOnIteration];
        if TurnOnIteration in t.raises {
          alive := false;
          return;
        }
      }
      alive := continueRunning;
    }
  }
}
