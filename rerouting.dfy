/**
 * The part both audio engines share (scripts/audio/stream_switcher.py and the older
 * scripts/audio_switcher.py): picking an endpoint by pattern, the per-connection failure
 * records with their retry ceiling and cooldown, and the pass that moves every listed
 * connection to a target endpoint.
 *
 * Time is in integer milliseconds. The exit code of each move command is an input: the
 * function `exit` gives the code of the move of the k-th connection of the pass.
 */
module Rerouting {
  import opened Wrappers
  import opened Text
  import opened Pactl

  /** `re.match(pattern, s) is not None`: whether `s` starts with a match of `pattern`. */
  type Matcher = (string, string) -> bool

  /** What a switcher does that the outside world sees, in order. */
  datatype Event =
    | Exec(arguments: seq<string>)  // a command run through `pactl` (or another program)
    | Pause(ms: int)                // a `time.sleep`

  /** A `Failure` record: a connection whose move failed, how often, and when it last did. */
  datatype Failure = Record(connectionId: int, count: int, lastFailure: int)

  /** `failure_count > 10` stops retries in the new engine, `> 20` in the older one. */
  const NewCeiling: int := 10
  const LegacyCeiling: int := 20

  /** `last_failure + 0.5 > time.time()` blocks a retry. */
  const CooldownMs: int := 500

  /** `Failure(id)`: the first failure of a connection. */
  function NewFailure(id: int, now: int): Failure
  {
    Record(id, 1, now)
  }

  /** `Failure.add_attempt()` */
  function AddAttempt(f: Failure, now: int): Failure
  {
    f.(count := f.count + 1, lastFailure := now)
  }

  /** `Failure.try_again()` */
  predicate TryAgain(f: Failure, now: int, ceiling: int)
  {
    if f.count > ceiling then false
    else if f.lastFailure + CooldownMs > now then false
    else true
  }

  /**
   * A record over the ceiling is never retried; below it, a retry is allowed exactly from
   * 500 ms after the last failure on. A fresh or just-incremented record is not retried in
   * the same instant.
   */
  lemma {:induction false} RetryWindow(f: Failure, now: int, ceiling: int)
    ensures f.count > ceiling ==> !TryAgain(f, now, ceiling)
    ensures f.count <= ceiling ==> (TryAgain(f, now, ceiling) <==> now >= f.lastFailure + CooldownMs)
    ensures !TryAgain(AddAttempt(f, now), now, ceiling)
    ensures !TryAgain(NewFailure(f.connectionId, now), now, ceiling)
    ensures NewFailure(f.connectionId, now).count == 1
    ensures AddAttempt(f, now).count == f.count + 1 && AddAttempt(f, now).lastFailure == now &&
            AddAttempt(f, now).connectionId == f.connectionId
  {
  }

  /** The position of the first record for connection `id`. */
  function FindFailure(failures: seq<Failure>, id: int): (r: Option<nat>)
    ensures r.Some? ==> r.value < |failures| && failures[r.value].connectionId == id &&
                        forall j :: 0 <= j < r.value ==> failures[j].connectionId != id
    ensures r.None? <==> forall j :: 0 <= j < |failures| ==> failures[j].connectionId != id
    decreases |failures|
  {
    if failures == [] then None
    else if failures[0].connectionId == id then Some(0)
    else match FindFailure(failures[1..], id)
      case None => None
      case Some(i) => Some(i + 1)
  }

  /** No two records are about the same connection. */
  predicate UniqueIds(failures: seq<Failure>)
  {
    forall i, j :: 0 <= i < j < |failures| ==> failures[i].connectionId != failures[j].connectionId
  }

  /** Every record has failed at least once and at most once past the ceiling. */
  predicate Bounded(failures: seq<Failure>, ceiling: int)
  {
    forall i :: 0 <= i < |failures| ==> 1 <= failures[i].count <= ceiling + 1
  }

  /** The items whose name `pattern` matches, in order. */
  function MatchingNames(names: seq<string>, pattern: string, matches: Matcher): (r: seq<nat>)
    ensures forall k :: 0 <= k < |r| ==> r[k] < |names| && matches(pattern, names[r[k]])
    ensures forall i :: 0 <= i < |names| && matches(pattern, names[i]) ==> i in r
    ensures forall k, l :: 0 <= k < l < |r| ==> r[k] < r[l]
    decreases |names|
  {
    if names == [] then []
    else
      var rest := MatchingNames(names[..|names| - 1], pattern, matches);
      if matches(pattern, names[|names| - 1]) then rest + [|names| - 1] else rest
  }

  /** `find_matching_stream` raises when a pattern matches more than one endpoint. */
  datatype Ambiguous = Ambiguous(pattern: string, count: nat)

  /**
   * `find_matching_stream` / `find_matching_sink`: the index of the one name the pattern
   * matches; none when no name matches; an error when several do.
   */
  function FindMatching(names: seq<string>, pattern: string, matches: Matcher): (r: Result<Option<nat>, Ambiguous>)
    ensures r.Success? && r.value.Some? ==>
              r.value.value < |names| && matches(pattern, names[r.value.value]) &&
              forall i :: 0 <= i < |names| && i != r.value.value ==> !matches(pattern, names[i])
    ensures r == Success(None) <==> forall i :: 0 <= i < |names| ==> !matches(pattern, names[i])
    ensures r.Failure? <==>
              exists i, j :: 0 <= i < j < |names| && matches(pattern, names[i]) && matches(pattern, names[j])
  {
    var found := MatchingNames(names, pattern, matches);
    if |found| == 1 then Success(Some(found[0]))
    else if |found| == 0 then Success(None)
    else
      assert found[0] < found[1];
      Failure(Ambiguous(pattern, |found|))
  }

  /** The command that moves connection `id` to the endpoint `target`. */
  function MoveArgs(command: string, id: int, target: string): seq<string>
  {
    ["pactl", command, IntToString(id), target]
  }

  /** The connection would be moved now: it has no record, or its record allows a retry. */
  predicate Eligible(failures: seq<Failure>, id: int, now: int, ceiling: int)
  {
    var i := FindFailure(failures, id);
    i.None? || TryAgain(failures[i.value], now, ceiling)
  }

  /** One iteration of the move loop for connection `c`, whose move would exit with `code`. */
  function MoveOne(failures: seq<Failure>, c: Connection, target: string, command: string, now: int, code: int, ceiling: int): (seq<Failure>, seq<Event>)
  {
    var i := FindFailure(failures, c.id);
    if i.Some? && !TryAgain(failures[i.value], now, ceiling) then (failures, [])
    else
      var moved := [Exec(MoveArgs(command, c.id, target))];
      if code == 0 then (failures, moved)
      else if i.None? then (failures + [NewFailure(c.id, now)], moved)
      else (failures[i.value := AddAttempt(failures[i.value], now)], moved)
  }

  /** The move loop over `conns` in order: the records it leaves and the commands it runs. */
  function Moves(failures: seq<Failure>, conns: seq<Connection>, target: string, command: string, now: int,
                 exit: nat -> int, ceiling: int): (seq<Failure>, seq<Event>)
    decreases |conns|
  {
    if conns == [] then (failures, [])
    else
      var n := |conns| - 1;
      var before := Moves(failures, conns[..n], target, command, now, exit, ceiling);
      var step := MoveOne(before.0, conns[n], target, command, now, exit(n), ceiling);
      (step.0, before.1 + step.1)
  }

  /**
   * The loop of `set_stream_for_all_stream_connections` (and of the older
   * `set_sink_for_all_sink_inputs`) after the listings: each connection without a record,
   * or whose record allows a retry, is moved; a failed move adds a record or counts one more
   * failure on the existing one.
   */
  method MoveAll(failures: seq<Failure>, conns: seq<Connection>, target: string, command: string, now: int,
                 exit: nat -> int, ceiling: int) returns (updated: seq<Failure>, events: seq<Event>)
    ensures (updated, events) == Moves(failures, conns, target, command, now, exit, ceiling)
  {
    updated, events := failures, [];
    for k := 0 to |conns|
      invariant (updated, events) == Moves(failures, conns[..k], target, command, now, exit, ceiling)
    {
      assert conns[..k + 1][..k] == conns[..k];
      var c := conns[k];
      ghost var step := MoveOne(updated, c, target, command, now, exit(k), ceiling);
      assert Moves(failures, conns[..k + 1], target, command, now, exit, ceiling) == (step.0, events + step.1);
      var i := FindFailure(updated, c.id);
      if i.None? || TryAgain(updated[i.value], now, ceiling) {
        events := events + [Exec(MoveArgs(command, c.id, target))];
        if exit(k) != 0 {
          if i.None? {
            updated := updated + [NewFailure(c.id, now)];
          } else {
            updated := updated[i.value := AddAttempt(updated[i.value], now)];
          }
        }
      } else {
        assert step == (updated, []);
        assert events + [] == events;
      }
    }
    assert conns[..|conns|] == conns;
  }

  /** A move step keeps the records' ids unique and their counts within one past the ceiling. */
  lemma {:induction false} MoveOneKeeps(failures: seq<Failure>, c: Connection, target: string, command: string, now: int, code: int, ceiling: int)
    requires UniqueIds(failures) && Bounded(failures, ceiling) && ceiling >= 0
    ensures var r := MoveOne(failures, c, target, command, now, code, ceiling).0;
            UniqueIds(r) && Bounded(r, ceiling) && |r| >= |failures| &&
            forall i :: 0 <= i < |failures| ==> r[i].connectionId == failures[i].connectionId && r[i].count >= failures[i].count
  {
    var i := FindFailure(failures, c.id);
    if i.Some? && TryAgain(failures[i.value], now, ceiling) && code != 0 {
      var r := MoveOne(failures, c, target, command, now, code, ceiling).0;
      assert r == failures[i.value := AddAttempt(failures[i.value], now)];
      assert r[i.value].count <= ceiling + 1;
    } else if i.None? && code != 0 {
      var r := MoveOne(failures, c, target, command, now, code, ceiling).0;
      assert r == failures + [NewFailure(c.id, now)];
      assert forall j :: 0 <= j < |failures| ==> r[j] == failures[j];
    }
  }

  /**
   * Over a whole pass, records are never removed or reordered, counts never drop, ids stay
   * unique and no count passes the ceiling by more than one.
   */
  lemma {:induction false} MovesKeep(failures: seq<Failure>, conns: seq<Connection>, target: string, command: string, now: int,
                                     exit: nat -> int, ceiling: int)
    requires UniqueIds(failures) && Bounded(failures, ceiling) && ceiling >= 0
    ensures var r := Moves(failures, conns, target, command, now, exit, ceiling).0;
            UniqueIds(r) && Bounded(r, ceiling) && |r| >= |failures| &&
            forall i :: 0 <= i < |failures| ==> r[i].connectionId == failures[i].connectionId && r[i].count >= failures[i].count
    decreases |conns|
  {
    if conns != [] {
      var n := |conns| - 1;
      var before := Moves(failures, conns[..n], target, command, now, exit, ceiling);
      MovesKeep(failures, conns[..n], target, command, now, exit, ceiling);
      MoveOneKeeps(before.0, conns[n], target, command, now, exit(n), ceiling);
    }
  }

  /** When every move succeeds, no record changes. */
  lemma {:induction false} MovesAllSucceed(failures: seq<Failure>, conns: seq<Connection>, target: string, command: string, now: int,
                                           exit: nat -> int, ceiling: int)
    requires forall k :: 0 <= k < |conns| ==> exit(k) == 0
    ensures Moves(failures, conns, target, command, now, exit, ceiling).0 == failures
    decreases |conns|
  {
    if conns != [] {
      MovesAllSucceed(failures, conns[..|conns| - 1], target, command, now, exit, ceiling);
    }
  }

  /** The move commands for the connections in `conns`, in order. */
  function MoveCommands(conns: seq<Connection>, target: string, command: string): (r: seq<Event>)
    ensures |r| == |conns| && forall k :: 0 <= k < |conns| ==> r[k] == Exec(MoveArgs(command, conns[k].id, target))
  {
    seq(|conns|, k requires 0 <= k < |conns| => Exec(MoveArgs(command, conns[k].id, target)))
  }

  /** The connections the pass moves: those eligible under the records it starts with. */
  function Issued(failures: seq<Failure>, conns: seq<Connection>, now: int, ceiling: int): (r: seq<Connection>)
    ensures forall k :: 0 <= k < |r| ==> r[k] in conns && Eligible(failures, r[k].id, now, ceiling)
    ensures forall k :: 0 <= k < |conns| && Eligible(failures, conns[k].id, now, ceiling) ==> conns[k] in r
    decreases |conns|
  {
    if conns == [] then []
    else
      var n := |conns| - 1;
      Issued(failures, conns[..n], now, ceiling) + (if Eligible(failures, conns[n].id, now, ceiling) then [conns[n]] else [])
  }

  /** No two connections of the listing share an id. */
  predicate DistinctConnections(conns: seq<Connection>)
  {
    forall i, j :: 0 <= i < j < |conns| ==> conns[i].id != conns[j].id
  }

  /** A step for one connection leaves the first record of every other connection as it was. */
  lemma {:induction false} MoveOneOthers(failures: seq<Failure>, c: Connection, target: string, command: string, now: int, code: int, ceiling: int, id: int)
    requires id != c.id
    ensures var r := MoveOne(failures, c, target, command, now, code, ceiling).0;
            FindFailure(r, id) == FindFailure(failures, id) &&
            (FindFailure(failures, id).Some? ==> r[FindFailure(failures, id).value] == failures[FindFailure(failures, id).value])
  {
    var r := MoveOne(failures, c, target, command, now, code, ceiling).0;
    var i := FindFailure(failures, id);
    var ci := FindFailure(failures, c.id);
    if ci.Some? && TryAgain(failures[ci.value], now, ceiling) && code != 0 {
      assert r == failures[ci.value := AddAttempt(failures[ci.value], now)];
      if i.Some? {
        FirstRecord(r, id, i.value);
      }
    } else if ci.None? && code != 0 {
      assert r == failures + [NewFailure(c.id, now)];
      if i.Some? {
        FirstRecord(r, id, i.value);
      } else {
        assert forall j :: 0 <= j < |r| ==> r[j].connectionId != id;
      }
    }
  }

  /** The first record with a connection id is the one `FindFailure` finds. */
  lemma {:induction false} FirstRecord(failures: seq<Failure>, id: int, i: nat)
    requires i < |failures| && failures[i].connectionId == id
    requires forall j :: 0 <= j < i ==> failures[j].connectionId != id
    ensures FindFailure(failures, id) == Some(i)
  {
  }

  /** A pass over connections that do not include `id` leaves the record of `id` alone. */
  lemma {:induction false} MovesOthers(failures: seq<Failure>, conns: seq<Connection>, target: string, command: string, now: int,
                                       exit: nat -> int, ceiling: int, id: int)
    requires forall k :: 0 <= k < |conns| ==> conns[k].id != id
    ensures var r := Moves(failures, conns, target, command, now, exit, ceiling).0;
            FindFailure(r, id) == FindFailure(failures, id) &&
            (FindFailure(failures, id).Some? ==> r[FindFailure(failures, id).value] == failures[FindFailure(failures, id).value])
    decreases |conns|
  {
    if conns != [] {
      var n := |conns| - 1;
      var before := Moves(failures, conns[..n], target, command, now, exit, ceiling);
      MovesOthers(failures, conns[..n], target, command, now, exit, ceiling, id);
      MoveOneOthers(before.0, conns[n], target, command, now, exit(n), ceiling, id);
    }
  }

  /**
   * When the listing has no repeated id, the pass runs exactly one move command per
   * eligible connection, in listing order, and none for a connection whose record blocks a
   * retry: a connection is skipped exactly when it has a record and `try_again` is false.
   */
  lemma {:induction false} MovesIssue(failures: seq<Failure>, conns: seq<Connection>, target: string, command: string, now: int,
                                      exit: nat -> int, ceiling: int)
    requires DistinctConnections(conns)
    ensures Moves(failures, conns, target, command, now, exit, ceiling).1 ==
            MoveCommands(Issued(failures, conns, now, ceiling), target, command)
    decreases |conns|
  {
    if conns != [] {
      var n := |conns| - 1;
      var before := Moves(failures, conns[..n], target, command, now, exit, ceiling);
      assert DistinctConnections(conns[..n]);
      MovesIssue(failures, conns[..n], target, command, now, exit, ceiling);
      MovesOthers(failures, conns[..n], target, command, now, exit, ceiling, conns[n].id);
      var eligible := Eligible(failures, conns[n].id, now, ceiling);
      assert Eligible(before.0, conns[n].id, now, ceiling) == eligible;
      var step := MoveOne(before.0, conns[n], target, command, now, exit(n), ceiling);
      var last := if eligible then [conns[n]] else [];
      assert step.1 == MoveCommands(last, target, command);
      var prefix := Issued(failures, conns[..n], now, ceiling);
      assert Issued(failures, conns, now, ceiling) == prefix + last;
      MoveCommandsAppend(prefix, last, target, command);
    }
  }

  lemma {:induction false} MoveCommandsAppend(a: seq<Connection>, b: seq<Connection>, target: string, command: string)
    ensures MoveCommands(a + b, target, command) == MoveCommands(a, target, command) + MoveCommands(b, target, command)
  {
  }

  /** Every command the move loop runs is a move to the target. */
  lemma {:induction false} MovesTarget(failures: seq<Failure>, conns: seq<Connection>, target: string, command: string, now: int,
                                       exit: nat -> int, ceiling: int)
    ensures forall e :: e in Moves(failures, conns, target, command, now, exit, ceiling).1 ==>
              e.Exec? && |e.arguments| == 4 && e.arguments[1] == command && e.arguments[3] == target
  {
    MovesOnlyGiven(failures, conns, target, command, now, exit, ceiling);
  }

  /** Every command the pass runs moves one of the given connections to the target. */
  lemma {:induction false} MovesOnlyGiven(failures: seq<Failure>, conns: seq<Connection>, target: string, command: string, now: int,
                                          exit: nat -> int, ceiling: int)
    ensures forall e :: e in Moves(failures, conns, target, command, now, exit, ceiling).1 ==>
              exists k :: 0 <= k < |conns| && e == Exec(MoveArgs(command, conns[k].id, target))
    decreases |conns|
  {
    if conns != [] {
      var n := |conns| - 1;
      MovesOnlyGiven(failures, conns[..n], target, command, now, exit, ceiling);
      var before := Moves(failures, conns[..n], target, command, now, exit, ceiling);
      var step := MoveOne(before.0, conns[n], target, command, now, exit(n), ceiling);
      forall e | e in before.1 + step.1 ensures exists k :: 0 <= k < |conns| && e == Exec(MoveArgs(command, conns[k].id, target)) {
        if e in before.1 {
          var k :| 0 <= k < n && e == Exec(MoveArgs(command, conns[..n][k].id, target));
          assert conns[..n][k] == conns[k];
        } else {
          assert e == Exec(MoveArgs(command, conns[n].id, target));
        }
      }
    }
  }
}
