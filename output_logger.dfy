/**
 * `OutputLogger` (scripts/audio/output_logger.py): the most recent standard output of every
 * command, keyed by the command line. A Python dictionary keeps its keys in the order of
 * their first insertion, which is the order `log_all` visits them; `order` records it.
 */
module OutputLogging {
  import opened Text

  /** One `add_output(arguments, stdout)` call. */
  datatype Call = Call(arguments: seq<string>, stdout: string)

  /** The dictionary key of a command: its arguments joined by single spaces. */
  function Key(arguments: seq<string>): string
  {
    Join(arguments, " ")
  }

  /** The dictionary after a sequence of `add_output` calls, starting empty. */
  function Replay(calls: seq<Call>): map<string, string>
  {
    if calls == [] then map[]
    else
      var last := calls[|calls| - 1];
      Replay(calls[..|calls| - 1])[Key(last.arguments) := last.stdout]
  }

  /**
   * After any sequence of calls the dictionary holds exactly the commands that were
   * recorded, each with the output of its last call.
   */
  lemma {:induction false} ReplayKeepsLast(calls: seq<Call>, command: string)
    ensures command in Replay(calls) <==> exists i :: 0 <= i < |calls| && Key(calls[i].arguments) == command
    ensures command in Replay(calls) ==>
              exists i :: 0 <= i < |calls| && Key(calls[i].arguments) == command &&
                Replay(calls)[command] == calls[i].stdout &&
                forall j :: i < j < |calls| ==> Key(calls[j].arguments) != command
    decreases |calls|
  {
    if calls != [] {
      var n := |calls| - 1;
      var init := calls[..n];
      ReplayKeepsLast(init, command);
      if Key(calls[n].arguments) != command {
        if command in Replay(calls) {
          var i :| 0 <= i < |init| && Key(init[i].arguments) == command &&
                   Replay(init)[command] == init[i].stdout &&
                   forall j :: i < j < |init| ==> Key(init[j].arguments) != command;
          assert calls[i] == init[i];
          assert forall j :: i < j < |calls| ==> Key(calls[j].arguments) != command by {
            forall j | i < j < |calls| ensures Key(calls[j].arguments) != command {
              if j < n { assert calls[j] == init[j]; }
            }
          }
        } else {
          forall i | 0 <= i < |calls| ensures Key(calls[i].arguments) != command {
            if i < n { assert calls[i] == init[i]; }
          }
        }
      }
    }
  }

  class OutputLogger {
    /** `outputs_by_command` */
    var outputs: map<string, string>
    /** Its keys in first-insertion order. */
    var order: seq<string>
    /** The debug messages `add_output` printed: the command and its output. */
    var printed: seq<(string, string)>

    ghost predicate Valid()
      reads this
    {
      (forall c :: c in outputs <==> c in order) &&
      (forall i, j :: 0 <= i < j < |order| ==> order[i] != order[j])
    }

    constructor ()
      ensures Valid() && outputs == map[] && order == [] && printed == []
    {
      outputs, order, printed := map[], [], [];
    }

    /** Records `stdout` under the command, printing it first if asked and the command is new. */
    method AddOutput(arguments: seq<string>, stdout: string, printFirst: bool)
      requires Valid()
      modifies this
      ensures Valid()
      ensures outputs == old(outputs)[Key(arguments) := stdout]
      ensures order == if Key(arguments) in old(outputs) then old(order) else old(order) + [Key(arguments)]
      ensures printed == old(printed) +
                         if printFirst && Key(arguments) !in old(outputs) then [(Key(arguments), stdout)] else []
    {
      var command := Key(arguments);
      if printFirst && command !in outputs {
        printed := printed + [(command, stdout)];
      }
      if command !in outputs {
        order := order + [command];
      }
      outputs := outputs[command := stdout];
    }

    /** The messages `log_all` writes: every stored command once, with its latest output. */
    method LogAll() returns (entries: seq<(string, string)>)
      requires Valid()
      ensures |entries| == |outputs|
      ensures forall c :: c in outputs <==> exists i :: 0 <= i < |entries| && entries[i].0 == c
      ensures forall i :: 0 <= i < |entries| ==> entries[i].0 in outputs && entries[i].1 == outputs[entries[i].0]
      ensures forall i, j :: 0 <= i < j < |entries| ==> entries[i].0 != entries[j].0
      ensures |entries| == |order| && forall i :: 0 <= i < |entries| ==> entries[i] == (order[i], outputs[order[i]])
    {
      entries := [];
      var k := 0;
      while k < |order|
        invariant 0 <= k <= |order|
        invariant |entries| == k
        invariant forall i :: 0 <= i < k ==> entries[i] == (order[i], outputs[order[i]])
      {
        entries := entries + [(order[k], outputs[order[k]])];
        k := k + 1;
      }
      OrderCoversKeys();
    }

    lemma {:induction false} OrderCoversKeys()
      requires Valid()
      ensures |outputs| == |order|
    {
      DistinctCardinality(order);
      assert outputs.Keys == set c | c in order;
    }
  }

  lemma {:induction false} DistinctCardinality(s: seq<string>)
    requires forall i, j :: 0 <= i < j < |s| ==> s[i] != s[j]
    ensures |set c | c in s| == |s|
    decreases |s|
  {
    if s != [] {
      var t := s[1..];
      DistinctCardinality(t);
      assert (set c | c in s) == (set c | c in t) + {s[0]};
      assert s[0] !in t by {
        forall j | 0 <= j < |t| ensures t[j] != s[0] { assert t[j] == s[j + 1]; }
      }
    }
  }
}
