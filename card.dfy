/**
 * scripts/pactl_interface/card.py: `pactl list cards` is an indented text; each line
 * becomes a node whose level is its indentation, the nodes are assembled into a tree by
 * `add_children`, the tree is turned into nested dictionaries by `as_dict`, and each
 * top-level dictionary into a `Card` with its profiles and ports.
 */
module Cards {
  import opened Wrappers
  import opened Text

  /** A `Node` before it has children: its indentation and its stripped text. */
  datatype Line = Line(level: nat, text: string)

  /** A node of the indentation tree. */
  datatype Node = Node(level: nat, text: string, children: seq<Node>)

  /** `Node(indented_line)`: level = number of leading whitespace characters, text = stripped line. */
  function MakeLine(raw: string): (l: Line)
    ensures l.text == Strip(raw)
    ensures l.level == |raw| - |LStrip(raw)|
    ensures forall k :: 0 <= k < l.level ==> IsSpace(raw[k])
    ensures l.level < |raw| ==> !IsSpace(raw[l.level])
  {
    LStripSpec(raw);
    Line(|raw| - |LStrip(raw)|, Strip(raw))
  }

  function Leaf(l: Line): Node
  {
    Node(l.level, l.text, [])
  }

  /**
   * `[Node(line) for line in text.splitlines() if line.strip()]`: one line per non-blank
   * line of the output, in order.
   */
  function NodeLines(raws: seq<string>): (ls: seq<Line>)
    ensures |ls| <= |raws|
    ensures forall k :: 0 <= k < |ls| ==> ls[k].text != ""
  {
    if raws == [] then []
    else
      var rest := NodeLines(raws[1..]);
      if Strip(raws[0]) == "" then rest else [MakeLine(raws[0])] + rest
  }

  /**
   * Each raw line contributes, at its place, its node when it is not blank and nothing
   * when it is: the nodes are the non-blank lines, in order.
   */
  lemma {:induction false} NodeLinesAt(before: seq<string>, raw: string, after: seq<string>)
    ensures NodeLines(before + ([raw] + after)) ==
            NodeLines(before) + ((if Strip(raw) == "" then [] else [MakeLine(raw)]) + NodeLines(after))
  {
    NodeLinesAppend(before, [raw] + after);
    NodeLinesAppend([raw], after);
    NodeLinesOne(raw);
  }

  lemma {:induction false} NodeLinesOne(raw: string)
    ensures NodeLines([raw]) == if Strip(raw) == "" then [] else [MakeLine(raw)]
  {
    assert [raw][1..] == [];
  }

  /** There are no nodes exactly when every line is blank. */
  lemma {:induction false} NodeLinesBlank(raws: seq<string>)
    ensures NodeLines(raws) == [] <==> forall k :: 0 <= k < |raws| ==> Strip(raws[k]) == ""
    decreases |raws|
  {
    if raws != [] {
      NodeLinesBlank(raws[1..]);
      assert forall k :: 1 <= k < |raws| ==> raws[k] == raws[1..][k - 1];
    }
  }

  lemma {:induction false} NodeLinesAppend(a: seq<string>, b: seq<string>)
    ensures NodeLines(a + b) == NodeLines(a) + NodeLines(b)
    decreases |a|
  {
    if a == [] {
      assert a + b == b;
    } else {
      assert (a + b)[1..] == a[1..] + b;
      NodeLinesAppend(a[1..], b);
    }
  }

  /** The texts of direct children, in order. */
  function Texts(ns: seq<Node>): seq<string>
  {
    seq(|ns|, k requires 0 <= k < |ns| => ns[k].text)
  }

  /** The texts of the lines at exactly `level`, in order. */
  function TextsAt(ls: seq<Line>, level: int): seq<string>
  {
    if ls == [] then []
    else (if ls[0].level == level then [ls[0].text] else []) + TextsAt(ls[1..], level)
  }

  /** Every line in `ls` is deeper than `level`. */
  predicate AllDeeper(ls: seq<Line>, level: int)
  {
    forall k :: 0 <= k < |ls| ==> ls[k].level > level
  }

  /**
   * `node.add_children(nodes)` for a node at `level` that already has `existing` children:
   * the node's new child list, and what is left of the shared list. The first node's
   * level is the child level; a node at that level becomes a new child, a deeper node
   * goes (with those after it) under the last child, a node at or above `level` is
   * pushed back and ends the call, and a node between the two levels is dropped.
   */
  function AddChildren(level: int, existing: seq<Node>, nodes: seq<Line>): (r: (seq<Node>, seq<Line>))
    requires |nodes| > 0
    ensures |r.1| < |nodes|
    decreases |nodes|, 0
  {
    Collect(level, nodes[0].level, existing + [Leaf(nodes[0])], nodes[1..])
  }

  /** The loop of `add_children` once it has a child at `childLevel`. */
  function Collect(level: int, childLevel: int, children: seq<Node>, nodes: seq<Line>): (r: (seq<Node>, seq<Line>))
    requires |children| > 0 && children[|children| - 1].level == childLevel
    ensures |r.1| <= |nodes|
    decreases |nodes|, 1
  {
    if nodes == [] then (children, [])
    else if nodes[0].level == childLevel then
      Collect(level, childLevel, children + [Leaf(nodes[0])], nodes[1..])
    else if nodes[0].level > childLevel then
      var last := children[|children| - 1];
      var (grand, rest) := AddChildren(last.level, last.children, nodes);
      Collect(level, childLevel, children[..|children| - 1] + [last.(children := grand)], rest)
    else if nodes[0].level <= level then (children, nodes)
    else Collect(level, childLevel, children, nodes[1..])
  }

  /** What a call of `add_children` promises about the tree it grows and the list it leaves. */
  ghost predicate AddChildrenShape(level: int, existing: seq<Node>, nodes: seq<Line>, r: (seq<Node>, seq<Line>))
    requires |nodes| > 0
  {
    |r.1| < |nodes| && r.1 == nodes[|nodes| - |r.1|..] &&
    (r.1 == [] || (r.1[0].level <= level && r.1[0].level < nodes[0].level)) &&
    |r.0| > |existing| && r.0[..|existing|] == existing &&
    Texts(r.0[|existing|..]) == TextsAt(nodes[..|nodes| - |r.1|], nodes[0].level) &&
    forall k :: 0 <= k < |nodes| - |r.1| ==> nodes[k].level > level || nodes[k].level == nodes[0].level
  }

  ghost predicate CollectShape(level: int, childLevel: int, children: seq<Node>, nodes: seq<Line>, r: (seq<Node>, seq<Line>))
    requires |children| > 0
  {
    |r.1| <= |nodes| && r.1 == nodes[|nodes| - |r.1|..] &&
    (r.1 == [] || (r.1[0].level <= level && r.1[0].level < childLevel)) &&
    |r.0| >= |children| && r.0[..|children| - 1] == children[..|children| - 1] &&
    r.0[|children| - 1].text == children[|children| - 1].text &&
    Texts(r.0[|children|..]) == TextsAt(nodes[..|nodes| - |r.1|], childLevel) &&
    forall k :: 0 <= k < |nodes| - |r.1| ==> nodes[k].level > level || nodes[k].level == childLevel
  }

  /**
   * `add_children` consumes a prefix of the shared list and pushes back the first node at
   * or above its own level; its new direct children are, in order, exactly the consumed
   * nodes at the first node's level; every other consumed node is deeper than `level`.
   * (The first node is never above the node's own level: the root is at level 0 and a
   * deeper node starts every nested call.)
   */
  lemma {:induction false} AddChildrenSpec(level: int, existing: seq<Node>, nodes: seq<Line>)
    requires |nodes| > 0 && nodes[0].level >= level
    ensures AddChildrenShape(level, existing, nodes, AddChildren(level, existing, nodes))
    decreases |nodes|, 0
  {
    var children := existing + [Leaf(nodes[0])];
    var r := Collect(level, nodes[0].level, children, nodes[1..]);
    CollectSpec(level, nodes[0].level, children, nodes[1..]);
    ConsumedSplit(nodes, |r.1|);
    assert r.0[..|existing|] == r.0[..|children| - 1][..|existing|];
    assert r.0[|existing|..] == [r.0[|existing|]] + r.0[|children|..];
    forall k | 0 <= k < |nodes| - |r.1|
      ensures nodes[k].level > level || nodes[k].level == nodes[0].level
    {
      if k > 0 { assert nodes[k] == nodes[1..][k - 1]; }
    }
  }

  lemma {:induction false} CollectSpec(level: int, childLevel: int, children: seq<Node>, nodes: seq<Line>)
    requires |children| > 0 && children[|children| - 1].level == childLevel && childLevel >= level
    ensures CollectShape(level, childLevel, children, nodes, Collect(level, childLevel, children, nodes))
    decreases |nodes|, 2
  {
    if nodes == [] {
    } else if nodes[0].level == childLevel {
      CollectChildSpec(level, childLevel, children, nodes);
    } else if nodes[0].level > childLevel {
      CollectGrandchildSpec(level, childLevel, children, nodes);
    } else if nodes[0].level <= level {
    } else {
      CollectDropSpec(level, childLevel, children, nodes);
    }
  }

  /** A node at the child level becomes the next child. */
  lemma {:induction false} CollectChildSpec(level: int, childLevel: int, children: seq<Node>, nodes: seq<Line>)
    requires |children| > 0 && children[|children| - 1].level == childLevel && childLevel >= level
    requires |nodes| > 0 && nodes[0].level == childLevel
    ensures CollectShape(level, childLevel, children, nodes, Collect(level, childLevel, children, nodes))
    decreases |nodes|, 1
  {
    var r := Collect(level, childLevel, children, nodes);
    var more := children + [Leaf(nodes[0])];
    CollectSpec(level, childLevel, more, nodes[1..]);
    ConsumedSplit(nodes, |r.1|);
    assert r.0[..|children| - 1] == r.0[..|more| - 1][..|children| - 1];
    assert r.0[|children|..] == [r.0[|children|]] + r.0[|more|..];
    forall k | 0 <= k < |nodes| - |r.1| ensures nodes[k].level > level || nodes[k].level == childLevel {
      if k > 0 { assert nodes[k] == nodes[1..][k - 1]; }
    }
  }

  /** A deeper node starts a nested call on the last child. */
  lemma {:induction false} CollectGrandchildSpec(level: int, childLevel: int, children: seq<Node>, nodes: seq<Line>)
    requires |children| > 0 && children[|children| - 1].level == childLevel && childLevel >= level
    requires |nodes| > 0 && nodes[0].level > childLevel
    ensures CollectShape(level, childLevel, children, nodes, Collect(level, childLevel, children, nodes))
    decreases |nodes|, 1
  {
    var r := Collect(level, childLevel, children, nodes);
    var last := children[|children| - 1];
    AddChildrenSpec(last.level, last.children, nodes);
    var (grand, rest) := AddChildren(last.level, last.children, nodes);
    var updated := children[..|children| - 1] + [last.(children := grand)];
    CollectSpec(level, childLevel, updated, rest);
    assert r == Collect(level, childLevel, updated, rest);
    GrandchildCombine(level, childLevel, children, nodes, grand, rest, r);
  }

  /** How the nested call's shape and the rest of the loop's shape make up the whole. */
  lemma {:induction false} GrandchildCombine(level: int, childLevel: int, children: seq<Node>, nodes: seq<Line>,
                                             grand: seq<Node>, rest: seq<Line>, r: (seq<Node>, seq<Line>))
    requires |children| > 0 && children[|children| - 1].level == childLevel && childLevel >= level
    requires |nodes| > 0 && nodes[0].level > childLevel
    requires AddChildrenShape(childLevel, children[|children| - 1].children, nodes, (grand, rest))
    requires CollectShape(level, childLevel, children[..|children| - 1] + [children[|children| - 1].(children := grand)], rest, r)
    ensures CollectShape(level, childLevel, children, nodes, r)
  {
    var updated := children[..|children| - 1] + [children[|children| - 1].(children := grand)];
    var used := |nodes| - |rest|;
    assert nodes[..|nodes| - |r.1|] == nodes[..used] + rest[..|rest| - |r.1|];
    TextsAtAppend(nodes[..used], rest[..|rest| - |r.1|], childLevel);
    assert AllDeeper(nodes[..used], childLevel);
    TextsAtDeeper(nodes[..used], childLevel);
    assert r.0[..|children| - 1] == r.0[..|updated| - 1];
    forall k | 0 <= k < |nodes| - |r.1| ensures nodes[k].level > level || nodes[k].level == childLevel {
      if k >= used { assert nodes[k] == rest[k - used]; }
    }
  }

  /** A node strictly between the node's level and the child level is dropped. */
  lemma {:induction false} CollectDropSpec(level: int, childLevel: int, children: seq<Node>, nodes: seq<Line>)
    requires |children| > 0 && children[|children| - 1].level == childLevel && childLevel >= level
    requires |nodes| > 0 && level < nodes[0].level < childLevel
    ensures CollectShape(level, childLevel, children, nodes, Collect(level, childLevel, children, nodes))
    decreases |nodes|, 1
  {
    var r := Collect(level, childLevel, children, nodes);
    CollectSpec(level, childLevel, children, nodes[1..]);
    ConsumedSplit(nodes, |r.1|);
    assert TextsAt(nodes[..|nodes| - |r.1|], childLevel) == TextsAt(nodes[1..][..|nodes| - 1 - |r.1|], childLevel);
    forall k | 0 <= k < |nodes| - |r.1| ensures nodes[k].level > level || nodes[k].level == childLevel {
      if k > 0 { assert nodes[k] == nodes[1..][k - 1]; }
    }
  }

  lemma {:induction false} ConsumedSplit(nodes: seq<Line>, left: nat)
    requires 0 < |nodes| && left <= |nodes| - 1
    ensures nodes[..|nodes| - left] == [nodes[0]] + nodes[1..][..|nodes| - 1 - left]
  {
  }

  lemma {:induction false} TextsAtAppend(a: seq<Line>, b: seq<Line>, level: int)
    ensures TextsAt(a + b, level) == TextsAt(a, level) + TextsAt(b, level)
    decreases |a|
  {
    if a == [] {
      assert a + b == b;
    } else {
      assert (a + b)[0] == a[0];
      assert (a + b)[1..] == a[1..] + b;
      TextsAtAppend(a[1..], b, level);
    }
  }

  lemma {:induction false} TextsAtDeeper(a: seq<Line>, level: int)
    requires AllDeeper(a, level)
    ensures TextsAt(a, level) == []
    decreases |a|
  {
    if a != [] {
      TextsAtDeeper(a[1..], level);
    }
  }

  /** The lines of a forest in pre-order: each node, then its descendants. */
  function Flatten(ns: seq<Node>): seq<Line>
    decreases ns
  {
    if ns == [] then [] else FlattenNode(ns[0]) + Flatten(ns[1..])
  }

  function FlattenNode(n: Node): seq<Line>
    decreases n
  {
    [Line(n.level, n.text)] + Flatten(n.children)
  }

  lemma {:induction false} FlattenAppend(a: seq<Node>, b: seq<Node>)
    ensures Flatten(a + b) == Flatten(a) + Flatten(b)
    decreases |a|
  {
    if a == [] {
      assert a + b == b;
    } else {
      assert (a + b)[1..] == a[1..] + b;
      FlattenAppend(a[1..], b);
    }
  }

  /** The pre-order of a forest whose last tree's children are replaced by `g`. */
  lemma {:induction false} FlattenReplaced(ns: seq<Node>, g: seq<Node>)
    requires |ns| > 0
    ensures var front, last := ns[..|ns| - 1], ns[|ns| - 1];
            var head := Flatten(front) + [Line(last.level, last.text)];
            Flatten(front + [last.(children := g)]) == head + Flatten(g) && Flatten(ns) == head + Flatten(last.children)
  {
    var front, last := ns[..|ns| - 1], ns[|ns| - 1];
    var grown := last.(children := g);
    FlattenAppend(front, [last]);
    FlattenAppend(front, [grown]);
    assert [last][1..] == [] && [grown][1..] == [];
    assert front + [last] == ns;
  }

  /**
   * An account of `add_children` that builds no tree: a stack of open levels, the
   * parent's level first, then the child level of each open depth, deepest last.
   * `Floor` says no open depth is shallower than the first.
   */
  predicate Floor(s: seq<int>)
  {
    |s| >= 2 && forall i :: 1 <= i < |s| ==> s[1] <= s[i]
  }

  /** A line at `x` closes every open depth whose parent is at or deeper than `x`. */
  function Unwind(s: seq<int>, x: int): (r: seq<int>)
    requires |s| >= 2
    ensures 2 <= |r| <= |s| && r == s[..|r|]
    ensures |r| == 2 || x > r[|r| - 2]
    decreases |s|
  {
    if |s| > 2 && x <= s[|s| - 2] then Unwind(s[..|s| - 1], x) else s
  }

  /** What the level stack does with one line. */
  datatype Move = Stop | Keep(next: seq<int>) | Drop(next: seq<int>)

  /**
   * After unwinding, a line at the innermost child level is kept, a deeper one is kept
   * and opens a new depth, a line at or above the outermost parent stops the walk, and a
   * line strictly between the innermost parent and child levels is dropped.
   */
  function StepAt(s: seq<int>, x: int): (m: Move)
    requires |s| >= 2
    ensures !m.Stop? ==> |m.next| >= 2 && m.next[..2] == s[..2] && (Floor(s) ==> Floor(m.next))
  {
    var u := Unwind(s, x);
    var top := u[|u| - 1];
    if x == top then Keep(u)
    else if x > top then Keep(u + [x])
    else if x <= u[|u| - 2] then Stop
    else Drop(u)
  }

  /** The lines the level stack keeps, in order, and the lines it leaves for the caller. */
  function KeptLines(s: seq<int>, lines: seq<Line>): (r: (seq<Line>, seq<Line>))
    requires |s| >= 2
    decreases |lines|
  {
    if lines == [] then ([], [])
    else match StepAt(s, lines[0].level)
      case Stop => ([], lines)
      case Keep(next) =>
        var k := KeptLines(next, lines[1..]);
        ([lines[0]] + k.0, k.1)
      case Drop(next) => KeptLines(next, lines[1..])
  }

  lemma {:induction false} UnwindBelow(s: seq<int>, x: int)
    requires |s| >= 2 && forall i :: 1 <= i < |s| ==> x <= s[i]
    ensures Unwind(s, x) == s[..2]
    decreases |s|
  {
    if |s| > 2 {
      UnwindBelow(s[..|s| - 1], x);
      assert s[..|s| - 1][..2] == s[..2];
    }
  }

  lemma {:induction false} UnwindAbove(a: int, s: seq<int>, x: int)
    requires |s| >= 2 && x > s[0]
    ensures Unwind([a] + s, x) == [a] + Unwind(s, x)
    decreases |s|
  {
    var t := [a] + s;
    if |s| > 2 && x <= s[|s| - 2] {
      assert t[..|t| - 1] == [a] + s[..|s| - 1];
      UnwindAbove(a, s[..|s| - 1], x);
    }
  }

  /** Below `c[0]`, a line moves the stack `[a] + c` as it moves `c`, under `a`. */
  lemma {:induction false} StepNested(a: int, c: seq<int>, x: int)
    requires |c| >= 2 && x > c[0]
    ensures !StepAt(c, x).Stop?
    ensures StepAt([a] + c, x) == (if StepAt(c, x).Keep? then Keep([a] + StepAt(c, x).next) else Drop([a] + StepAt(c, x).next))
  {
    UnwindAbove(a, c, x);
    var u := Unwind(c, x);
    assert [a] + (u + [x]) == [a] + u + [x];
  }

  /** At or above `c[0]`, a line stops the walk of `c` and meets `[a, c[0]]` in the walk of `[a] + c`. */
  lemma {:induction false} StepBelow(a: int, c: seq<int>, x: int)
    requires Floor(c) && c[0] < c[1] && x <= c[0]
    ensures StepAt(c, x).Stop?
    ensures StepAt([a] + c, x) == StepAt([a, c[0]], x)
  {
    UnwindBelow(c, x);
    assert forall i :: 1 <= i < |[a] + c| ==> ([a] + c)[i] == c[i - 1];
    UnwindBelow([a] + c, x);
    assert ([a] + c)[..2] == [a, c[0]];
  }

  /**
   * Walking with the open depths `c` below a parent at `a` is the walk of `c` alone, then
   * the walk at `[a, c[0]]` from where that one stops.
   */
  lemma {:induction false} KeptNested(a: int, c: seq<int>, lines: seq<Line>)
    requires Floor(c) && c[0] < c[1]
    ensures var inner := KeptLines(c, lines);
            var outer := KeptLines([a, c[0]], inner.1);
            KeptLines([a] + c, lines) == (inner.0 + outer.0, outer.1)
    decreases |lines|, 1
  {
    if lines != [] {
      var x := lines[0].level;
      if x <= c[0] {
        StepBelow(a, c, x);
        assert [] + KeptLines([a, c[0]], lines).0 == KeptLines([a, c[0]], lines).0;
      } else {
        KeptNestedStep(a, c, lines);
      }
    }
  }

  lemma {:induction false} KeptNestedStep(a: int, c: seq<int>, lines: seq<Line>)
    requires Floor(c) && c[0] < c[1]
    requires |lines| > 0 && lines[0].level > c[0]
    ensures var inner := KeptLines(c, lines);
            var outer := KeptLines([a, c[0]], inner.1);
            KeptLines([a] + c, lines) == (inner.0 + outer.0, outer.1)
    decreases |lines|, 0
  {
    var x, rest := lines[0].level, lines[1..];
    StepNested(a, c, x);
    var n := StepAt(c, x).next;
    assert n[0] == c[0] && n[1] == c[1] by { assert n[..2] == c[..2]; }
    KeptNested(a, n, rest);
    if StepAt(c, x).Keep? {
      KeptPrepend(a, c, n, lines);
    } else {
      assert KeptLines(c, lines) == KeptLines(n, rest);
      assert KeptLines([a] + c, lines) == KeptLines([a] + n, rest);
    }
  }

  /** A kept line heads both walks, and the rest is the nested claim one line on. */
  lemma {:induction false} KeptPrepend(a: int, c: seq<int>, n: seq<int>, lines: seq<Line>)
    requires |c| >= 2 && |n| >= 2 && n[0] == c[0] && |lines| > 0
    requires StepAt(c, lines[0].level) == Keep(n) && StepAt([a] + c, lines[0].level) == Keep([a] + n)
    requires var inner := KeptLines(n, lines[1..]);
             var outer := KeptLines([a, c[0]], inner.1);
             KeptLines([a] + n, lines[1..]) == (inner.0 + outer.0, outer.1)
    ensures var inner := KeptLines(c, lines);
            var outer := KeptLines([a, c[0]], inner.1);
            KeptLines([a] + c, lines) == (inner.0 + outer.0, outer.1)
  {
    var rest := lines[1..];
    var inner := KeptLines(n, rest);
    var outer := KeptLines([a, c[0]], inner.1);
    assert KeptLines(c, lines) == ([lines[0]] + inner.0, inner.1);
    assert KeptLines([a] + c, lines) == ([lines[0]] + (inner.0 + outer.0), outer.1);
    assert [lines[0]] + (inner.0 + outer.0) == ([lines[0]] + inner.0) + outer.0;
  }

  /**
   * Flattening what `add_children` builds gives back its first line and the lines the
   * level stack keeps, in order, and both leave the same lines to the caller: the tree
   * holds exactly the consumed lines but those the stack drops.
   */
  lemma {:induction false} AddChildrenFlat(level: int, existing: seq<Node>, nodes: seq<Line>)
    requires |nodes| > 0 && nodes[0].level >= level
    ensures var r := AddChildren(level, existing, nodes);
            var k := KeptLines([level, nodes[0].level], nodes[1..]);
            Flatten(r.0) == Flatten(existing) + [nodes[0]] + k.0 && r.1 == k.1
    decreases |nodes|, 0
  {
    var children := existing + [Leaf(nodes[0])];
    CollectFlat(level, nodes[0].level, children, nodes[1..]);
    FlattenAppend(existing, [Leaf(nodes[0])]);
    assert [Leaf(nodes[0])][1..] == [];
  }

  /** The same for the loop once it has a child at `childLevel`. */
  lemma {:induction false} CollectFlat(level: int, childLevel: int, children: seq<Node>, nodes: seq<Line>)
    requires |children| > 0 && children[|children| - 1].level == childLevel && childLevel >= level
    ensures var r := Collect(level, childLevel, children, nodes);
            var k := KeptLines([level, childLevel], nodes);
            Flatten(r.0) == Flatten(children) + k.0 && r.1 == k.1
    decreases |nodes|, 2
  {
    if nodes != [] {
      var x := nodes[0].level;
      assert Unwind([level, childLevel], x) == [level, childLevel];
      if x == childLevel {
        CollectFlat(level, childLevel, children + [Leaf(nodes[0])], nodes[1..]);
        FlattenAppend(children, [Leaf(nodes[0])]);
        assert [Leaf(nodes[0])][1..] == [];
      } else if x > childLevel {
        CollectGrandchildFlat(level, childLevel, children, nodes);
      } else if x > level {
        CollectFlat(level, childLevel, children, nodes[1..]);
      }
    }
  }

  /** A deeper line: the nested walk under the last child, then the rest of the loop. */
  lemma {:induction false} CollectGrandchildFlat(level: int, childLevel: int, children: seq<Node>, nodes: seq<Line>)
    requires |children| > 0 && children[|children| - 1].level == childLevel && childLevel >= level
    requires |nodes| > 0 && nodes[0].level > childLevel
    ensures var r := Collect(level, childLevel, children, nodes);
            var k := KeptLines([level, childLevel], nodes);
            Flatten(r.0) == Flatten(children) + k.0 && r.1 == k.1
    decreases |nodes|, 1
  {
    var x := nodes[0].level;
    var r := Collect(level, childLevel, children, nodes);
    var last := children[|children| - 1];
    var (grand, rest) := AddChildren(last.level, last.children, nodes);
    var updated := children[..|children| - 1] + [last.(children := grand)];
    assert r == Collect(level, childLevel, updated, rest);
    AddChildrenFlat(childLevel, last.children, nodes);
    CollectFlat(level, childLevel, updated, rest);
    assert [level] + [childLevel, x] == [level, childLevel, x];
    KeptNested(level, [childLevel, x], nodes[1..]);
    var deeper := KeptLines([level, childLevel, x], nodes[1..]);
    assert KeptLines([level, childLevel], nodes) == ([nodes[0]] + deeper.0, deeper.1) by {
      assert StepAt([level, childLevel], x) == Keep([level, childLevel, x]);
    }
    FlattenReplaced(children, grand);
    var inner := KeptLines([childLevel, x], nodes[1..]);
    var outer := KeptLines([level, childLevel], inner.1);
    FlatCombine(Flatten(children[..|children| - 1]) + [Line(last.level, last.text)], Flatten(last.children),
                nodes[0], inner.0, outer.0, Flatten(r.0));
  }

  /**
   * A line between the parent's and the child level leaves no trace: the flattened tree
   * and the lines left over are those of the remaining lines alone.
   */
  lemma {:induction false} CollectDropFlat(level: int, childLevel: int, children: seq<Node>, nodes: seq<Line>)
    requires |children| > 0 && children[|children| - 1].level == childLevel && childLevel >= level
    requires |nodes| > 0 && level < nodes[0].level < childLevel
    ensures var r := Collect(level, childLevel, children, nodes);
            var k := KeptLines([level, childLevel], nodes[1..]);
            Flatten(r.0) == Flatten(children) + k.0 && r.1 == k.1
  {
    CollectFlat(level, childLevel, children, nodes[1..]);
  }

  /** The associativity step that closes the nested case. */
  lemma {:induction false} FlatCombine(head: seq<Line>, before: seq<Line>, first: Line, inner: seq<Line>, outer: seq<Line>, all: seq<Line>)
    requires all == head + (before + [first] + inner) + outer
    ensures all == head + before + ([first] + (inner + outer))
  {
  }

  /** Every child of the node, and of its descendants, is indented deeper than its parent. */
  predicate Deeper(n: Node)
    decreases n
  {
    forall k :: 0 <= k < |n.children| ==> n.children[k].level > n.level && Deeper(n.children[k])
  }

  predicate AllDeeperTrees(ns: seq<Node>)
  {
    forall k :: 0 <= k < |ns| ==> Deeper(ns[k])
  }

  /**
   * `add_children` keeps the levels of the existing children, puts every new child at the
   * first node's level, and nests deeper lines only under shallower parents.
   */
  lemma {:induction false} AddChildrenNested(level: int, existing: seq<Node>, nodes: seq<Line>)
    requires |nodes| > 0 && nodes[0].level >= level && AllDeeperTrees(existing)
    ensures var r := AddChildren(level, existing, nodes);
            |r.0| > |existing| && AllDeeperTrees(r.0) &&
            (forall k :: 0 <= k < |existing| ==> r.0[k].level == existing[k].level) &&
            forall k :: |existing| <= k < |r.0| ==> r.0[k].level == nodes[0].level
    decreases |nodes|, 0
  {
    var children := existing + [Leaf(nodes[0])];
    CollectNested(level, nodes[0].level, children, nodes[1..]);
  }

  lemma {:induction false} CollectNested(level: int, childLevel: int, children: seq<Node>, nodes: seq<Line>)
    requires |children| > 0 && children[|children| - 1].level == childLevel && childLevel >= level
    requires AllDeeperTrees(children)
    ensures var r := Collect(level, childLevel, children, nodes);
            |r.0| >= |children| && AllDeeperTrees(r.0) &&
            (forall k :: 0 <= k < |children| ==> r.0[k].level == children[k].level) &&
            forall k :: |children| <= k < |r.0| ==> r.0[k].level == childLevel
    decreases |nodes|, 2
  {
    if nodes != [] {
      var x := nodes[0].level;
      if x == childLevel {
        CollectNested(level, childLevel, children + [Leaf(nodes[0])], nodes[1..]);
      } else if x > childLevel {
        CollectGrandchildNested(level, childLevel, children, nodes);
      } else if x > level {
        CollectNested(level, childLevel, children, nodes[1..]);
      }
    }
  }

  lemma {:induction false} CollectGrandchildNested(level: int, childLevel: int, children: seq<Node>, nodes: seq<Line>)
    requires |children| > 0 && children[|children| - 1].level == childLevel && childLevel >= level
    requires AllDeeperTrees(children)
    requires |nodes| > 0 && nodes[0].level > childLevel
    ensures var r := Collect(level, childLevel, children, nodes);
            |r.0| >= |children| && AllDeeperTrees(r.0) &&
            (forall k :: 0 <= k < |children| ==> r.0[k].level == children[k].level) &&
            forall k :: |children| <= k < |r.0| ==> r.0[k].level == childLevel
    decreases |nodes|, 1
  {
    var r := Collect(level, childLevel, children, nodes);
    var last := children[|children| - 1];
    assert Deeper(last);
    var (grand, rest) := AddChildren(last.level, last.children, nodes);
    var updated := children[..|children| - 1] + [last.(children := grand)];
    assert r == Collect(level, childLevel, updated, rest);
    AddChildrenNested(childLevel, last.children, nodes);
    assert Deeper(last.(children := grand));
    assert forall k :: 0 <= k < |children| ==> updated[k].level == children[k].level;
    CollectNested(level, childLevel, updated, rest);
  }

  /**
   * `Node.add_children` as the source runs it: pop the head of the shared list until it
   * is empty or a node at or above this node's level is pushed back.
   */
  method AddChildrenLoop(level: int, existing: seq<Node>, nodes: seq<Line>) returns (children: seq<Node>, rest: seq<Line>)
    requires |nodes| > 0
    ensures (children, rest) == AddChildren(level, existing, nodes)
    decreases |nodes|
  {
    var childLevel := nodes[0].level;
    ghost var goal := AddChildren(level, existing, nodes);
    children, rest := existing, nodes;
    while rest != []
      invariant (children == existing && rest == nodes) ||
                (|rest| < |nodes| && |children| > 0 && children[|children| - 1].level == childLevel &&
                 Collect(level, childLevel, children, rest) == goal)
      decreases |rest|
    {
      var node := rest[0];
      if node.level == childLevel {
        children := children + [Leaf(node)];
        rest := rest[1..];
      } else if node.level > childLevel {
        var last := children[|children| - 1];
        var grand, left := AddChildrenLoop(last.level, last.children, rest);
        children := children[..|children| - 1] + [last.(children := grand)];
        rest := left;
      } else if node.level <= level {
        // the popped node is put back for the caller
        return;
      } else {
        rest := rest[1..];
      }
    }
  }

  /** What `as_dict` returns: a string for a leaf, `{text: [children]}` otherwise. */
  datatype Dict = Text(text: string) | Entry(key: string, items: seq<Dict>)

  /** `Node.as_dict` */
  function AsDict(n: Node): (d: Dict)
    ensures n.children == [] <==> d.Text?
    ensures d.Text? ==> d.text == n.text
    ensures d.Entry? ==> d.key == n.text && |d.items| == |n.children|
    ensures d.Entry? ==> forall k :: 0 <= k < |d.items| ==> d.items[k] == AsDict(n.children[k])
    decreases n
  {
    if |n.children| > 0 then
      Entry(n.text, seq(|n.children|, k requires 0 <= k < |n.children| => AsDict(n.children[k])))
    else Text(n.text)
  }

  /** A card profile; `name` and `humanName` are `None` when the line does not have the expected shape. */
  datatype Profile = Profile(name: Option<string>, humanName: Option<string>)

  /** A port of a card: its name, the product plugged into it, and the card profiles it is part of. */
  datatype Port = Port(name: string, productName: Option<string>, profiles: seq<Profile>)

  /** A sound card; `profiles` stays `None` when the card has no `Profiles:` block. */
  datatype Card = Card(name: string, profiles: Option<seq<Profile>>, ports: seq<Port>)

  /** The exceptions card parsing raises. */
  datatype CardError =
    | NoCardLines                 // `nodes[0]` on an empty listing
    | NotAMapping(text: string)   // `.items()` on a string
    | NotAString(key: string)     // `re.match` on a dictionary
    | PortKeyUnmatched(key: string) // `.group` on a failed match of '^(.*): '
    | PropertiesNotMapping(text: string) // `content['Properties:']` on a string
    | ProfilesMissing             // iterating `card.profiles` while it is None
    | Incomplete                  // no `Name:` line or no `Ports:` block

  /** The position of the last occurrence of `sub` in `s`. */
  function LastIndexOf(s: string, sub: string): (r: Option<nat>)
    requires |sub| > 0
    ensures r.Some? ==> r.value + |sub| <= |s| && StartsWith(s[r.value..], sub) &&
                        forall j :: r.value < j <= |s| ==> !StartsWith(s[j..], sub)
    ensures r.None? ==> forall j :: 0 <= j <= |s| ==> !StartsWith(s[j..], sub)
  {
    LastIndexFrom(s, sub, |s|)
  }

  function LastIndexFrom(s: string, sub: string, j: nat): (r: Option<nat>)
    requires |sub| > 0 && j <= |s|
    requires forall i :: j < i <= |s| ==> !StartsWith(s[i..], sub)
    ensures r.Some? ==> r.value + |sub| <= |s| && StartsWith(s[r.value..], sub) &&
                        forall i :: r.value < i <= |s| ==> !StartsWith(s[i..], sub)
    ensures r.None? ==> forall i :: 0 <= i <= |s| ==> !StartsWith(s[i..], sub)
    decreases j
  {
    if StartsWith(s[j..], sub) then Some(j)
    else if j == 0 then None
    else LastIndexFrom(s, sub, j - 1)
  }

  /** The position of the first space, if any. */
  function FirstSpace(s: string): (r: Option<nat>)
    ensures r.Some? ==> r.value < |s| && s[r.value] == ' ' && forall k :: 0 <= k < r.value ==> s[k] != ' '
    ensures r.None? ==> forall k :: 0 <= k < |s| ==> s[k] != ' '
  {
    if s == [] then None
    else if s[0] == ' ' then Some(0)
    else match FirstSpace(s[1..])
      case None => None
      case Some(p) => Some(p + 1)
  }

  /**
   * `Card.Profile(line)`: `re.match(r'^([^ ]*): (.*) \(.*\)$', line)`. The name is the
   * space-free text before the first space, which must follow a colon; the human name is
   * what lies between that and the last " (" of a line ending in ")".
   */
  function ParseProfile(line: string): (p: Profile)
    ensures p.name.Some? <==> p.humanName.Some?
  {
    match FirstSpace(line)
    case None => Profile(None, None)
    case Some(sp) =>
      if sp == 0 || line[sp - 1] != ':' then Profile(None, None)
      else
        var rest := line[sp + 1..];
        if rest == [] || rest[|rest| - 1] != ')' then Profile(None, None)
        else match LastIndexOf(rest, " (")
          case None => Profile(None, None)
          case Some(k) => Profile(Some(line[..sp - 1]), Some(rest[..k]))
  }

  /**
   * A profile line written as `name: human (details)` parses back to its name and human
   * name, when the name has no space and the details contain no " (".
   */
  lemma {:induction false} ProfileRoundTrip(name: string, human: string, details: string)
    requires ' ' !in name
    requires forall j :: 0 <= j <= |details| ==> !StartsWith(details[j..], " (")
    ensures ParseProfile(name + ": " + human + " (" + details + ")") == Profile(Some(name), Some(human))
  {
    var line := name + ": " + human + " (" + details + ")";
    var sp := |name| + 1;
    var tail := human + " (" + details + ")";
    assert line == name + ": " + tail;
    FirstSpaceAfterName(name, tail);
    assert line[sp - 1] == ':';
    var rest := line[sp + 1..];
    assert rest == tail;
    LastParen(human, details);
    assert rest[|rest| - 1] == ')';
    assert rest[..|human|] == human;
    assert line[..sp - 1] == name;
  }

  /** The first space of `name: tail` is the one after the colon when `name` has none. */
  lemma {:induction false} FirstSpaceAfterName(name: string, tail: string)
    requires ' ' !in name
    ensures FirstSpace(name + ": " + tail) == Some(|name| + 1)
  {
    var line := name + ": " + tail;
    assert line[|name| + 1] == ' ';
    forall k | 0 <= k < |name| + 1 ensures line[k] != ' ' {
      if k < |name| { assert line[k] == name[k]; }
    }
  }

  /** The " (" before the details is the last one in `human (details)`. */
  lemma {:induction false} LastParen(human: string, details: string)
    requires forall j :: 0 <= j <= |details| ==> !StartsWith(details[j..], " (")
    ensures LastIndexOf(human + " (" + details + ")", " (") == Some(|human|)
  {
    var rest := human + " (" + details + ")";
    var k := |human|;
    assert rest[k..][..2] == " (";
    forall j | k < j <= |rest| ensures !StartsWith(rest[j..], " (") {
      if j == k + 1 {
        assert rest[j] == '(';
      } else if j + 1 < |rest| - 1 {
        var d := j - k - 2;
        assert !StartsWith(details[d..], " (");
        assert rest[j] == details[d] && rest[j + 1] == details[d + 1];
        assert details[d..][..2] == [details[d], details[d + 1]];
        assert rest[j..][..2] == [rest[j], rest[j + 1]];
      } else if j + 1 == |rest| - 1 {
        assert rest[j + 1] == ')';
      } else if j == |rest| - 1 {
        assert |rest[j..]| == 1;
      }
    }
  }

  /**
   * The converse of the round trip: a line that parses has the shape `name: human (details)`
   * with a space-free name, and its " (" is the last one in the line.
   */
  lemma {:induction false} ProfileShape(line: string)
    ensures var p := ParseProfile(line);
            p.name.Some? ==>
              var start := |p.name.value| + 2 + |p.humanName.value|;
              ' ' !in p.name.value && start + 3 <= |line| &&
              line == p.name.value + ": " + p.humanName.value + " (" + line[start + 2..|line| - 1] + ")" &&
              forall j :: start < j <= |line| ==> !StartsWith(line[j..], " (")
  {
    var p := ParseProfile(line);
    if p.name.Some? {
      var sp := FirstSpace(line).value;
      var rest := line[sp + 1..];
      var k := LastIndexOf(rest, " (").value;
      var name, human := line[..sp - 1], rest[..k];
      assert p.name.value == name && p.humanName.value == human;
      forall i | 0 <= i < |name| ensures name[i] != ' ' {
        assert name[i] == line[i];
      }
      ParenSplit(rest, k);
      var start := sp + 1 + k;
      assert rest[k + 2..|rest| - 1] == line[start + 2..|line| - 1];
      ColonSplit(line, sp);
      forall j | start < j <= |line| ensures !StartsWith(line[j..], " (") {
        assert line[j..] == rest[j - sp - 1..];
      }
    }
  }

  /** A text ending in ")" with " (" at `k` is `front (details)`. */
  lemma {:induction false} ParenSplit(rest: string, k: nat)
    requires k + 2 <= |rest| && StartsWith(rest[k..], " (") && rest[|rest| - 1] == ')'
    ensures k + 3 <= |rest| && rest == rest[..k] + " (" + rest[k + 2..|rest| - 1] + ")"
  {
    assert rest[k..][..2] == " (";
    assert rest[k + 1] == '(';
    assert rest == rest[..k] + rest[k..k + 2] + rest[k + 2..|rest| - 1] + rest[|rest| - 1..];
    assert rest[k..k + 2] == rest[k..][..2];
  }

  /** A line with ": " just before position `sp + 1` is `front: back`. */
  lemma {:induction false} ColonSplit(line: string, sp: nat)
    requires 1 <= sp < |line| && line[sp - 1] == ':' && line[sp] == ' '
    ensures line == line[..sp - 1] + ": " + line[sp + 1..]
  {
    assert line[sp - 1..sp + 1] == ": ";
    assert line == line[..sp - 1] + line[sp - 1..sp + 1] + line[sp + 1..];
  }

  /** Every line of the shape `name: human (details)` with a space-free name parses. */
  lemma {:induction false} ProfileMatches(name: string, human: string, details: string)
    requires ' ' !in name
    ensures ParseProfile(name + ": " + human + " (" + details + ")").name.Some?
  {
    var line := name + ": " + human + " (" + details + ")";
    var tail := human + " (" + details + ")";
    assert line == name + ": " + tail;
    FirstSpaceAfterName(name, tail);
    var sp := |name| + 1;
    assert line[sp - 1] == ':';
    assert line[sp + 1..] == tail;
    assert tail[|human|..][..2] == " (";
    assert StartsWith(tail[|human|..], " (");
  }

  /** The text after `prefix` when `line` starts with it (a `^prefix(.*)$` match). */
  function After(line: string, prefix: string): (r: Option<string>)
    ensures r.Some? <==> StartsWith(line, prefix)
    ensures r.Some? ==> line == prefix + r.value
  {
    if StartsWith(line, prefix) then Some(line[|prefix|..]) else None
  }

  /** The pattern of a product-name property; each `.` in it stands for any character. */
  const ProductNamePattern := "device.product.name = \""

  /** `s` starts with `pattern`, read as a regular expression of literals and `.` wildcards. */
  predicate PatternPrefix(s: string, pattern: string)
  {
    |pattern| <= |s| && forall k :: 0 <= k < |pattern| ==> pattern[k] == '.' || s[k] == pattern[k]
  }

  /** `re.match('^device.product.name = \"(.*)$', item)`: the text after the pattern. */
  function ProductName(item: string): (r: Option<string>)
    ensures r.Some? <==> PatternPrefix(item, ProductNamePattern)
    ensures r.Some? ==> item == item[..|ProductNamePattern|] + r.value
  {
    if PatternPrefix(item, ProductNamePattern) then Some(item[|ProductNamePattern|..])
    else None
  }

  /** A property written with the pattern gives back its value. */
  lemma {:induction false} ProductNameOf(value: string)
    ensures ProductName(ProductNamePattern + value) == Some(value)
  {
    var item := ProductNamePattern + value;
    assert item[..|ProductNamePattern|] == ProductNamePattern;
    assert PatternPrefix(item, ProductNamePattern);
  }

  /** The dots of the pattern are unescaped: any character stands in for them. */
  lemma {:induction false} ProductNameDots()
    ensures ProductName("device-product-name = \"Index") == Some("Index")
  {
    assert PatternPrefix("device-product-name = \"Index", ProductNamePattern);
  }

  /** The text of a property item: the string itself, or the key of a one-entry dictionary. */
  function ItemText(d: Dict): string
  {
    match d
    case Text(t) => t
    case Entry(k, _) => k
  }

  /** The product name the `Properties:` block of a port sets: the last item that matches. */
  function PropertiesProduct(items: seq<Dict>, current: Option<string>): (r: Option<string>)
    ensures (forall k :: 0 <= k < |items| ==> ProductName(ItemText(items[k])).None?) ==> r == current
    ensures forall k :: 0 <= k < |items| && ProductName(ItemText(items[k])).Some? &&
                        (forall j :: k < j < |items| ==> ProductName(ItemText(items[j])).None?) ==>
                          r == ProductName(ItemText(items[k]))
    decreases |items|
  {
    if items == [] then current
    else
      var found := ProductName(ItemText(items[0]));
      PropertiesProduct(items[1..], if found.Some? then found else current)
  }

  /** Two `Properties:` blocks in a row: the second continues from what the first set. */
  lemma {:induction false} PropertiesProductAppend(a: seq<Dict>, b: seq<Dict>, current: Option<string>)
    ensures PropertiesProduct(a + b, current) == PropertiesProduct(b, PropertiesProduct(a, current))
    decreases |a|
  {
    if a != [] {
      assert (a + b)[1..] == a[1..] + b;
      var found := ProductName(ItemText(a[0]));
      PropertiesProductAppend(a[1..], b, if found.Some? then found else current);
    } else {
      assert a + b == b;
    }
  }

  /** The card profiles named `name`, in order: each occurs as often as in `profiles`. */
  function ProfilesNamed(profiles: seq<Profile>, name: string): (r: seq<Profile>)
    ensures forall k :: 0 <= k < |r| ==> r[k].name == Some(name) && r[k] in profiles
    ensures forall k :: 0 <= k < |profiles| && profiles[k].name == Some(name) ==> profiles[k] in r
    ensures |r| <= |profiles|
  {
    if profiles == [] then []
    else (if profiles[0].name == Some(name) then [profiles[0]] else []) + ProfilesNamed(profiles[1..], name)
  }

  /** Each profile named `name` occurs among the matches as often as among the card's profiles; no other does. */
  lemma {:induction false} ProfilesNamedCount(profiles: seq<Profile>, name: string, p: Profile)
    ensures multiset(ProfilesNamed(profiles, name))[p] == if p.name == Some(name) then multiset(profiles)[p] else 0
    decreases |profiles|
  {
    if profiles != [] {
      ProfilesNamedCount(profiles[1..], name, p);
      assert profiles == [profiles[0]] + profiles[1..];
    }
  }

  /**
   * The profiles a `Part of profile(s): a, b` line adds to a port: in listed order, each
   * name that exactly one card profile has. The names are compared with `None` names of
   * unparsed profiles too, which never equal a listed name.
   */
  function PortProfiles(names: seq<string>, profiles: seq<Profile>): (r: seq<Profile>)
    ensures forall k :: 0 <= k < |r| ==> r[k] in profiles && r[k].name.Some?
    ensures forall p :: p in r <==> exists k :: 0 <= k < |names| && ProfilesNamed(profiles, names[k]) == [p]
    ensures |r| <= |names|
  {
    if names == [] then []
    else
      var matching := ProfilesNamed(profiles, names[0]);
      var rest := PortProfiles(names[1..], profiles);
      PortProfilesStep(names, profiles, rest);
      (if |matching| == 1 then [matching[0]] else []) + rest
  }

  /** One more listed name: its single match joins the profiles the other names keep. */
  lemma {:induction false} PortProfilesStep(names: seq<string>, profiles: seq<Profile>, rest: seq<Profile>)
    requires names != []
    requires forall p :: p in rest <==> exists k :: 0 <= k < |names[1..]| && ProfilesNamed(profiles, names[1..][k]) == [p]
    ensures var matching := ProfilesNamed(profiles, names[0]);
            forall p :: p in (if |matching| == 1 then [matching[0]] else []) + rest <==>
                        exists k :: 0 <= k < |names| && ProfilesNamed(profiles, names[k]) == [p]
  {
    var matching := ProfilesNamed(profiles, names[0]);
    assert forall k :: 1 <= k < |names| ==> names[k] == names[1..][k - 1];
    assert |matching| == 1 ==> matching == [matching[0]];
  }

  /** The profile one listed name adds: the only card profile of that name, if there is one. */
  function UniqueNamed(profiles: seq<Profile>, name: string): (r: seq<Profile>)
    ensures |r| <= 1
  {
    var matching := ProfilesNamed(profiles, name);
    if |matching| == 1 then matching else []
  }

  /** The names of one line, and of a line split in two, add their profiles in order. */
  lemma {:induction false} PortProfilesAppend(a: seq<string>, b: seq<string>, profiles: seq<Profile>)
    ensures PortProfiles(a + b, profiles) == PortProfiles(a, profiles) + PortProfiles(b, profiles)
    decreases |a|
  {
    if a == [] {
      assert a + b == b;
    } else {
      assert (a + b)[1..] == a[1..] + b;
      PortProfilesAppend(a[1..], b, profiles);
    }
  }

  /** Each listed name contributes its unique profile at its own place in the list. */
  lemma {:induction false} PortProfilesAt(before: seq<string>, name: string, after: seq<string>, profiles: seq<Profile>)
    ensures PortProfiles(before + ([name] + after), profiles) ==
            PortProfiles(before, profiles) + (UniqueNamed(profiles, name) + PortProfiles(after, profiles))
  {
    PortProfilesAppend(before, [name] + after, profiles);
    assert ([name] + after)[1..] == after;
  }

  /** The items of the `Properties:` dictionary among a port's contents. */
  function ContentProperties(content: Dict): seq<Dict>
  {
    if content.Entry? && content.key == "Properties:" then content.items else []
  }

  /** The profile names a `Part of profile(s): ...` line of a port lists. */
  function ContentNames(content: Dict): seq<string>
  {
    match content
    case Entry(_, _) => []
    case Text(t) =>
      if Contains(t, "Properties:") then []
      else match After(t, "Part of profile(s): ")
        case None => []
        case Some(list) => Split(list, ", ")
  }

  /**
   * The port contents the source handles without raising: a `Properties:` dictionary, or
   * a string without "Properties:" in it that lists profiles only once the card has some.
   */
  predicate ContentOk(content: Dict, cardProfiles: Option<seq<Profile>>)
  {
    match content
    case Entry(k, _) => k == "Properties:"
    case Text(t) => !Contains(t, "Properties:") && (StartsWith(t, "Part of profile(s): ") ==> cardProfiles.Some?)
  }

  /** All property items of a port's contents, in order. */
  function PropertyItems(contents: seq<Dict>): seq<Dict>
    decreases |contents|
  {
    if contents == [] then [] else ContentProperties(contents[0]) + PropertyItems(contents[1..])
  }

  /** All profile names a port's contents list, in order. */
  function ListedNames(contents: seq<Dict>): seq<string>
    decreases |contents|
  {
    if contents == [] then [] else ContentNames(contents[0]) + ListedNames(contents[1..])
  }

  /** One item of a port's contents, applied to the port's product name and profiles so far. */
  function PortContent(content: Dict, cardProfiles: Option<seq<Profile>>, port: Port): Result<Port, CardError>
  {
    match content
    case Entry(k, items) =>
      if k == "Properties:" then Success(port.(productName := PropertiesProduct(items, port.productName)))
      else Failure(NotAString(k))
    case Text(t) =>
      if Contains(t, "Properties:") then Failure(PropertiesNotMapping(t))
      else match After(t, "Part of profile(s): ")
        case None => Success(port)
        case Some(list) =>
          if cardProfiles.None? then Failure(ProfilesMissing)
          else Success(port.(profiles := port.profiles + PortProfiles(Split(list, ", "), cardProfiles.value)))
  }

  function PortContents(contents: seq<Dict>, cardProfiles: Option<seq<Profile>>, port: Port): (r: Result<Port, CardError>)
    ensures r.Success? ==> r.value.name == port.name
    decreases |contents|
  {
    if contents == [] then Success(port)
    else match PortContent(contents[0], cardProfiles, port)
      case Failure(e) => Failure(e)
      case Success(p) => PortContents(contents[1..], cardProfiles, p)
  }

  /** The listed profiles a port's contents add, once the card has profiles. */
  function AddedProfiles(contents: seq<Dict>, cardProfiles: Option<seq<Profile>>): seq<Profile>
  {
    if cardProfiles.Some? then PortProfiles(ListedNames(contents), cardProfiles.value) else []
  }

  /** The profiles one content item adds, once the card has profiles. */
  function ContentAdded(content: Dict, cardProfiles: Option<seq<Profile>>): seq<Profile>
  {
    if cardProfiles.Some? then PortProfiles(ContentNames(content), cardProfiles.value) else []
  }

  /** One content item is read without raising exactly when it is acceptable, and then sets what it lists. */
  lemma {:induction false} PortContentStep(content: Dict, cardProfiles: Option<seq<Profile>>, port: Port)
    ensures var s := PortContent(content, cardProfiles, port);
            (s.Success? <==> ContentOk(content, cardProfiles)) &&
            (s.Success? ==> s.value.name == port.name &&
                            s.value.productName == PropertiesProduct(ContentProperties(content), port.productName) &&
                            s.value.profiles == port.profiles + ContentAdded(content, cardProfiles))
  {
    if content.Text? && ContentNames(content) == [] {
      assert port.profiles + [] == port.profiles;
    }
  }

  /**
   * A port's contents are read without raising exactly when each item is acceptable; the
   * product name is then the last match over all property items, and the profiles are those
   * of all listed names, in order.
   */
  lemma {:induction false} PortContentsSpec(contents: seq<Dict>, cardProfiles: Option<seq<Profile>>, port: Port)
    ensures var r := PortContents(contents, cardProfiles, port);
            (r.Success? <==> forall k :: 0 <= k < |contents| ==> ContentOk(contents[k], cardProfiles)) &&
            (r.Success? ==> r.value.productName == PropertiesProduct(PropertyItems(contents), port.productName) &&
                            r.value.profiles == port.profiles + AddedProfiles(contents, cardProfiles))
    decreases |contents|
  {
    if contents == [] {
      assert port.profiles + [] == port.profiles;
    } else {
      var c, tail := contents[0], contents[1..];
      PortContentStep(c, cardProfiles, port);
      var step := PortContent(c, cardProfiles, port);
      if step.Success? {
        var p := step.value;
        PortContentsSpec(tail, cardProfiles, p);
        PropertiesProductAppend(ContentProperties(c), PropertyItems(tail), port.productName);
        AddedProfilesCons(contents, cardProfiles);
        var added, later := ContentAdded(c, cardProfiles), AddedProfiles(tail, cardProfiles);
        ProfilesAssoc(port.profiles, added, later);
      }
    }
  }

  /** Concatenation is associative (stated for profile lists). */
  lemma {:induction false} ProfilesAssoc(a: seq<Profile>, b: seq<Profile>, c: seq<Profile>)
    ensures (a + b) + c == a + (b + c)
  {
  }

  /** The profiles the contents add: those of the first item, then those of the rest. */
  lemma {:induction false} AddedProfilesCons(contents: seq<Dict>, cardProfiles: Option<seq<Profile>>)
    requires contents != []
    ensures AddedProfiles(contents, cardProfiles) == ContentAdded(contents[0], cardProfiles) + AddedProfiles(contents[1..], cardProfiles)
  {
    if cardProfiles.Some? {
      PortProfilesAppend(ContentNames(contents[0]), ListedNames(contents[1..]), cardProfiles.value);
    }
  }

  /**
   * `Card.Port(in_dict, card)`: the name is the key up to its last ": "; the contents set
   * the product name and the profiles, looked up among the card's profiles parsed so far.
   */
  function ParsePort(d: Dict, cardProfiles: Option<seq<Profile>>): (r: Result<Port, CardError>)
    ensures r.Success? <==> d.Entry? && LastIndexOf(d.key, ": ").Some? &&
                            forall k :: 0 <= k < |d.items| ==> ContentOk(d.items[k], cardProfiles)
    ensures r.Success? ==> r.value == Port(d.key[..LastIndexOf(d.key, ": ").value],
                                           PropertiesProduct(PropertyItems(d.items), None),
                                           AddedProfiles(d.items, cardProfiles))
    ensures r.Success? ==> forall k :: 0 <= k < |r.value.profiles| ==> r.value.profiles[k].name.Some?
  {
    match d
    case Text(t) => Failure(NotAMapping(t))
    case Entry(key, contents) =>
      match LastIndexOf(key, ": ")
      case None => Failure(PortKeyUnmatched(key))
      case Some(k) =>
        PortContentsSpec(contents, cardProfiles, Port(key[..k], None, []));
        assert [] + AddedProfiles(contents, cardProfiles) == AddedProfiles(contents, cardProfiles);
        PortContents(contents, cardProfiles, Port(key[..k], None, []))
  }

  /** `[Card.Profile(p) for p in content]`; a dictionary entry makes `re.match` raise. */
  function ParseProfiles(items: seq<Dict>): (r: Result<seq<Profile>, CardError>)
    ensures r.Success? <==> forall k :: 0 <= k < |items| ==> items[k].Text?
    ensures r.Success? ==> |r.value| == |items| && forall k :: 0 <= k < |items| ==> r.value[k] == ParseProfile(items[k].text)
    decreases |items|
  {
    if items == [] then Success([])
    else match items[0]
      case Entry(k, _) => Failure(NotAString(k))
      case Text(t) =>
        match ParseProfiles(items[1..])
        case Failure(e) => Failure(e)
        case Success(ps) => Success([ParseProfile(t)] + ps)
  }

  /** `[Card.Port(p, card) for p in content]`, against the card's profiles so far. */
  function ParsePorts(items: seq<Dict>, cardProfiles: Option<seq<Profile>>): (r: Result<seq<Port>, CardError>)
    ensures r.Success? <==> forall k :: 0 <= k < |items| ==> ParsePort(items[k], cardProfiles).Success?
    ensures r.Success? ==> |r.value| == |items| &&
                           forall k :: 0 <= k < |items| ==> r.value[k] == ParsePort(items[k], cardProfiles).value
    ensures r.Success? ==> forall k, j :: 0 <= k < |r.value| && 0 <= j < |r.value[k].profiles| ==> r.value[k].profiles[j].name.Some?
    decreases |items|
  {
    if items == [] then Success([])
    else match ParsePort(items[0], cardProfiles)
      case Failure(e) => Failure(e)
      case Success(p) =>
        match ParsePorts(items[1..], cardProfiles)
        case Failure(e) => Failure(e)
        case Success(ps) => Success([p] + ps)
  }

  /** The fields `Card.__init__` fills in while it walks the card's items. */
  datatype Partial = Partial(name: Option<string>, profiles: Option<seq<Profile>>, ports: Option<seq<Port>>)

  /** One item of a card: a `Name:` line, a `Profiles:` block, a `Ports:` block, or anything else. */
  function CardItem(d: Dict, acc: Partial): Result<Partial, CardError>
  {
    match d
    case Text(t) =>
      var name := After(t, "Name: ");
      Success(if name.Some? then acc.(name := name) else acc)
    case Entry(key, content) =>
      if key == "Profiles:" then
        match ParseProfiles(content)
        case Failure(e) => Failure(e)
        case Success(ps) => Success(acc.(profiles := Some(ps)))
      else if key == "Ports:" then
        match ParsePorts(content, acc.profiles)
        case Failure(e) => Failure(e)
        case Success(ps) => Success(acc.(ports := Some(ps)))
      else Success(acc)
  }

  /** The loop of `Card.__init__` over the card's items. */
  function CardItems(items: seq<Dict>, acc: Partial): (r: Result<Partial, CardError>)
    decreases |items|
  {
    if items == [] then Success(acc)
    else match CardItem(items[0], acc)
      case Failure(e) => Failure(e)
      case Success(a) => CardItems(items[1..], a)
  }

  predicate IsNameLine(d: Dict) { d.Text? && StartsWith(d.text, "Name: ") }

  predicate IsProfilesBlock(d: Dict) { d.Entry? && d.key == "Profiles:" }

  predicate IsPortsBlock(d: Dict) { d.Entry? && d.key == "Ports:" }

  /** The position of the last item that satisfies `p`. */
  function LastIndex(items: seq<Dict>, p: Dict -> bool): (r: Option<nat>)
    ensures r.Some? ==> r.value < |items| && p(items[r.value]) && forall j :: r.value < j < |items| ==> !p(items[j])
    ensures r.None? ==> forall j :: 0 <= j < |items| ==> !p(items[j])
  {
    if items == [] then None
    else if p(items[|items| - 1]) then Some(|items| - 1)
    else LastIndex(items[..|items| - 1], p)
  }

  /** The card name after `items`: that of the last `Name:` line, else `current`. */
  function NameAfter(items: seq<Dict>, current: Option<string>): Option<string>
  {
    match LastIndex(items, IsNameLine)
    case None => current
    case Some(k) => After(items[k].text, "Name: ")
  }

  /** The card profiles after `items`: those of the last `Profiles:` block, else `current`. */
  function ProfilesAfter(items: seq<Dict>, current: Option<seq<Profile>>): Option<seq<Profile>>
  {
    match LastIndex(items, IsProfilesBlock)
    case None => current
    case Some(k) =>
      match ParseProfiles(items[k].items)
      case Success(ps) => Some(ps)
      case Failure(_) => current
  }

  /**
   * The ports after `items`: those of the last `Ports:` block, parsed against the profiles
   * of the last `Profiles:` block before it; else `current`.
   */
  function PortsAfter(items: seq<Dict>, profiles: Option<seq<Profile>>, current: Option<seq<Port>>): Option<seq<Port>>
  {
    match LastIndex(items, IsPortsBlock)
    case None => current
    case Some(k) =>
      match ParsePorts(items[k].items, ProfilesAfter(items[..k], profiles))
      case Success(ps) => Some(ps)
      case Failure(_) => current
  }

  /** Every `Profiles:` block parses, and every `Ports:` block against the profiles before it. */
  predicate CardItemsOk(items: seq<Dict>, profiles: Option<seq<Profile>>)
  {
    (forall k :: 0 <= k < |items| && IsProfilesBlock(items[k]) ==> ParseProfiles(items[k].items).Success?) &&
    (forall k :: 0 <= k < |items| && IsPortsBlock(items[k]) ==> ParsePorts(items[k].items, ProfilesAfter(items[..k], profiles)).Success?)
  }

  /** The loop over `items + [d]` is the loop over `items` followed by one step for `d`. */
  lemma {:induction false} CardItemsSnoc(items: seq<Dict>, d: Dict, acc: Partial)
    ensures CardItems(items + [d], acc) ==
            match CardItems(items, acc)
            case Failure(e) => Failure(e)
            case Success(a) => CardItem(d, a)
    decreases |items|
  {
    if items == [] {
      assert [d][1..] == [];
    } else {
      assert (items + [d])[1..] == items[1..] + [d];
      match CardItem(items[0], acc)
      case Failure(_) =>
      case Success(a) => CardItemsSnoc(items[1..], d, a);
    }
  }

  /** The last item decides the searches over `front + [d]` when it qualifies, `front` otherwise. */
  lemma {:induction false} AfterSnoc(front: seq<Dict>, d: Dict, acc: Partial)
    ensures NameAfter(front + [d], acc.name) == if IsNameLine(d) then After(d.text, "Name: ") else NameAfter(front, acc.name)
    ensures ProfilesAfter(front + [d], acc.profiles) ==
              if IsProfilesBlock(d) && ParseProfiles(d.items).Success? then Some(ParseProfiles(d.items).value)
              else if IsProfilesBlock(d) then acc.profiles
              else ProfilesAfter(front, acc.profiles)
    ensures PortsAfter(front + [d], acc.profiles, acc.ports) ==
              if IsPortsBlock(d) && ParsePorts(d.items, ProfilesAfter(front, acc.profiles)).Success? then
                Some(ParsePorts(d.items, ProfilesAfter(front, acc.profiles)).value)
              else if IsPortsBlock(d) then acc.ports
              else PortsAfter(front, acc.profiles, acc.ports)
  {
    var s := front + [d];
    assert s[..|s| - 1] == front;
    assert s[|s| - 1] == d;
    if !IsPortsBlock(d) {
      match LastIndex(front, IsPortsBlock)
      case None =>
      case Some(k) => assert s[..k] == front[..k];
    }
  }

  /** `CardItemsOk` over `front + [d]`: over `front`, and for `d` against what `front` left. */
  lemma {:induction false} CardItemsOkSnoc(front: seq<Dict>, d: Dict, profiles: Option<seq<Profile>>)
    ensures CardItemsOk(front + [d], profiles) <==>
            CardItemsOk(front, profiles) &&
            (IsProfilesBlock(d) ==> ParseProfiles(d.items).Success?) &&
            (IsPortsBlock(d) ==> ParsePorts(d.items, ProfilesAfter(front, profiles)).Success?)
  {
    var s := front + [d];
    assert s[..|front|] == front;
    forall k | 0 <= k < |front| ensures s[k] == front[k] && s[..k] == front[..k] { }
  }

  /**
   * What `Card.__init__` collects: the loop succeeds exactly when every `Profiles:` block and
   * every `Ports:` block parses; the name is the last `Name:` line's, the profiles the last
   * `Profiles:` block's, and the ports the last `Ports:` block's, read against the profiles
   * that precede it.
   */
  lemma {:induction false} CardItemsSpec(items: seq<Dict>, acc: Partial)
    ensures var r := CardItems(items, acc);
            (r.Success? <==> CardItemsOk(items, acc.profiles)) &&
            (r.Success? ==> r.value == Partial(NameAfter(items, acc.name), ProfilesAfter(items, acc.profiles),
                                               PortsAfter(items, acc.profiles, acc.ports)))
    decreases |items|
  {
    if items != [] {
      var front, d := items[..|items| - 1], items[|items| - 1];
      assert items == front + [d];
      CardItemsSpec(front, acc);
      CardItemsSnoc(front, d, acc);
      AfterSnoc(front, d, acc);
      CardItemsOkSnoc(front, d, acc.profiles);
    }
  }

  /**
   * `Card(in_dict)`: the card's `Name:` line and its `Profiles:` and `Ports:` blocks;
   * parsing fails when a block does not parse, or there is no name or no ports.
   */
  function ParseCard(d: Dict): (r: Result<Card, CardError>)
    ensures r.Success? <==> d.Entry? && CardItemsOk(d.items, None) &&
                            NameAfter(d.items, None).Some? && LastIndex(d.items, IsPortsBlock).Some?
    ensures r.Success? ==> r.value == Card(NameAfter(d.items, None).value, ProfilesAfter(d.items, None),
                                           PortsAfter(d.items, None, None).value)
    ensures r.Success? ==> NamedProfiles(r.value)
  {
    match d
    case Text(t) => Failure(NotAMapping(t))
    case Entry(_, items) =>
      CardItemsSpec(items, Partial(None, None, None));
      match CardItems(items, Partial(None, None, None))
      case Failure(e) => Failure(e)
      case Success(p) =>
        if p.name.None? || p.ports.None? then Failure(Incomplete)
        else Success(Card(p.name.value, p.profiles, p.ports.value))
  }

  /** Every profile a port of the card lists has a name (only named profiles can match a listed name). */
  predicate NamedProfiles(c: Card)
  {
    forall k, j :: 0 <= k < |c.ports| && 0 <= j < |c.ports[k].profiles| ==> c.ports[k].profiles[j].name.Some?
  }

  /** One card per dictionary, in order; the first that does not parse raises. */
  function ParseCards(ds: seq<Dict>): (r: Result<seq<Card>, CardError>)
    ensures r.Success? <==> forall k :: 0 <= k < |ds| ==> ParseCard(ds[k]).Success?
    ensures r.Success? ==> |r.value| == |ds| && forall k :: 0 <= k < |ds| ==> r.value[k] == ParseCard(ds[k]).value
    decreases |ds|
  {
    if ds == [] then Success([])
    else match ParseCard(ds[0])
      case Failure(e) => Failure(e)
      case Success(c) =>
        var rest := ds[1..];
        assert forall k :: 1 <= k < |ds| ==> ds[k] == rest[k - 1];
        match ParseCards(rest)
        case Failure(e) => Failure(e)
        case Success(cs) => Success([c] + cs)
  }

  /** `as_dict` of each node. */
  function Dicts(ns: seq<Node>): (ds: seq<Dict>)
    ensures |ds| == |ns| && forall k :: 0 <= k < |ns| ==> ds[k] == AsDict(ns[k])
  {
    seq(|ns|, k requires 0 <= k < |ns| => AsDict(ns[k]))
  }

  /** The cards of a `pactl list cards` output. */
  function CardsOf(stdout: string): (r: Result<seq<Card>, CardError>)
    ensures r.Success? ==> forall k :: 0 <= k < |r.value| ==> NamedProfiles(r.value[k])
  {
    var nodes := NodeLines(SplitLines(stdout));
    if nodes == [] then Failure(NoCardLines)
    else ParseCards(Dicts(AddChildren(0, [], nodes).0))
  }

  /**
   * There are no cards at all exactly when every line is blank: the source then indexes
   * `nodes[0]` of an empty list.
   */
  lemma {:induction false} CardsOfBlank(stdout: string)
    ensures (forall k :: 0 <= k < |SplitLines(stdout)| ==> Strip(SplitLines(stdout)[k]) == "") <==>
              NodeLines(SplitLines(stdout)) == []
    ensures NodeLines(SplitLines(stdout)) == [] ==> CardsOf(stdout) == Failure(NoCardLines)
  {
    NodeLinesBlank(SplitLines(stdout));
  }

  /**
   * Otherwise there is one card per child of the root (each as `as_dict` gives it), in
   * order, and parsing succeeds exactly when every child parses as a card.
   */
  lemma {:induction false} CardsOfTree(stdout: string)
    requires NodeLines(SplitLines(stdout)) != []
    ensures var r, ds := CardsOf(stdout), Dicts(AddChildren(0, [], NodeLines(SplitLines(stdout))).0);
            (r.Success? <==> forall k :: 0 <= k < |ds| ==> ParseCard(ds[k]).Success?) &&
            (r.Success? ==> |r.value| == |ds| && forall k :: 0 <= k < |ds| ==> ParseCard(ds[k]) == Success(r.value[k]))
  {
  }

  /**
   * `Card.get_all_cards()`: the tree under a root at level 0, one card per child of the
   * root. The exit code of `pactl list cards` is not checked.
   */
  method GetAllCards(stdout: string) returns (r: Result<seq<Card>, CardError>)
    ensures r == CardsOf(stdout)
  {
    var nodes := NodeLines(SplitLines(stdout));
    if nodes == [] {
      return Failure(NoCardLines);
    }
    var children, _ := AddChildrenLoop(0, [], nodes);
    r := ParseCards(Dicts(children));
  }

  /**
   * When the first line is not indented (as the `Card #n` headers are), the root takes
   * every line: its children are exactly the unindented lines, in order.
   */
  lemma {:induction false} TopLevelTree(nodes: seq<Line>)
    requires |nodes| > 0 && nodes[0].level == 0
    ensures AddChildren(0, [], nodes).1 == []
    ensures Texts(AddChildren(0, [], nodes).0) == TextsAt(nodes, 0)
  {
    CollectAtRoot([Leaf(nodes[0])], nodes[1..]);
    AddChildrenSpec(0, [], nodes);
    var r := AddChildren(0, [], nodes);
    assert r.0[0..] == r.0;
    assert nodes[..|nodes| - |r.1|] == nodes;
  }

  /** Under the root, no line is pushed back: nothing is above level 0. */
  lemma {:induction false} CollectAtRoot(children: seq<Node>, nodes: seq<Line>)
    requires |children| > 0 && children[|children| - 1].level == 0
    ensures Collect(0, 0, children, nodes).1 == []
    decreases |nodes|
  {
    if nodes == [] {
    } else if nodes[0].level == 0 {
      CollectAtRoot(children + [Leaf(nodes[0])], nodes[1..]);
    } else {
      var last := children[|children| - 1];
      var (grand, rest) := AddChildren(last.level, last.children, nodes);
      CollectAtRoot(children[..|children| - 1] + [last.(children := grand)], rest);
    }
  }

  /** A successful listing whose first line is unindented has one card per unindented line. */
  lemma {:induction false} OneCardPerTopLine(stdout: string)
    requires var nodes := NodeLines(SplitLines(stdout)); |nodes| > 0 && nodes[0].level == 0
    requires CardsOf(stdout).Success?
    ensures |CardsOf(stdout).value| == |TextsAt(NodeLines(SplitLines(stdout)), 0)|
  {
    TopLevelTree(NodeLines(SplitLines(stdout)));
  }

  /**
   * A line indented less than its predecessor's children but more than its parent is lost:
   * `b` is nested under `a`, and `c` (level 2, between levels 0 and 4) appears nowhere.
   */
  lemma {:induction false} DroppedLine()
    ensures AddChildren(0, [], [Line(0, "a"), Line(4, "b"), Line(2, "c")]).0 == [Node(0, "a", [Node(4, "b", [])])]
  {
    var a, b, c := Line(0, "a"), Line(4, "b"), Line(2, "c");
    assert [c][1..] == [];
    assert Collect(0, 4, [Leaf(b)], [c]) == ([Leaf(b)], []);
    assert [b, c][1..] == [c];
    assert [] + [Leaf(b)] == [Leaf(b)];
    assert AddChildren(0, [], [b, c]) == ([Leaf(b)], []);
    var grown := [Leaf(a).(children := [Leaf(b)])];
    assert [Leaf(a)][..0] + grown == grown;
    assert [] + [Leaf(a)] == [Leaf(a)];
    assert Collect(0, 0, grown, []) == (grown, []);
    assert Collect(0, 0, [Leaf(a)], [b, c]) == (grown, []);
    assert [a, b, c][1..] == [b, c];
  }

  /** `Card.__eq__`: cards are equal when their names are. */
  predicate CardsEqual(a: Card, b: Card)
  {
    a.name == b.name
  }

  /** `Card.Port.__eq__` as written: `self.card == self.card` always holds, so only the names count. */
  predicate PortsEqualAsWritten(cardA: Card, a: Port, cardB: Card, b: Port)
  {
    CardsEqual(cardA, cardA) && a.name == b.name
  }

  /** Two ports with one name on two different cards compare equal as written. */
  lemma {:induction false} PortsOfDifferentCardsEqual()
    ensures var front := Port("analog-output", None, []);
            var hdmi := Card("hdmi", None, [front]);
            var usb := Card("usb", None, [front]);
            !CardsEqual(hdmi, usb) && PortsEqualAsWritten(hdmi, front, usb, front)
  {
  }

  /** `Card.Port.__eq__` as evidently intended: the same port name on an equal card. */
  predicate PortsEqual(cardA: Card, a: Port, cardB: Card, b: Port)
  {
    CardsEqual(cardA, cardB) && a.name == b.name
  }

  /** Corrected port equality implies the cards are equal, and is what the as-written test adds that to. */
  lemma {:induction false} PortsEqualMeansSameCard(cardA: Card, a: Port, cardB: Card, b: Port)
    ensures PortsEqual(cardA, a, cardB, b) <==> PortsEqualAsWritten(cardA, a, cardB, b) && CardsEqual(cardA, cardB)
    ensures PortsEqual(cardA, a, cardB, b) ==> cardA.name == cardB.name
  {
  }

  /** `Card.set_profile`: the command it runs, none in a dry run. */
  function SetProfileCommand(dryRun: bool, card: Card, profile: Profile): (r: Option<seq<string>>)
    requires profile.name.Some?
    ensures r.None? <==> dryRun
    ensures r.Some? ==> r.value == ["pactl", "set-card-profile", card.name, profile.name.value]
  {
    if dryRun then None else Some(["pactl", "set-card-profile", card.name, profile.name.value])
  }
}
