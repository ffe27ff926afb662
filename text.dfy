/**
 * The string operations of Python that the parsers rely on: `str.split(sep)`,
 * `sep.join(parts)`, `s.splitlines()`, `int(s)`, `str(n)`, `strip`/`lstrip`, `startswith`,
 * `in`. Strings are sequences of characters.
 */
module Text {
  import opened Wrappers

  /** `sep.join(parts)` */
  function Join(parts: seq<string>, sep: string): string
  {
    if |parts| == 0 then ""
    else if |parts| == 1 then parts[0]
    else parts[0] + sep + Join(parts[1..], sep)
  }

  /** `s.startswith(prefix)` */
  predicate StartsWith(s: string, prefix: string)
  {
    |prefix| <= |s| && s[..|prefix|] == prefix
  }

  /** `sub in s` for strings */
  predicate Contains(s: string, sub: string)
  {
    exists i :: 0 <= i <= |s| && StartsWith(s[i..], sub)
  }

  /**
   * `s.split(sep)` for a non-empty separator: the text between the
   * left-to-right, non-overlapping occurrences of `sep`.
   */
  function Split(s: string, sep: string): (parts: seq<string>)
    requires |sep| > 0
    ensures |parts| >= 1
    decreases |s|
  {
    if StartsWith(s, sep) then [""] + Split(s[|sep|..], sep)
    else if s == [] then [""]
    else
      var rest := Split(s[1..], sep);
      [[s[0]] + rest[0]] + rest[1..]
  }

  lemma {:induction false} JoinCons(p: string, ps: seq<string>, sep: string)
    requires |ps| >= 1
    ensures Join([p] + ps, sep) == p + sep + Join(ps, sep)
  {
    assert ([p] + ps)[1..] == ps;
  }

  /** Joining after moving one character onto the first part. */
  lemma {:induction false} JoinPrepend(c: char, rest: seq<string>, sep: string)
    requires |rest| >= 1
    ensures Join([[c] + rest[0]] + rest[1..], sep) == [c] + Join(rest, sep)
  {
    if |rest| > 1 {
      JoinCons([c] + rest[0], rest[1..], sep);
      JoinCons(rest[0], rest[1..], sep);
      assert [rest[0]] + rest[1..] == rest;
    }
  }

  /** Splitting and joining with the same separator gives back the text. */
  lemma {:induction false} JoinSplit(s: string, sep: string)
    requires |sep| > 0
    ensures Join(Split(s, sep), sep) == s
    decreases |s|
  {
    if StartsWith(s, sep) {
      var tail := s[|sep|..];
      JoinSplit(tail, sep);
      JoinCons("", Split(tail, sep), sep);
      assert s == sep + tail;
    } else if s != [] {
      var rest := Split(s[1..], sep);
      JoinSplit(s[1..], sep);
      JoinPrepend(s[0], rest, sep);
      assert s == [s[0]] + s[1..];
    }
  }

  /** No part of a split by one character contains that character. */
  lemma {:induction false} SplitPartsFree(s: string, c: char)
    ensures forall k :: 0 <= k < |Split(s, [c])| ==> c !in Split(s, [c])[k]
    decreases |s|
  {
    if StartsWith(s, [c]) {
      SplitPartsFree(s[1..], c);
    } else if s == [] {
    } else {
      SplitPartsFree(s[1..], c);
      assert s[0] != c by { assert s[..1] == [s[0]]; }
    }
  }

  /** The text of each line ending in `\n`, in order: Python's `s.split('\n')[:-1]`. */
  function Lines(s: string): (lines: seq<string>)
  {
    var parts := Split(s, "\n");
    parts[..|parts| - 1]
  }

  /** Each line followed by its terminating newline. */
  function Terminated(lines: seq<string>): string
  {
    if lines == [] then "" else lines[0] + "\n" + Terminated(lines[1..])
  }

  lemma {:induction false} SplitNoSep(t: string, sep: char)
    requires sep !in t
    ensures Split(t, [sep]) == [t]
    decreases |t|
  {
    if t != [] {
      assert !StartsWith(t, [sep]) by { assert t[..1] == [t[0]]; }
      SplitNoSep(t[1..], sep);
      assert [t[0]] + t[1..] == t;
    }
  }

  lemma {:induction false} SplitLine(l: string, rest: string, sep: char)
    requires sep !in l
    ensures Split(l + [sep] + rest, [sep]) == [l] + Split(rest, [sep])
    decreases |l|
  {
    var s := l + [sep] + rest;
    if l == [] {
      assert s == [sep] + rest;
      assert StartsWith(s, [sep]);
      assert s[1..] == rest;
    } else {
      assert !StartsWith(s, [sep]) by { assert s[..1] == [l[0]]; }
      assert s[1..] == l[1..] + [sep] + rest;
      SplitLine(l[1..], rest, sep);
      assert [l[0]] + l[1..] == l;
    }
  }

  /**
   * Listing a text made of newline-terminated lines, followed by an unterminated tail,
   * gives exactly those lines, in order; the tail is dropped.
   */
  lemma {:induction false} LinesOfTerminated(lines: seq<string>, tail: string)
    requires forall k :: 0 <= k < |lines| ==> '\n' !in lines[k]
    requires '\n' !in tail
    ensures Lines(Terminated(lines) + tail) == lines
    decreases |lines|
  {
    if lines == [] {
      SplitNoSep(tail, '\n');
      assert Terminated(lines) + tail == tail;
    } else {
      var s := Terminated(lines) + tail;
      var rest := Terminated(lines[1..]) + tail;
      assert s == lines[0] + "\n" + rest;
      SplitLine(lines[0], rest, '\n');
      LinesOfTerminated(lines[1..], tail);
      var parts := Split(rest, "\n");
      assert Split(s, "\n") == [lines[0]] + parts;
      assert Lines(s) == [lines[0]] + parts[..|parts| - 1];
      assert [lines[0]] + lines[1..] == lines;
    }
  }

  /** Tab field `i` of a line, `line.split('\t')[i]`; `None` where Python raises `IndexError`. */
  function Field(line: string, i: nat): (r: Option<string>)
    ensures r.Some? ==> '\t' !in r.value
  {
    var parts := Split(line, "\t");
    SplitPartsFree(line, '\t');
    if i < |parts| then Some(parts[i]) else None
  }

  predicate IsDigit(c: char) { '0' <= c <= '9' }

  /** Value of a non-empty run of decimal digits, most significant first. */
  function DigitsValue(ds: string): nat
    requires forall k :: 0 <= k < |ds| ==> IsDigit(ds[k])
    decreases |ds|
  {
    if ds == [] then 0
    else DigitsValue(ds[..|ds| - 1]) * 10 + DigitValue(ds[|ds| - 1])
  }

  function DigitValue(c: char): nat
    requires IsDigit(c)
  {
    c as int - '0' as int
  }

  /** Decimal digits of a natural number, without leading zeros. */
  function NatDigits(n: nat): (ds: string)
    ensures |ds| >= 1 && forall k :: 0 <= k < |ds| ==> IsDigit(ds[k])
    decreases n
  {
    var d := [(('0' as int) + n % 10) as char];
    if n < 10 then d else NatDigits(n / 10) + d
  }

  /** `str(n)` for an integer. */
  function IntToString(n: int): string
  {
    if n < 0 then "-" + NatDigits(-n) else NatDigits(n)
  }

  /**
   * `int(s)`: surrounding whitespace, an optional sign, then decimal digits in which a
   * single underscore may separate two digits; `None` where Python raises `ValueError`.
   * The whitespace is dropped one character at a time.
   */
  function ParseInt(s: string): (r: Option<int>)
    ensures r.Some? ==> |s| >= 1
    decreases |s|
  {
    if s != [] && IsSpace(s[0]) then ParseInt(s[1..])
    else if s != [] && IsSpace(s[|s| - 1]) then ParseInt(s[..|s| - 1])
    else ParseBare(s)
  }

  /** The number a text without surrounding whitespace spells: a sign, then grouped digits. */
  function ParseBare(t: string): (r: Option<int>)
    ensures r.Some? ==> |t| >= 1
  {
    if |t| >= 1 && (t[0] == '-' || t[0] == '+') then
      var ds := t[1..];
      if Grouped(ds) then
        var v: int := DigitsValue(Ungrouped(ds));
        Some(if t[0] == '-' then -v else v)
      else None
    else if Grouped(t) then Some(DigitsValue(Ungrouped(t)))
    else None
  }

  /** `int(s)` is the number that `s.strip()` spells. */
  lemma {:induction false} ParseIntStrip(s: string)
    ensures ParseInt(s) == ParseBare(Strip(s))
    decreases |s|
  {
    LStripSpec(s);
    if s != [] && IsSpace(s[0]) {
      ParseIntStrip(s[1..]);
      assert LStrip(s) == LStrip(s[1..]);
    } else if s != [] && IsSpace(s[|s| - 1]) {
      var front := s[..|s| - 1];
      ParseIntStrip(front);
      LStripSpec(front);
      if front != [] {
        assert front[0] == s[0];
      }
      assert LStrip(front) == front;
    } else if s != [] {
      StripBare(s);
    }
  }

  /** Digits with single underscores between two of them: `1_000`, but not `_1`, `1_` or `1__0`. */
  predicate Grouped(ds: string)
  {
    |ds| >= 1 && IsDigit(ds[0]) && IsDigit(ds[|ds| - 1]) &&
    (forall k :: 0 <= k < |ds| ==> IsDigit(ds[k]) || ds[k] == '_') &&
    (forall k :: 0 <= k < |ds| - 1 && ds[k] == '_' ==> ds[k + 1] != '_')
  }

  /** The digits of a grouped number, underscores removed. */
  function Ungrouped(ds: string): (r: string)
    requires forall k :: 0 <= k < |ds| ==> IsDigit(ds[k]) || ds[k] == '_'
    ensures |r| <= |ds| && forall k :: 0 <= k < |r| ==> IsDigit(r[k])
    decreases |ds|
  {
    if ds == [] then []
    else (if ds[0] == '_' then [] else [ds[0]]) + Ungrouped(ds[1..])
  }

  /** Removing underscores from plain digits changes nothing. */
  lemma {:induction false} UngroupedDigits(ds: string)
    requires forall k :: 0 <= k < |ds| ==> IsDigit(ds[k])
    ensures Ungrouped(ds) == ds
    decreases |ds|
  {
    if ds != [] {
      UngroupedDigits(ds[1..]);
      assert [ds[0]] + ds[1..] == ds;
    }
  }

  lemma {:induction false} NatDigitsValue(n: nat)
    ensures DigitsValue(NatDigits(n)) == n
    decreases n
  {
    var ds := NatDigits(n);
    if n >= 10 {
      NatDigitsValue(n / 10);
      assert ds[..|ds| - 1] == NatDigits(n / 10);
    }
  }

  /** `int(str(n)) == n`: printing an integer and parsing it back is the identity. */
  lemma {:induction false} ParseIntToString(n: int)
    ensures ParseInt(IntToString(n)) == Some(n)
  {
    var s := IntToString(n);
    var ds := NatDigits(if n < 0 then -n else n);
    IntToStringBare(n);
    UngroupedDigits(ds);
    NatDigitsValue(if n < 0 then -n else n);
    if n < 0 {
      assert s[1..] == ds;
    } else {
      assert IsDigit(ds[0]);
    }
  }

  /** A printed integer neither starts nor ends with whitespace. */
  lemma {:induction false} IntToStringBare(n: int)
    ensures |IntToString(n)| >= 1 && !IsSpace(IntToString(n)[0]) && !IsSpace(IntToString(n)[|IntToString(n)| - 1])
  {
    var s := IntToString(n);
    var ds := NatDigits(if n < 0 then -n else n);
    assert s[|s| - 1] == ds[|ds| - 1];
    assert IsDigit(ds[0]) && IsDigit(ds[|ds| - 1]);
    PrintableNotSpace(s[0]);
    PrintableNotSpace(s[|s| - 1]);
  }

  /**
   * `int` ignores surrounding whitespace: a number printed with blanks around it parses
   * back to itself.
   */
  lemma {:induction false} ParseIntPadded(pre: string, n: int, post: string)
    requires forall k :: 0 <= k < |pre| ==> IsSpace(pre[k])
    requires forall k :: 0 <= k < |post| ==> IsSpace(post[k])
    ensures ParseInt(pre + IntToString(n) + post) == Some(n)
  {
    var s := IntToString(n);
    IntToStringBare(n);
    StripPadded(pre, s, post);
    ParseIntStrip(pre + s + post);
    ParseIntStrip(s);
    StripBare(s);
    ParseIntToString(n);
  }

  /** Stripping a text that neither starts nor ends with whitespace keeps it. */
  lemma {:induction false} StripBare(s: string)
    requires |s| >= 1 && !IsSpace(s[0]) && !IsSpace(s[|s| - 1])
    ensures Strip(s) == s
  {
    LStripSpec(s);
    RStripSpec(s);
  }

  /** Stripping removes whitespace padding around such a text, and nothing else. */
  lemma {:induction false} StripPadded(pre: string, s: string, post: string)
    requires |s| >= 1 && !IsSpace(s[0]) && !IsSpace(s[|s| - 1])
    requires forall k :: 0 <= k < |pre| ==> IsSpace(pre[k])
    requires forall k :: 0 <= k < |post| ==> IsSpace(post[k])
    ensures Strip(pre + s + post) == s
  {
    var l := LStrip(pre + s + post);
    LStripSpec(pre + s + post);
    RStripSpec(s + post);
    assert (pre + s + post)[|pre|] == s[0];
    assert |l| == |s + post|;
    assert l == s + post;
    var r := RStrip(s + post);
    assert (s + post)[|s| - 1] == s[|s| - 1];
    assert |r| == |s|;
  }

  /**
   * `c.isspace()`, the characters `strip` removes: the ASCII controls 9 to 13 and 28 to
   * 31, the space, and the Unicode separators U+0085, U+00A0, U+1680, U+2000 to U+200A,
   * U+2028, U+2029, U+202F, U+205F and U+3000.
   */
  predicate IsSpace(c: char)
  {
    SpaceFrom(c as int, 0)
  }

  /** The code-point ranges of `IsSpace`, in increasing order. */
  function SpaceRange(i: nat): (r: (int, int))
    requires i < 11
  {
    if i == 0 then (9, 13) else if i == 1 then (28, 32) else if i == 2 then (0x85, 0x85)
    else if i == 3 then (0xA0, 0xA0) else if i == 4 then (0x1680, 0x1680)
    else if i == 5 then (0x2000, 0x200A) else if i == 6 then (0x2028, 0x2028)
    else if i == 7 then (0x2029, 0x2029) else if i == 8 then (0x202F, 0x202F)
    else if i == 9 then (0x205F, 0x205F) else (0x3000, 0x3000)
  }

  /** `n` lies in one of the ranges from the `i`-th on. */
  predicate SpaceFrom(n: int, i: nat)
    requires i <= 11
    decreases 11 - i
  {
    i < 11 && (SpaceRange(i).0 <= n <= SpaceRange(i).1 || SpaceFrom(n, i + 1))
  }

  /** The whitespace characters, written out. */
  lemma {:induction false} IsSpaceCodes(c: char)
    ensures var n := c as int;
            IsSpace(c) <==>
              (9 <= n <= 13) || (28 <= n <= 32) || n == 0x85 || n == 0xA0 || n == 0x1680 || (0x2000 <= n <= 0x200A) ||
              n == 0x2028 || n == 0x2029 || n == 0x202F || n == 0x205F || n == 0x3000
  {
    var n := c as int;
    assert SpaceFrom(n, 9) <==> n == 0x205F || n == 0x3000 by {
      assert SpaceFrom(n, 10) <==> n == 0x3000 by { assert !SpaceFrom(n, 11); }
    }
    assert SpaceFrom(n, 5) <==> (0x2000 <= n <= 0x200A) || n == 0x2028 || n == 0x2029 || n == 0x202F || n == 0x205F || n == 0x3000 by {
      assert SpaceFrom(n, 8) <==> n == 0x202F || SpaceFrom(n, 9);
      assert SpaceFrom(n, 7) <==> n == 0x2029 || SpaceFrom(n, 8);
      assert SpaceFrom(n, 6) <==> n == 0x2028 || SpaceFrom(n, 7);
    }
    assert SpaceFrom(n, 2) <==> n == 0x85 || n == 0xA0 || n == 0x1680 || SpaceFrom(n, 5) by {
      assert SpaceFrom(n, 4) <==> n == 0x1680 || SpaceFrom(n, 5);
      assert SpaceFrom(n, 3) <==> n == 0xA0 || SpaceFrom(n, 4);
    }
  }

  /** The ranges from the third on start at U+0085. */
  lemma {:induction false} SpaceFromAbove(n: int, i: nat)
    requires 2 <= i <= 11 && n < 0x85
    ensures !SpaceFrom(n, i)
    decreases 11 - i
  {
    if i < 11 {
      SpaceFromAbove(n, i + 1);
    }
  }

  /** The printable ASCII characters, digits and signs among them, are not whitespace. */
  lemma {:induction false} PrintableNotSpace(c: char)
    requires 33 <= c as int < 127
    ensures !IsSpace(c)
  {
    SpaceFromAbove(c as int, 2);
  }

  /** `s.lstrip()` */
  function LStrip(s: string): (r: string)
    ensures |r| <= |s|
  {
    if s != [] && IsSpace(s[0]) then LStrip(s[1..]) else s
  }

  /** `lstrip` removes the leading whitespace, all of it, and nothing else. */
  lemma {:induction false} LStripSpec(s: string)
    ensures var r := LStrip(s);
            r == s[|s| - |r|..] && (r == [] || !IsSpace(r[0])) &&
            forall k :: 0 <= k < |s| - |r| ==> IsSpace(s[k])
    decreases |s|
  {
    if s != [] && IsSpace(s[0]) {
      LStripSpec(s[1..]);
      var r := LStrip(s);
      forall k | 1 <= k < |s| - |r| ensures IsSpace(s[k]) {
        assert s[k] == s[1..][k - 1];
      }
    }
  }

  /** `s.rstrip()` */
  function RStrip(s: string): (r: string)
    ensures |r| <= |s|
  {
    if s != [] && IsSpace(s[|s| - 1]) then RStrip(s[..|s| - 1]) else s
  }

  /** `rstrip` removes the trailing whitespace, all of it, and nothing else. */
  lemma {:induction false} RStripSpec(s: string)
    ensures var r := RStrip(s);
            r == s[..|r|] && (r == [] || !IsSpace(r[|r| - 1])) &&
            forall k :: |r| <= k < |s| ==> IsSpace(s[k])
    decreases |s|
  {
    if s != [] && IsSpace(s[|s| - 1]) {
      RStripSpec(s[..|s| - 1]);
    }
  }

  /** `s.strip()` */
  function Strip(s: string): (r: string)
    ensures |r| <= |s|
  {
    RStrip(LStrip(s))
  }

  /**
   * The line boundaries of `str.splitlines`: `\n`, `\r`, `\v`, `\f`, the separators 28
   * to 30, U+0085, U+2028 and U+2029 (`\r\n` counts as one boundary).
   */
  predicate IsLineBreak(c: char)
  {
    var n := c as int;
    (10 <= n <= 13) || (28 <= n <= 30) || n == 0x85 || n == 0x2028 || n == 0x2029
  }

  /** The index of the first line boundary, or the length when there is none. */
  function FirstBreak(s: string): (i: nat)
    ensures i <= |s| && (i < |s| ==> IsLineBreak(s[i]))
    ensures forall k :: 0 <= k < i ==> !IsLineBreak(s[k])
  {
    if s == [] then 0
    else if IsLineBreak(s[0]) then 0
    else FirstBreak(s[1..]) + 1
  }

  /**
   * `s.splitlines()`: the text between line boundaries, without a trailing empty line
   * after a final boundary; no line holds a boundary.
   */
  function SplitLines(s: string): (lines: seq<string>)
    ensures forall k, j :: 0 <= k < |lines| && 0 <= j < |lines[k]| ==> !IsLineBreak(lines[k][j])
    decreases |s|
  {
    if s == [] then []
    else
      var i := FirstBreak(s);
      if i == |s| then [s]
      else
        var width := if s[i] == '\r' && i + 1 < |s| && s[i + 1] == '\n' then 2 else 1;
        [s[..i]] + SplitLines(s[i + width..])
  }

  /**
   * Lines without boundaries, each ended by a newline, split back into those lines, in
   * order; an unterminated last line is kept too.
   */
  lemma {:induction false} SplitLinesOfTerminated(lines: seq<string>, tail: string)
    requires forall k, j :: 0 <= k < |lines| && 0 <= j < |lines[k]| ==> !IsLineBreak(lines[k][j])
    requires forall j :: 0 <= j < |tail| ==> !IsLineBreak(tail[j])
    ensures SplitLines(Terminated(lines) + tail) == lines + (if tail == [] then [] else [tail])
    decreases |lines|
  {
    var s := Terminated(lines) + tail;
    if lines == [] {
      assert s == tail;
      if tail != [] {
        assert FirstBreak(tail) == |tail|;
      }
    } else {
      var l := lines[0];
      var rest := Terminated(lines[1..]) + tail;
      assert s == l + "\n" + rest;
      assert FirstBreak(s) == |l| by { BreakAt(l, rest); }
      assert s[|l| + 1..] == rest;
      SplitLinesOfTerminated(lines[1..], tail);
      assert s[..|l|] == l;
      assert [l] + lines[1..] == lines;
    }
  }

  lemma {:induction false} BreakAt(l: string, rest: string)
    requires forall j :: 0 <= j < |l| ==> !IsLineBreak(l[j])
    ensures FirstBreak(l + "\n" + rest) == |l|
  {
    var s := l + "\n" + rest;
    assert s[|l|] == '\n';
    assert forall k :: 0 <= k < |l| ==> s[k] == l[k];
  }
}
