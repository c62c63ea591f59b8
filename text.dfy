/**
 * Python's string primitives that the build script relies on, over `seq<char>`:
 * `str.isspace`, `str.splitlines`, `"sep".join`, `str.strip`/`lstrip`,
 * `str.startswith` and the one `str.replace` call of `rewrite_main`.
 */
module Text {

  /** Python's `str.isspace()` (and the `\s` class of `re` on str patterns). */
  predicate IsSpace(c: char) {
    var n := c as int;
    (9 <= n <= 13) || (28 <= n <= 32) || n == 0x85 || n == 0xA0 || n == 0x1680
    || (0x2000 <= n <= 0x200A) || n == 0x2028 || n == 0x2029 || n == 0x202F
    || n == 0x205F || n == 0x3000
  }

  /** The characters at which Python's `str.splitlines()` ends a line. */
  predicate IsLineBoundary(c: char) {
    var n := c as int;
    (10 <= n <= 13) || (28 <= n <= 30) || n == 0x85 || n == 0x2028 || n == 0x2029
  }

  /** ASCII `\d`. */
  predicate IsDigit(c: char) {
    '0' <= c <= '9'
  }

  /** ASCII `\w`. */
  predicate IsWordChar(c: char) {
    ('a' <= c <= 'z') || ('A' <= c <= 'Z') || IsDigit(c) || c == '_'
  }

  predicate NoBoundary(line: string) {
    forall i :: 0 <= i < |line| ==> !IsLineBoundary(line[i])
  }

  predicate StartsWith(s: string, prefix: string) {
    |prefix| <= |s| && s[..|prefix|] == prefix
  }

  predicate EndsWith(s: string, suffix: string) {
    |suffix| <= |s| && s[|s| - |suffix|..] == suffix
  }

  /** Index of the first line boundary of `s`, or `|s|` when there is none. */
  function LineEnd(s: string): (k: nat)
    ensures k <= |s|
    ensures k < |s| ==> IsLineBoundary(s[k])
    ensures forall i :: 0 <= i < k ==> !IsLineBoundary(s[i])
  {
    if s == [] || IsLineBoundary(s[0]) then 0 else 1 + LineEnd(s[1..])
  }

  /**
   * `s.splitlines()`: a final line terminator does not start an empty line,
   * and `"\r\n"` is one terminator.
   */
  function SplitLines(s: string): (lines: seq<string>)
    ensures forall i :: 0 <= i < |lines| ==> NoBoundary(lines[i])
    decreases |s|
  {
    if s == [] then []
    else
      var k := LineEnd(s);
      if k == |s| then [s]
      else
        var next := if s[k] == '\r' && k + 1 < |s| && s[k + 1] == '\n' then k + 2 else k + 1;
        [s[..k]] + SplitLines(s[next..])
  }

  /** `sep.join(parts)`. */
  function Join(parts: seq<string>, sep: string): string {
    if parts == [] then []
    else if |parts| == 1 then parts[0]
    else parts[0] + sep + Join(parts[1..], sep)
  }

  /** `"\n".join(lines)`. */
  function JoinLines(lines: seq<string>): string {
    Join(lines, "\n")
  }

  lemma {:induction false} LineEndOfJoin(a: string, rest: string)
    requires NoBoundary(a)
    ensures LineEnd(a + "\n" + rest) == |a|
    decreases |a|
  {
    var s := a + "\n" + rest;
    if a != [] {
      assert s[1..] == a[1..] + "\n" + rest;
      LineEndOfJoin(a[1..], rest);
    }
  }

  /**
   * Splitting joined lines gives the lines back, unless the last of them is
   * empty (a trailing `"\n"` does not start a line of its own).
   */
  lemma {:induction false} SplitJoinLines(lines: seq<string>)
    requires forall i :: 0 <= i < |lines| ==> NoBoundary(lines[i])
    requires lines != [] ==> lines[|lines| - 1] != ""
    ensures SplitLines(JoinLines(lines)) == lines
  {
    if |lines| == 1 {
      assert LineEnd(lines[0]) == |lines[0]|;
    } else if |lines| > 1 {
      var a, rest := lines[0], Join(lines[1..], "\n");
      var s := a + "\n" + rest;
      assert JoinLines(lines) == s;
      LineEndOfJoin(a, rest);
      assert s[..|a|] == a;
      assert s[|a| + 1..] == rest;
      SplitJoinLines(lines[1..]);
    }
  }

  /** Joined lines followed by one `"\n"` split back into exactly those lines. */
  lemma {:induction false} SplitJoinLinesTerminated(lines: seq<string>)
    requires lines != []
    requires forall i :: 0 <= i < |lines| ==> NoBoundary(lines[i])
    ensures SplitLines(JoinLines(lines) + "\n") == lines
  {
    if |lines| == 1 {
      SplitLinesCons(lines[0], "");
      assert lines[0] + "\n" == lines[0] + "\n" + "";
    } else {
      SplitJoinLinesTerminated(lines[1..]);
      assert JoinLines(lines) + "\n" == lines[0] + "\n" + (JoinLines(lines[1..]) + "\n");
      SplitLinesCons(lines[0], JoinLines(lines[1..]) + "\n");
    }
  }

  /** `s.lstrip()`. */
  function LStrip(s: string): (r: string)
    ensures |r| <= |s|
  {
    if s != [] && IsSpace(s[0]) then LStrip(s[1..]) else s
  }

  /** `lstrip` removes a leading run of whitespace and stops at the first other character. */
  lemma {:induction false} LStripAfter(w: string, s: string)
    requires forall i :: 0 <= i < |w| ==> IsSpace(w[i])
    requires s == [] || !IsSpace(s[0])
    ensures LStrip(w + s) == s
  {
    if w != [] {
      assert (w + s)[1..] == w[1..] + s;
      LStripAfter(w[1..], s);
    }
  }

  /** `s.rstrip()`. */
  function RStrip(s: string): (r: string)
    ensures |r| <= |s|
  {
    if s != [] && IsSpace(s[|s| - 1]) then RStrip(s[..|s| - 1]) else s
  }

  /** `lstrip` removes exactly the maximal run of leading whitespace. */
  lemma {:induction false} LStripShape(s: string)
    ensures LStrip(s) == s[|s| - |LStrip(s)|..]
    ensures LStrip(s) == [] || !IsSpace(LStrip(s)[0])
    ensures forall i :: 0 <= i < |s| - |LStrip(s)| ==> IsSpace(s[i])
  {
    if s != [] && IsSpace(s[0]) {
      LStripShape(s[1..]);
      assert forall i :: 1 <= i < |s| - |LStrip(s)| ==> s[i] == s[1..][i - 1];
    }
  }

  /** `rstrip` removes exactly the maximal run of trailing whitespace. */
  lemma {:induction false} RStripShape(s: string)
    ensures RStrip(s) == s[..|RStrip(s)|]
    ensures RStrip(s) == [] || !IsSpace(RStrip(s)[|RStrip(s)| - 1])
    ensures forall i :: |RStrip(s)| <= i < |s| ==> IsSpace(s[i])
  {
    if s != [] && IsSpace(s[|s| - 1]) {
      RStripShape(s[..|s| - 1]);
    }
  }

  /** `s.strip()`. */
  function Strip(s: string): string {
    RStrip(LStrip(s))
  }

  /** `len(line) - len(line.lstrip())`: the number of leading whitespace characters. */
  function IndentOf(line: string): nat {
    |line| - |LStrip(line)|
  }

  /** The leading whitespace of `s`: what `^(\s*)` captures. */
  function LeadingSpace(s: string): (w: string)
    ensures StartsWith(s, w)
    ensures forall i :: 0 <= i < |w| ==> IsSpace(w[i])
    ensures |w| == |s| || !IsSpace(s[|w|])
  {
    LStripShape(s);
    s[..IndentOf(s)]
  }

  lemma StripIdempotent(s: string)
    ensures Strip(Strip(s)) == Strip(s)
  {
    var l := LStrip(s);
    var t := RStrip(l);
    LStripShape(s);
    RStripShape(l);
    RStripShape(t);
    assert LStrip(t) == t by {
      if t != [] {
        assert t[0] == l[0];
      }
    }
  }

  /** A string with no whitespace at either end is its own `strip()`. */
  lemma StripUnchanged(s: string)
    requires s != [] ==> !IsSpace(s[0]) && !IsSpace(s[|s| - 1])
    ensures Strip(s) == s
  {
  }

  /** Splitting a line followed by `"\n"` gives that line, then the lines of the rest. */
  lemma SplitLinesCons(a: string, rest: string)
    requires NoBoundary(a)
    ensures SplitLines(a + "\n" + rest) == [a] + SplitLines(rest)
  {
    var s := a + "\n" + rest;
    LineEndOfJoin(a, rest);
    assert s[..|a|] == a;
    assert s[|a| + 1..] == rest;
  }

  /** True when `pattern` occurs in `s`. */
  predicate Contains(s: string, pattern: string)
    decreases |s|
  {
    StartsWith(s, pattern) || (s != [] && Contains(s[1..], pattern))
  }

  const SETUP_DOT := "setup."

  /**
   * `s.replace("setup.", "")`: one left-to-right pass deleting non-overlapping
   * occurrences.
   */
  function DeleteSetupDot(s: string): (r: string)
    ensures |r| <= |s|
    decreases |s|
  {
    if |s| < |SETUP_DOT| then s
    else if s[..|SETUP_DOT|] == SETUP_DOT then DeleteSetupDot(s[|SETUP_DOT|..])
    else [s[0]] + DeleteSetupDot(s[1..])
  }

  /** With no `setup.` in it, the text goes through the deletion pass unchanged. */
  lemma {:induction false} DeleteSetupDotIdentity(s: string)
    requires !Contains(s, SETUP_DOT)
    ensures DeleteSetupDot(s) == s
    decreases |s|
  {
    if |s| >= |SETUP_DOT| {
      DeleteSetupDotIdentity(s[1..]);
      assert s == [s[0]] + s[1..];
    }
  }

  /**
   * One pass does not remove every `setup.`: deleting the inner occurrence of
   * `setsetup.up.` joins its two halves into a new one.
   */
  lemma DeleteSetupDotLeavesOccurrence()
    ensures DeleteSetupDot("setsetup.up.") == "setup."
    ensures Contains(DeleteSetupDot("setsetup.up."), SETUP_DOT)
  {
    var s := "setsetup.up.";
    assert s[..6][3] != SETUP_DOT[3];
    assert s[1..][..6][0] != SETUP_DOT[0];
    assert s[2..][..6][0] != SETUP_DOT[0];
    assert s[1..][1..] == s[2..];
    assert s[2..][1..] == s[3..];
    assert s[3..][..6] == SETUP_DOT;
    assert s[3..][6..] == "up.";
    assert DeleteSetupDot("up.") == "up.";
    assert DeleteSetupDot(s) == "set" + "up.";
    assert StartsWith("setup.", SETUP_DOT);
  }
}
