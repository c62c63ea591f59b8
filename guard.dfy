/**
 * `strip_main_guard` (build.py:23-49): removes each `if __name__ == "__main__"`
 * block by a line scan that tracks whether it is skipping and at which indent
 * the guard stood.
 */
module Guard {
  import opened Text

  const GUARD_DOUBLE := "if __name__ == \"__main__\""
  const GUARD_SINGLE := "if __name__ == '__main__'"

  /** A line whose stripped text starts with either spelling of the guard. */
  predicate IsGuardLine(line: string) {
    var t := Strip(line);
    StartsWith(t, GUARD_DOUBLE) || StartsWith(t, GUARD_SINGLE)
  }

  /** `not line.strip()`. */
  predicate IsBlank(line: string) {
    Strip(line) == ""
  }

  /** The scan's state: copying lines, or skipping the body of a guard at `guardIndent`. */
  datatype Scan = Copying | Skipping(guardIndent: nat)

  /** The state the scan is in after `line`. */
  function Next(st: Scan, line: string): Scan {
    if IsGuardLine(line) then Skipping(IndentOf(line))
    else match st
      case Copying => Copying
      case Skipping(g) =>
        if !IsBlank(line) && IndentOf(line) <= g then Copying else st
  }

  /** Whether the scan in state `st` copies `line`. */
  predicate Keeps(st: Scan, line: string) {
    !IsGuardLine(line) && (st.Copying? || (!IsBlank(line) && IndentOf(line) <= st.guardIndent))
  }

  /** The lines copied when the scan starts in `st` on `lines`. */
  function StripFrom(lines: seq<string>, st: Scan): seq<string> {
    if lines == [] then []
    else (if Keeps(st, lines[0]) then [lines[0]] else []) + StripFrom(lines[1..], Next(st, lines[0]))
  }

  function GuardStripped(lines: seq<string>): seq<string> {
    StripFrom(lines, Copying)
  }

  /** What `strip_main_guard(text)` returns. */
  function GuardStrippedText(text: string): string {
    JoinLines(GuardStripped(SplitLines(text)))
  }

  method StripMainGuard(text: string) returns (r: string)
    ensures r == GuardStrippedText(text)
  {
    var out := StripGuardLines(SplitLines(text));
    r := JoinLines(out);
  }

  /** The scan state the loop's `skipping` and `guard_indent` stand for. */
  function ScanOf(skipping: bool, guardIndent: nat): Scan {
    if skipping then Skipping(guardIndent) else Copying
  }

  lemma StripFromStep(lines: seq<string>, i: nat, st: Scan)
    requires i < |lines|
    ensures StripFrom(lines[i..], st) == (if Keeps(st, lines[i]) then [lines[i]] else []) + StripFrom(lines[i + 1..], Next(st, lines[i]))
  {
    assert lines[i..][1..] == lines[i + 1..];
  }

  /** How each branch of the loop body moves the scan, and whether it copies the line. */
  lemma ScanStep(skipping: bool, guardIndent: nat, line: string)
    ensures var st := ScanOf(skipping, guardIndent);
            if IsGuardLine(line) then !Keeps(st, line) && Next(st, line) == Skipping(IndentOf(line))
            else if skipping && IsBlank(line) then !Keeps(st, line) && Next(st, line) == st
            else if skipping && IndentOf(line) > guardIndent then !Keeps(st, line) && Next(st, line) == st
            else Keeps(st, line) && Next(st, line) == Copying
  {
  }

  /** One line of the loop keeps its invariant. */
  lemma Advance(lines: seq<string>, i: nat, whole: seq<string>, before: seq<string>, out: seq<string>, st: Scan, st': Scan)
    requires i < |lines|
    requires before + StripFrom(lines[i..], st) == whole
    requires out == before + (if Keeps(st, lines[i]) then [lines[i]] else [])
    requires st' == Next(st, lines[i])
    ensures out + StripFrom(lines[i + 1..], st') == whole
  {
    StripFromStep(lines, i, st);
  }

  /** The loop of `strip_main_guard`, over the lines of the text. */
  method StripGuardLines(lines: seq<string>) returns (out: seq<string>)
    ensures out == GuardStripped(lines)
  {
    out := [];
    var skipping := false;
    var guardIndent: nat := 0;
    var i := 0;
    while i < |lines|
      invariant 0 <= i <= |lines|
      invariant out + StripFrom(lines[i..], ScanOf(skipping, guardIndent)) == GuardStripped(lines)
    {
      var line := lines[i];
      ghost var st := ScanOf(skipping, guardIndent);
      ghost var before := out;
      ScanStep(skipping, guardIndent, line);
      if IsGuardLine(line) {
        skipping := true;
        guardIndent := IndentOf(line);
      } else if skipping && IsBlank(line) {
      } else if skipping && IndentOf(line) > guardIndent {
      } else {
        skipping := false;
        out := out + [line];
      }
      Advance(lines, i, GuardStripped(lines), before, out, st, ScanOf(skipping, guardIndent));
      i := i + 1;
    }
    assert lines[i..] == [];
    assert out + [] == GuardStripped(lines);
  }

  /** `a` is `b` with some lines left out, in the same order. */
  predicate Subsequence(a: seq<string>, b: seq<string>)
    decreases |b|
  {
    if a == [] then true
    else if b == [] then false
    else (a[0] == b[0] && Subsequence(a[1..], b[1..])) || Subsequence(a, b[1..])
  }

  lemma {:induction false} SubsequenceCons(x: string, a: seq<string>, b: seq<string>)
    requires Subsequence(a, b)
    ensures Subsequence([x] + a, [x] + b)
  {
    assert ([x] + a)[1..] == a && ([x] + b)[1..] == b;
  }

  lemma {:induction false} SubsequenceSkip(x: string, a: seq<string>, b: seq<string>)
    requires Subsequence(a, b)
    ensures Subsequence(a, [x] + b)
  {
    assert ([x] + b)[1..] == b;
  }

  /** No guard line survives, whatever the starting state. */
  lemma {:induction false} StripFromNoGuard(lines: seq<string>, st: Scan)
    ensures forall i :: 0 <= i < |StripFrom(lines, st)| ==> !IsGuardLine(StripFrom(lines, st)[i])
  {
    if lines != [] {
      StripFromNoGuard(lines[1..], Next(st, lines[0]));
    }
  }

  /** Copied lines keep their order: the output is a subsequence of the input. */
  lemma {:induction false} StripFromSubsequence(lines: seq<string>, st: Scan)
    ensures Subsequence(StripFrom(lines, st), lines)
  {
    if lines != [] {
      var st' := Next(st, lines[0]);
      StripFromSubsequence(lines[1..], st');
      assert lines == [lines[0]] + lines[1..];
      if Keeps(st, lines[0]) {
        SubsequenceCons(lines[0], StripFrom(lines[1..], st'), lines[1..]);
      } else {
        SubsequenceSkip(lines[0], StripFrom(lines[1..], st'), lines[1..]);
        assert StripFrom(lines, st) == [] + StripFrom(lines[1..], st');
        assert [] + StripFrom(lines[1..], st') == StripFrom(lines[1..], st');
      }
    }
  }

  /** In the copying state, lines without a guard pass through unchanged. */
  lemma {:induction false} StripFromIdentity(lines: seq<string>)
    requires forall i :: 0 <= i < |lines| ==> !IsGuardLine(lines[i])
    ensures StripFrom(lines, Copying) == lines
  {
    if lines != [] {
      assert Keeps(Copying, lines[0]) && Next(Copying, lines[0]) == Copying;
      StripFromIdentity(lines[1..]);
    }
  }

  /** `strip_main_guard`'s output holds no guard line and is a subsequence of its input. */
  lemma GuardStrippedShape(lines: seq<string>)
    ensures Subsequence(GuardStripped(lines), lines)
    ensures forall i :: 0 <= i < |GuardStripped(lines)| ==> !IsGuardLine(GuardStripped(lines)[i])
  {
    StripFromSubsequence(lines, Copying);
    StripFromNoGuard(lines, Copying);
  }

  /** On line lists, stripping twice is stripping once. */
  lemma GuardStrippedIdempotent(lines: seq<string>)
    ensures GuardStripped(GuardStripped(lines)) == GuardStripped(lines)
  {
    StripFromNoGuard(lines, Copying);
    StripFromIdentity(GuardStripped(lines));
  }

  lemma {:induction false} StripFromAppend(a: seq<string>, b: seq<string>)
    requires forall i :: 0 <= i < |a| ==> !IsGuardLine(a[i])
    ensures StripFrom(a + b, Copying) == a + StripFrom(b, Copying)
  {
    if a != [] {
      assert (a + b)[0] == a[0] && (a + b)[1..] == a[1..] + b;
      assert Keeps(Copying, a[0]) && Next(Copying, a[0]) == Copying;
      StripFromAppend(a[1..], b);
    } else {
      assert a + b == b;
    }
  }

  /** While skipping, blank lines and lines deeper than the guard are dropped. */
  lemma {:induction false} SkipBody(body: seq<string>, rest: seq<string>, g: nat)
    requires forall i :: 0 <= i < |body| ==>
               !IsGuardLine(body[i]) && (IsBlank(body[i]) || IndentOf(body[i]) > g)
    ensures StripFrom(body + rest, Skipping(g)) == StripFrom(rest, Skipping(g))
  {
    if body != [] {
      assert (body + rest)[0] == body[0] && (body + rest)[1..] == body[1..] + rest;
      assert !Keeps(Skipping(g), body[0]) && Next(Skipping(g), body[0]) == Skipping(g);
      SkipBody(body[1..], rest, g);
    } else {
      assert body + rest == rest;
    }
  }

  /**
   * A guard block goes and nothing else does: after guard `g`, its blank or
   * deeper lines are dropped, and the first non-blank line `back` at the
   * guard's indent or less is copied again, as is everything before the guard.
   */
  lemma GuardBlockRemoved(pre: seq<string>, g: string, body: seq<string>, back: string, post: seq<string>)
    requires forall i :: 0 <= i < |pre| ==> !IsGuardLine(pre[i])
    requires IsGuardLine(g)
    requires forall i :: 0 <= i < |body| ==>
               !IsGuardLine(body[i]) && (IsBlank(body[i]) || IndentOf(body[i]) > IndentOf(g))
    requires !IsGuardLine(back) && !IsBlank(back) && IndentOf(back) <= IndentOf(g)
    ensures GuardStripped(pre + [g] + body + [back] + post) == pre + [back] + GuardStripped(post)
  {
    var tail := [g] + body + [back] + post;
    assert pre + [g] + body + [back] + post == pre + tail;
    StripFromAppend(pre, tail);
    assert tail[1..] == body + ([back] + post);
    SkipBody(body, [back] + post, IndentOf(g));
    assert ([back] + post)[1..] == post;
  }

  /** A guard block that runs to the end of the file removes everything from the guard on. */
  lemma GuardBlockAtEnd(pre: seq<string>, g: string, body: seq<string>)
    requires forall i :: 0 <= i < |pre| ==> !IsGuardLine(pre[i])
    requires IsGuardLine(g)
    requires forall i :: 0 <= i < |body| ==>
               !IsGuardLine(body[i]) && (IsBlank(body[i]) || IndentOf(body[i]) > IndentOf(g))
    ensures GuardStripped(pre + [g] + body) == pre
  {
    var tail := [g] + body;
    assert pre + [g] + body == pre + tail;
    StripFromAppend(pre, tail);
    assert tail[1..] == body + [];
    SkipBody(body, [], IndentOf(g));
  }

  /**
   * On text, stripping is idempotent whenever the stripped lines do not end in
   * an empty line (the join would otherwise lose it on the second split).
   */
  lemma GuardStrippedTextIdempotent(text: string)
    requires var out := GuardStripped(SplitLines(text)); out == [] || out[|out| - 1] != ""
    ensures GuardStrippedText(GuardStrippedText(text)) == GuardStrippedText(text)
  {
    var lines := SplitLines(text);
    var out := GuardStripped(lines);
    StripFromSubsequence(lines, Copying);
    SubsequenceNoBoundary(out, lines);
    SplitJoinLines(out);
    GuardStrippedIdempotent(lines);
  }

  lemma {:induction false} SubsequenceNoBoundary(a: seq<string>, b: seq<string>)
    requires Subsequence(a, b)
    requires forall i :: 0 <= i < |b| ==> NoBoundary(b[i])
    ensures forall i :: 0 <= i < |a| ==> NoBoundary(a[i])
    decreases |b|
  {
    if a != [] && b != [] {
      if a[0] == b[0] && Subsequence(a[1..], b[1..]) {
        SubsequenceNoBoundary(a[1..], b[1..]);
        assert forall i :: 1 <= i < |a| ==> a[i] == a[1..][i - 1];
      } else {
        SubsequenceNoBoundary(a, b[1..]);
      }
    }
  }

  /**
   * On text it is not idempotent in general: a blank line before a guard block
   * that ends the file becomes a trailing newline, which the next split drops.
   */
  lemma GuardStrippedTextNotIdempotent(pre: seq<string>, g: string, body: seq<string>)
    requires pre != [] && pre[|pre| - 1] != ""
    requires forall i :: 0 <= i < |pre| ==> !IsGuardLine(pre[i]) && NoBoundary(pre[i])
    requires IsGuardLine(g) && NoBoundary(g)
    requires body != [] && body[|body| - 1] != ""
    requires forall i :: 0 <= i < |body| ==> NoBoundary(body[i])
    requires forall i :: 0 <= i < |body| ==>
               !IsGuardLine(body[i]) && (IsBlank(body[i]) || IndentOf(body[i]) > IndentOf(g))
    ensures GuardStrippedText(JoinLines(pre + [""] + [g] + body)) == JoinLines(pre) + "\n"
    ensures GuardStrippedText(JoinLines(pre) + "\n") == JoinLines(pre)
  {
    var lines := pre + [""] + [g] + body;
    assert forall i :: 0 <= i < |lines| ==> NoBoundary(lines[i]) by {
      forall i | 0 <= i < |lines| ensures NoBoundary(lines[i]) {
        if i > |pre| + 1 {
          assert lines[i] == body[i - |pre| - 2];
        }
      }
    }
    SplitJoinLines(lines);
    var pre' := pre + [""];
    assert forall i :: 0 <= i < |pre'| ==> !IsGuardLine(pre'[i]) by {
      assert !IsGuardLine("");
    }
    GuardBlockAtEnd(pre', g, body);
    JoinAppendEmpty(pre);
    SplitJoinLinesTerminated(pre);
    GuardStrippedIdempotentOnGuardFree(pre);
  }

  /** Joining one more empty line appends a separator. */
  lemma {:induction false} JoinAppendEmpty(lines: seq<string>)
    requires lines != []
    ensures JoinLines(lines + [""]) == JoinLines(lines) + "\n"
  {
    var l := lines + [""];
    if |lines| > 1 {
      assert l[1..] == lines[1..] + [""];
      JoinAppendEmpty(lines[1..]);
      assert JoinLines(l) == lines[0] + "\n" + (JoinLines(lines[1..]) + "\n");
    } else {
      assert l[0] == lines[0] && l[1..] == [""];
      assert Join([""], "\n") == "";
      assert JoinLines(l) == lines[0] + "\n" + "";
    }
  }

  lemma GuardStrippedIdempotentOnGuardFree(lines: seq<string>)
    requires forall i :: 0 <= i < |lines| ==> !IsGuardLine(lines[i])
    ensures GuardStripped(lines) == lines
  {
    StripFromIdentity(lines);
  }

  /** The spelling without spaces round `==` is not recognised as a guard. */
  lemma UnspacedGuardKept()
    ensures !IsGuardLine("if __name__==\"__main__\":")
  {
    var line := "if __name__==\"__main__\":";
    StripUnchanged(line);
    assert line[11] != GUARD_DOUBLE[11];
    assert line[11] != GUARD_SINGLE[11];
  }
}
