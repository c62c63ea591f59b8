/**
 * `drop_setup_imports` (build.py:52-60): drops every line whose stripped text
 * starts with `import setup` or `from setup import`.
 */
module SetupImports {
  import opened Text
  import Guard

  const IMPORT_SETUP := "import setup"
  const FROM_SETUP := "from setup import"

  /** A prefix test on the stripped line, so it also catches `import setuptools`. */
  predicate IsSetupImport(line: string) {
    var t := Strip(line);
    StartsWith(t, IMPORT_SETUP) || StartsWith(t, FROM_SETUP)
  }

  /** The lines that `drop_setup_imports` keeps, in order. */
  function KeptLines(lines: seq<string>): seq<string> {
    if lines == [] then []
    else (if IsSetupImport(lines[0]) then [] else [lines[0]]) + KeptLines(lines[1..])
  }

  /** What `drop_setup_imports(text)` returns. */
  function DroppedSetupText(text: string): string {
    JoinLines(KeptLines(SplitLines(text)))
  }

  method DropSetupImports(text: string) returns (r: string)
    ensures r == DroppedSetupText(text)
  {
    var cleaned := DropSetupLines(SplitLines(text));
    r := JoinLines(cleaned);
  }

  /** The loop of `drop_setup_imports`, over the lines of the text. */
  method DropSetupLines(lines: seq<string>) returns (cleaned: seq<string>)
    ensures cleaned == KeptLines(lines)
  {
    cleaned := [];
    var i := 0;
    while i < |lines|
      invariant 0 <= i <= |lines|
      invariant cleaned + KeptLines(lines[i..]) == KeptLines(lines)
    {
      KeptLinesStep(lines, i, cleaned);
      if !IsSetupImport(lines[i]) {
        cleaned := cleaned + [lines[i]];
      }
      i := i + 1;
    }
    assert lines[i..] == [];
    assert cleaned + [] == KeptLines(lines);
  }

  lemma KeptLinesStep(lines: seq<string>, i: nat, cleaned: seq<string>)
    requires i < |lines|
    ensures var next := if IsSetupImport(lines[i]) then cleaned else cleaned + [lines[i]];
            next + KeptLines(lines[i + 1..]) == cleaned + KeptLines(lines[i..])
  {
    assert lines[i..][1..] == lines[i + 1..];
  }

  /** A line is kept exactly when it is in the input and is not a setup import. */
  lemma {:induction false} KeptLinesMembers(lines: seq<string>, x: string)
    ensures x in KeptLines(lines) <==> x in lines && !IsSetupImport(x)
  {
    if lines != [] {
      KeptLinesMembers(lines[1..], x);
      assert lines == [lines[0]] + lines[1..];
    }
  }

  /** The kept lines are in their original order. */
  lemma {:induction false} KeptLinesSubsequence(lines: seq<string>)
    ensures Guard.Subsequence(KeptLines(lines), lines)
  {
    if lines != [] {
      KeptLinesSubsequence(lines[1..]);
      assert lines == [lines[0]] + lines[1..];
      if IsSetupImport(lines[0]) {
        Guard.SubsequenceSkip(lines[0], KeptLines(lines[1..]), lines[1..]);
        assert KeptLines(lines) == [] + KeptLines(lines[1..]);
        assert [] + KeptLines(lines[1..]) == KeptLines(lines[1..]);
      } else {
        Guard.SubsequenceCons(lines[0], KeptLines(lines[1..]), lines[1..]);
      }
    }
  }

  /** The number of setup-import lines in `lines`. */
  function SetupImportCount(lines: seq<string>): nat {
    if lines == [] then 0 else (if IsSetupImport(lines[0]) then 1 else 0) + SetupImportCount(lines[1..])
  }

  /** Exactly the setup-import lines go: the count of lines drops by their number. */
  lemma {:induction false} KeptLinesCount(lines: seq<string>)
    ensures |KeptLines(lines)| + SetupImportCount(lines) == |lines|
  {
    if lines != [] {
      KeptLinesCount(lines[1..]);
    }
  }

  /** Dropping setup imports twice is dropping them once. */
  lemma {:induction false} KeptLinesIdempotent(lines: seq<string>)
    ensures KeptLines(KeptLines(lines)) == KeptLines(lines)
  {
    if lines != [] {
      KeptLinesIdempotent(lines[1..]);
      var rest := KeptLines(lines[1..]);
      if !IsSetupImport(lines[0]) {
        assert ([lines[0]] + rest)[1..] == rest;
      } else {
        assert KeptLines(lines) == rest;
      }
    }
  }

  /**
   * The test is a prefix test on the stripped line: any indented line that
   * begins `import setup`, `import setuptools` among them, is dropped too.
   */
  lemma IndentedSetupImport(indent: string, rest: string)
    requires forall i :: 0 <= i < |indent| ==> IsSpace(indent[i])
    requires rest == [] || !IsSpace(rest[|rest| - 1])
    ensures IsSetupImport(indent + IMPORT_SETUP + rest)
  {
    var t := IMPORT_SETUP + rest;
    assert !IsSpace(t[0]) && !IsSpace(t[|t| - 1]) by {
      assert t[0] == 'i';
      if rest == [] {
        assert t[|t| - 1] == 'p';
      } else {
        assert t[|t| - 1] == rest[|rest| - 1];
      }
    }
    assert Strip(indent + IMPORT_SETUP + rest) == t by {
      assert indent + IMPORT_SETUP + rest == indent + t;
      LStripAfter(indent, t);
      StripUnchanged(t);
    }
    assert t[..|IMPORT_SETUP|] == IMPORT_SETUP;
  }
}
