/**
 * Two helpers of build.py: `normalize_run_arg` (build.py:148-162), which
 * turns `run1`, `01` or `1` into `run01`, and `indent_text`
 * (build.py:165-167), which shifts every non-empty line right.
 */
module RunArgs {
  import opened Text
  import opened Decimal

  /** `r`, `u`, `n` in either case: `run` under `re.IGNORECASE`. */
  predicate IsRunWord(s: string) {
    |s| == 3 && (s[0] == 'r' || s[0] == 'R') && (s[1] == 'u' || s[1] == 'U') && (s[2] == 'n' || s[2] == 'N')
  }

  /** `re.fullmatch(r"run(\d+)", text, re.IGNORECASE)`. */
  predicate IsRunName(text: string) {
    |text| > 3 && IsRunWord(text[..3]) && AllDigits(text[3..])
  }

  /** `re.fullmatch(r"(\d+)", text)`. */
  predicate IsNumber(text: string) {
    text != [] && AllDigits(text)
  }

  /** `normalize_run_arg(run_arg)`. */
  function NormalizeRunArg(arg: string): string {
    var text := Strip(arg);
    if IsRunName(text) then "run" + Pad2(ParseDecimal(text[3..]))
    else if IsNumber(text) then "run" + Pad2(ParseDecimal(text))
    else text
  }

  /** Every run name the function produces is `run` and at least two digits that read as the run number. */
  lemma NormalizedShape(arg: string)
    requires IsRunName(Strip(arg)) || IsNumber(Strip(arg))
    ensures var r := NormalizeRunArg(arg);
            |r| >= 5 && r[..3] == "run" && AllDigits(r[3..])
            && ParseDecimal(r[3..]) == ParseDecimal(if IsRunName(Strip(arg)) then Strip(arg)[3..] else Strip(arg))
  {
    var r := NormalizeRunArg(arg);
    assert r[3..] == Pad2(ParseDecimal(if IsRunName(Strip(arg)) then Strip(arg)[3..] else Strip(arg)));
  }

  /** A bare number `d` gives `run` and `int(d)` in at least two digits. */
  lemma NumberArg(d: string)
    requires IsNumber(d)
    ensures NormalizeRunArg(d) == "run" + Pad2(ParseDecimal(d))
  {
    StripUnchanged(d);
    assert !IsRunName(d) by {
      if |d| > 3 {
        assert IsDigit(d[..3][0]);
      }
    }
  }

  /** A leading zero keeps a number a number, with the same value. */
  lemma ZeroPrefixed(d: string)
    requires IsNumber(d)
    ensures IsNumber("0" + d) && ParseDecimal("0" + d) == ParseDecimal(d)
  {
    var z := "0" + d;
    assert forall i :: 1 <= i < |z| ==> z[i] == d[i - 1];
    ParseLeadingZero(d);
  }

  /** `1` and `01` give `run01`; `123` gives `run123` (any number of leading zeros: NumberArg). */
  lemma NumberNormalized(n: nat)
    ensures NormalizeRunArg(NatToString(n)) == "run" + Pad2(n)
    ensures NormalizeRunArg("0" + NatToString(n)) == "run" + Pad2(n)
  {
    var d := NatToString(n);
    ParseNatToString(n);
    NumberArg(d);
    ZeroPrefixed(d);
    NumberArg("0" + d);
  }

  /**
   * Any other input comes back stripped of surrounding whitespace, not
   * unchanged: an argument that is already stripped is returned as it is.
   */
  lemma OtherArgStripped(arg: string)
    requires !IsRunName(Strip(arg)) && !IsNumber(Strip(arg))
    ensures NormalizeRunArg(arg) == Strip(arg)
    ensures (arg != [] ==> !IsSpace(arg[0]) && !IsSpace(arg[|arg| - 1])) ==> NormalizeRunArg(arg) == arg
  {
    if arg != [] ==> !IsSpace(arg[0]) && !IsSpace(arg[|arg| - 1]) {
      StripUnchanged(arg);
    }
  }

  /** `" all "` gives `"all"`: the docstring's "returned unchanged" holds only for stripped input. */
  lemma OtherArgExample()
    ensures NormalizeRunArg(" all ") == "all"
  {
    assert LStrip(" all ") == "all ";
    assert RStrip("all ") == "all";
    OtherArgStripped(" all ");
  }

  /** `1` gives `run01` and `12` gives `run12`: only a single digit is padded. */
  lemma NumberPadding(n: nat)
    ensures n < 10 ==> NormalizeRunArg(NatToString(n)) == "run0" + NatToString(n)
    ensures n >= 10 ==> NormalizeRunArg(NatToString(n)) == "run" + NatToString(n)
  {
    NumberNormalized(n);
  }

  /** `run1`, `Run1` and `RUN1` all give `run01`, and `run001` too. */
  lemma RunNameNormalized(word: string, d: string)
    requires IsRunWord(word) && IsNumber(d)
    ensures NormalizeRunArg(word + d) == "run" + Pad2(ParseDecimal(d))
  {
    var t := word + d;
    assert t[..3] == word && t[3..] == d;
    assert t[|t| - 1] == d[|d| - 1];
    StripUnchanged(t);
  }

  /** A run name of two or more digits is stripped already and reads back as `run` and its number. */
  lemma RunDigits(p: string)
    requires |p| >= 2 && AllDigits(p)
    ensures NormalizeRunArg("run" + p) == "run" + Pad2(ParseDecimal(p))
  {
    var r := "run" + p;
    assert r[..3] == "run" && r[3..] == p;
    assert Strip(r) == r by {
      assert r[|r| - 1] == p[|p| - 1];
      StripUnchanged(r);
    }
    assert IsRunName(r);
  }

  /** Normalising twice is normalising once. */
  lemma NormalizeIdempotent(arg: string)
    ensures NormalizeRunArg(NormalizeRunArg(arg)) == NormalizeRunArg(arg)
  {
    var text := Strip(arg);
    if IsRunName(text) || IsNumber(text) {
      var n := ParseDecimal(if IsRunName(text) then text[3..] else text);
      assert NormalizeRunArg(arg) == "run" + Pad2(n);
      RunDigits(Pad2(n));
    } else {
      StripIdempotent(arg);
    }
  }

  /** `" " * spaces` (empty for a negative count). */
  function Spaces(n: int): (s: string)
    ensures |s| == if n < 0 then 0 else n
    ensures forall i :: 0 <= i < |s| ==> s[i] == ' '
    decreases n
  {
    if n <= 0 then [] else " " + Spaces(n - 1)
  }

  /** The generator of `indent_text`: each non-empty line gets the prefix, empty lines stay empty. */
  function IndentLines(lines: seq<string>, spaces: int): (out: seq<string>)
    ensures |out| == |lines|
    ensures forall i :: 0 <= i < |lines| ==> (out[i] == [] <==> lines[i] == [])
    ensures forall i :: 0 <= i < |lines| && lines[i] != [] ==> out[i] == Spaces(spaces) + lines[i]
  {
    if lines == [] then []
    else [if lines[0] != [] then Spaces(spaces) + lines[0] else []] + IndentLines(lines[1..], spaces)
  }

  /** `indent_text(text, spaces)`. */
  function IndentText(text: string, spaces: int): string {
    JoinLines(IndentLines(SplitLines(text), spaces))
  }

  /** Removing the prefix again recovers the lines. */
  function DedentLines(lines: seq<string>, spaces: nat): (out: seq<string>)
    ensures |out| == |lines|
  {
    if lines == [] then []
    else [if |lines[0]| >= spaces then lines[0][spaces..] else lines[0]] + DedentLines(lines[1..], spaces)
  }

  lemma {:induction false} DedentIndent(lines: seq<string>, spaces: nat)
    ensures DedentLines(IndentLines(lines, spaces), spaces) == lines
  {
    if lines != [] {
      DedentIndent(lines[1..], spaces);
      if lines[0] != [] {
        assert (Spaces(spaces) + lines[0])[spaces..] == lines[0];
      }
    }
  }

  /** A run of spaces in front of a line adds no line boundary. */
  lemma IndentedNoBoundary(pad: string, line: string)
    requires forall i :: 0 <= i < |pad| ==> pad[i] == ' '
    requires NoBoundary(line)
    ensures NoBoundary(pad + line)
  {
    assert forall j :: 0 <= j < |pad + line| ==> (pad + line)[j] == if j < |pad| then pad[j] else line[j - |pad|];
  }

  /**
   * Re-splitting the indented text gives the indented lines, one for one,
   * when the text's last line is not empty (an empty last line is dropped
   * by the join and the split).
   */
  lemma IndentTextLines(text: string, spaces: int)
    requires SplitLines(text) != [] ==> SplitLines(text)[|SplitLines(text)| - 1] != []
    ensures SplitLines(IndentText(text, spaces)) == IndentLines(SplitLines(text), spaces)
    ensures |SplitLines(IndentText(text, spaces))| == |SplitLines(text)|
  {
    var lines := SplitLines(text);
    var out := IndentLines(lines, spaces);
    forall i | 0 <= i < |out|
      ensures NoBoundary(out[i])
    {
      if lines[i] != [] {
        IndentedNoBoundary(Spaces(spaces), lines[i]);
      }
    }
    if out != [] {
      SplitJoinLines(out);
    }
  }
}
