/**
 * `rewrite_main` (build.py:118-145): the dispatcher's `import <mission> as
 * <alias>` lines become `<alias> = <mission>`, since the missions are now
 * defined in the same file. The two regular expressions are written out
 * below as recognisers that follow the regex engine's backtracking order.
 */
module Rewrite {
  import opened Results
  import opened Text
  import opened Guard
  import opened SetupImports

  /** The three character classes the patterns use: `\s`, `\w` and `[\w.]`. */
  datatype Class = Space | Word | Path

  predicate In(c: char, k: Class) {
    match k
    case Space => IsSpace(c)
    case Word => IsWordChar(c)
    case Path => IsWordChar(c) || c == '.'
  }

  /** The length of the longest prefix of `s` within class `k` (what a greedy `k*` takes). */
  function Span(s: string, k: Class): (n: nat)
    ensures n <= |s|
  {
    if s == [] || !In(s[0], k) then 0 else 1 + Span(s[1..], k)
  }

  /** The run `Span` measures is in the class, and is followed by a character outside it. */
  lemma {:induction false} SpanShape(s: string, k: Class)
    ensures forall i :: 0 <= i < Span(s, k) ==> In(s[i], k)
    ensures Span(s, k) < |s| ==> !In(s[Span(s, k)], k)
  {
    if s != [] && In(s[0], k) {
      SpanShape(s[1..], k);
      assert forall i :: 1 <= i < Span(s, k) ==> s[i] == s[1..][i - 1];
    }
  }

  predicate AllWord(s: string) {
    forall i :: 0 <= i < |s| ==> IsWordChar(s[i])
  }

  /**
   * The mission name, spliced into the pattern unescaped, matches at the
   * start of `t`: a `.` in it matches any character but a newline.
   */
  predicate MissionAt(t: string, m: string) {
    |m| <= |t| && forall i :: 0 <= i < |m| ==> t[i] == m[i] || (m[i] == '.' && t[i] != '\n')
  }

  /** The stem `m1.v2` of `m1.v2.py` also matches `m1Xv2`, but not with a line break for the dot. */
  lemma DotInMissionMatchesAny()
    ensures MissionAt("m1Xv2 as a", "m1.v2")
    ensures !MissionAt("m1\nv2 as a", "m1.v2")
  {
    assert "m1\nv2 as a"[2] == '\n';
  }

  /** `\s+(?P<alias>[\w_]+)`: the alias after `as`. */
  function AfterAs(v: string): (r: Option<string>)
    ensures r.Some? ==> r.value != [] && AllWord(r.value)
  {
    var b := Span(v, Space);
    if b == 0 then None
    else
      var c := Span(v[b..], Word);
      if c == 0 then None else SpanShape(v[b..], Word); Some(v[b..][..c])
  }

  /** `\s+as\s+(?P<alias>[\w_]+)`: what follows the mission name. */
  function AfterName(u: string): (r: Option<string>)
    ensures r.Some? ==> r.value != [] && AllWord(r.value)
  {
    var a := Span(u, Space);
    if a == 0 || !StartsWith(u[a..], "as") then None else AfterAs(u[a + 2..])
  }

  /** The tail `{mission}\s+as\s+(?P<alias>[\w_]+)` shared by both patterns; gives the alias. */
  function AfterMission(t: string, m: string): (r: Option<string>)
    ensures r.Some? ==> r.value != [] && AllWord(r.value)
  {
    if !MissionAt(t, m) then None else AfterName(t[|m|..])
  }

  /**
   * `(?P<prefix>[\w.]*\.)?{mission}…` against `r`, where `r[..k]` is within
   * the `[\w.]` run: the group is tried first, longest first, then left out.
   */
  function SearchPrefix(r: string, m: string, k: nat): Option<string>
    requires k <= |r|
  {
    if k == 0 then AfterMission(r, m)
    else if r[k - 1] == '.' && AfterMission(r[k..], m).Some? then AfterMission(r[k..], m)
    else SearchPrefix(r, m, k - 1)
  }

  /** `[\w.]*\.)?{mission}…` at the start of `r`: the longest `[\w.]` run bounds the prefix. */
  function PrefixAndMission(r: string, m: string): Option<string> {
    SearchPrefix(r, m, Span(r, Path))
  }

  /** `\s+{mission}…` (the `\s+` taken whole), with the optional prefix when `prefixed`. */
  function GapThen(t: string, m: string, prefixed: bool): Option<string> {
    var s := Span(t, Space);
    if s == 0 then None
    else if prefixed then PrefixAndMission(t[s..], m)
    else AfterMission(t[s..], m)
  }

  /** `import\s+…` at the start of `t`. */
  function AfterImport(t: string, m: string, prefixed: bool): Option<string> {
    if !StartsWith(t, "import") then None else GapThen(t[6..], m, prefixed)
  }

  /** The alias `pattern_import` captures on `line` for mission `m`. */
  function MatchImport(line: string, m: string): Option<string> {
    AfterImport(line[Span(line, Space)..], m, true)
  }

  /**
   * `\s+[\w.]*\s+import\s+{mission}…` after `from`. It is first tried with
   * each run taken whole; when that fails the engine gives the first `\s+`
   * back one character at a time, leaving `[\w.]*` empty, which succeeds
   * only if at least two whitespace characters precede `import`.
   */
  function FromRest(r1: string, m: string): Option<string> {
    var w1 := Span(r1, Space);
    if w1 == 0 then None
    else
      var r2 := r1[w1..];
      var r3 := r2[Span(r2, Path)..];
      var w2 := Span(r3, Space);
      if w2 > 0 && AfterImport(r3[w2..], m, false).Some? then AfterImport(r3[w2..], m, false)
      else if w1 >= 2 then AfterImport(r2, m, false)
      else None
  }

  /** `from…` at the start of `r`. */
  function AfterFrom(r: string, m: string): Option<string> {
    if !StartsWith(r, "from") then None else FromRest(r[4..], m)
  }

  /** The alias `pattern_from` captures on `line` for mission `m`. */
  function MatchFrom(line: string, m: string): Option<string> {
    AfterFrom(line[Span(line, Space)..], m)
  }

  /** The first of the two patterns, in order, that matches `line` for `m`. */
  function MatchLine(line: string, m: string): Option<string> {
    if MatchImport(line, m).Some? then MatchImport(line, m) else MatchFrom(line, m)
  }

  /** What replaces a matched line: `f"{indent}{alias} = {mission}"`. */
  function Binding(line: string, alias: string, m: string): string {
    line[..Span(line, Space)] + alias + " = " + m
  }

  /** One line of the loop in `rewrite_main`: missions are tried in list order. */
  function RewriteLine(line: string, missions: seq<string>): string {
    if missions == [] then line
    else if MatchLine(line, missions[0]).Some? then Binding(line, MatchLine(line, missions[0]).value, missions[0])
    else RewriteLine(line, missions[1..])
  }

  function RewriteLines(lines: seq<string>, missions: seq<string>): (out: seq<string>)
    ensures |out| == |lines|
    ensures forall i :: 0 <= i < |lines| ==> out[i] == RewriteLine(lines[i], missions)
  {
    if lines == [] then [] else [RewriteLine(lines[0], missions)] + RewriteLines(lines[1..], missions)
  }

  /** The whole of `rewrite_main`. */
  function RewrittenMain(text: string, missions: seq<string>): string {
    DeleteSetupDot(JoinLines(RewriteLines(SplitLines(DroppedSetupText(GuardStrippedText(text))), missions)))
  }

  method RewriteMain(text: string, missions: seq<string>) returns (r: string)
    ensures r == RewrittenMain(text, missions)
  {
    var stripped := StripMainGuard(text);
    var cleaned := DropSetupImports(stripped);
    var lines := SplitLines(cleaned);
    var out := RewriteAll(lines, missions);
    r := DeleteSetupDot(JoinLines(out));
  }

  /** The per-line loop of `rewrite_main`, with its `handled` flag. */
  method RewriteAll(lines: seq<string>, missions: seq<string>) returns (out: seq<string>)
    ensures out == RewriteLines(lines, missions)
  {
    out := [];
    var i := 0;
    while i < |lines|
      invariant 0 <= i <= |lines|
      invariant |out| == i
      invariant forall j :: 0 <= j < i ==> out[j] == RewriteLine(lines[j], missions)
    {
      var line := lines[i];
      var handled := false;
      var k := 0;
      while k < |missions| && !handled
        invariant 0 <= k <= |missions|
        invariant !handled ==> RewriteLine(line, missions[k..]) == RewriteLine(line, missions)
        invariant handled ==> |out| == i + 1 && out[i] == RewriteLine(line, missions)
        invariant !handled ==> |out| == i
        invariant forall j :: 0 <= j < i ==> out[j] == RewriteLine(lines[j], missions)
      {
        var mission := missions[k];
        assert missions[k..][0] == mission && missions[k..][1..] == missions[k + 1..];
        var found := MatchImport(line, mission);
        if found.None? {
          found := MatchFrom(line, mission);
        }
        if found.Some? {
          out := out + [line[..Span(line, Space)] + found.value + " = " + mission];
          handled := true;
        }
        k := k + 1;
      }
      if !handled {
        assert missions[k..] == [];
        out := out + [line];
      }
      i := i + 1;
    }
  }

  /** `<mission> as <alias><tail>`. */
  function AsTail(m: string, alias: string, tail: string): string {
    m + (" as " + (alias + tail))
  }

  /** `import [<prefix>]<mission> as <alias><tail>` indented by `w`. */
  function ImportLine(w: string, prefix: string, m: string, alias: string, tail: string): string {
    w + ("import " + (prefix + AsTail(m, alias, tail)))
  }

  /** `from <module> import <mission> as <alias><tail>` indented by `w`. */
  function FromLine(w: string, path: string, m: string, alias: string, tail: string): string {
    w + ("from " + (path + (" import " + AsTail(m, alias, tail))))
  }

  predicate AllSpace(s: string) {
    forall i :: 0 <= i < |s| ==> IsSpace(s[i])
  }

  /** The shape conditions under which a rendered line means what it says. */
  predicate WellFormed(w: string, m: string, alias: string, tail: string) {
    AllSpace(w) && m != [] && AllWord(m) && alias != [] && AllWord(alias)
    && (tail == [] || !IsWordChar(tail[0]))
  }

  lemma {:induction false} SpanOf(x: string, y: string, k: Class)
    requires forall i :: 0 <= i < |x| ==> In(x[i], k)
    requires y == [] || !In(y[0], k)
    ensures Span(x + y, k) == |x|
  {
    if x != [] {
      assert (x + y)[1..] == x[1..] + y;
      SpanOf(x[1..], y, k);
    } else {
      assert x + y == y;
    }
  }

  lemma AfterAsOf(alias: string, tail: string)
    requires alias != [] && AllWord(alias)
    requires tail == [] || !IsWordChar(tail[0])
    ensures AfterAs(" " + (alias + tail)) == Some(alias)
  {
    SpanOf(" ", alias + tail, Space);
    assert (" " + (alias + tail))[1..] == alias + tail;
    SpanOf(alias, tail, Word);
    assert (alias + tail)[..|alias|] == alias;
  }

  lemma AfterNameOf(alias: string, tail: string)
    requires alias != [] && AllWord(alias)
    requires tail == [] || !IsWordChar(tail[0])
    ensures AfterName(" as " + (alias + tail)) == Some(alias)
  {
    var v := " " + (alias + tail);
    var u := " as " + (alias + tail);
    assert u == " " + ("as" + v);
    assert Span(u, Space) == 1 by {
      SpanOf(" ", "as" + v, Space);
    }
    assert StartsWith(u[1..], "as") && u[3..] == v by {
      assert u[1..] == "as" + v;
    }
    assert AfterAs(v) == Some(alias) by {
      AfterAsOf(alias, tail);
    }
  }

  lemma AfterMissionOf(m: string, alias: string, tail: string)
    requires alias != [] && AllWord(alias)
    requires tail == [] || !IsWordChar(tail[0])
    ensures AfterMission(AsTail(m, alias, tail), m) == Some(alias)
  {
    var t := AsTail(m, alias, tail);
    assert t[..|m|] == m;
    assert t[|m|..] == " as " + (alias + tail);
    AfterNameOf(alias, tail);
  }

  lemma SearchPrefixStep(r: string, m: string, k: nat)
    requires 0 < k <= |r| && r[k - 1] != '.'
    ensures SearchPrefix(r, m, k) == SearchPrefix(r, m, k - 1)
  {
  }

  /** Candidate prefix lengths above `lo` that do not end in a dot are passed over. */
  lemma {:induction false} SearchPrefixSkip(r: string, m: string, k: nat, lo: nat)
    requires lo <= k <= |r|
    requires forall j :: lo <= j < k ==> r[j] != '.'
    ensures SearchPrefix(r, m, k) == SearchPrefix(r, m, lo)
    decreases k
  {
    if k > lo {
      var here, below, base := SearchPrefix(r, m, k), SearchPrefix(r, m, k - 1), SearchPrefix(r, m, lo);
      assert here == below by { SearchPrefixStep(r, m, k); }
      assert below == base by { SearchPrefixSkip(r, m, k - 1, lo); }
    }
  }

  /** The search stops at the prefix's end: the dot there is followed by the mission. */
  lemma SearchPrefixAt(prefix: string, m: string, alias: string, tail: string)
    requires alias != [] && AllWord(alias)
    requires tail == [] || !IsWordChar(tail[0])
    requires prefix == [] || prefix[|prefix| - 1] == '.'
    ensures SearchPrefix(prefix + AsTail(m, alias, tail), m, |prefix|) == Some(alias)
  {
    var t := AsTail(m, alias, tail);
    var r := prefix + t;
    AfterMissionOf(m, alias, tail);
    if prefix != [] {
      assert r[|prefix| - 1] == '.';
      assert r[|prefix|..] == t;
    } else {
      assert r == t;
    }
  }

  /** The `[\w.]` run of the line is the prefix and the mission. */
  lemma PathRun(prefix: string, m: string, alias: string, tail: string)
    requires AllWord(m)
    requires forall i :: 0 <= i < |prefix| ==> In(prefix[i], Path)
    ensures var r := prefix + AsTail(m, alias, tail);
            Span(r, Path) == |prefix| + |m| && forall j :: |prefix| <= j < |prefix| + |m| ==> r[j] != '.'
  {
    var after := " as " + (alias + tail);
    var r := prefix + AsTail(m, alias, tail);
    assert r == (prefix + m) + after;
    SpanOf(prefix + m, after, Path);
    forall j | |prefix| <= j < |prefix| + |m|
      ensures r[j] != '.'
    {
      assert r[j] == m[j - |prefix|];
    }
  }

  lemma PrefixAndMissionOf(prefix: string, m: string, alias: string, tail: string)
    requires m != [] && AllWord(m) && alias != [] && AllWord(alias)
    requires tail == [] || !IsWordChar(tail[0])
    requires prefix == [] || (prefix[|prefix| - 1] == '.' && forall i :: 0 <= i < |prefix| ==> In(prefix[i], Path))
    ensures PrefixAndMission(prefix + AsTail(m, alias, tail), m) == Some(alias)
  {
    var r := prefix + AsTail(m, alias, tail);
    var k := |prefix| + |m|;
    assert Span(r, Path) == k && SearchPrefix(r, m, k) == SearchPrefix(r, m, |prefix|) by {
      PathRun(prefix, m, alias, tail);
      SearchPrefixSkip(r, m, k, |prefix|);
    }
    assert SearchPrefix(r, m, |prefix|) == Some(alias) by {
      SearchPrefixAt(prefix, m, alias, tail);
    }
  }

  lemma AfterImportOf(rest: string, m: string, prefixed: bool)
    requires rest == [] || !IsSpace(rest[0])
    ensures AfterImport("import " + rest, m, prefixed) == GapThen(" " + rest, m, prefixed)
    ensures GapThen(" " + rest, m, prefixed) == (if prefixed then PrefixAndMission(rest, m) else AfterMission(rest, m))
  {
    var t := "import " + rest;
    assert t == "import" + (" " + rest);
    assert t[6..] == " " + rest;
    SpanOf(" ", rest, Space);
    assert (" " + rest)[1..] == rest;
  }

  /** A line whose keyword position holds no `i` is not an import. */
  lemma NotImport(r: string, m: string, prefixed: bool)
    requires r != [] && r[0] != 'i'
    ensures AfterImport(r, m, prefixed) == None
  {
    if |r| >= 6 {
      assert r[..6][0] != "import"[0];
    }
  }

  /** A line whose keyword position holds no `f` is not a `from` import. */
  lemma NotFrom(r: string, m: string)
    requires r != [] && r[0] != 'f'
    ensures AfterFrom(r, m) == None
  {
    if |r| >= 4 {
      assert r[..4][0] != "from"[0];
    }
  }

  lemma AfterFromOf(r2: string, m: string)
    ensures AfterFrom("from " + r2, m) == FromRest(" " + r2, m)
  {
    var r := "from " + r2;
    assert r[..4] == "from";
    assert r[4..] == " " + r2;
  }

  /** Past an indent `w`, the patterns see `r`, and the replacement keeps `w`. */
  lemma Indented(w: string, r: string, m: string, alias: string)
    requires AllSpace(w)
    requires r != [] && !IsSpace(r[0])
    ensures MatchImport(w + r, m) == AfterImport(r, m, true)
    ensures MatchFrom(w + r, m) == AfterFrom(r, m)
    ensures Binding(w + r, alias, m) == w + alias + " = " + m
  {
    SpanOf(w, r, Space);
    assert (w + r)[|w|..] == r;
    assert (w + r)[..|w|] == w;
  }

  /**
   * Round trip: an import line built from a well-formed indent, dotted
   * prefix, mission, alias and tail is recognised, with that alias.
   */
  lemma MatchImportRoundTrip(w: string, prefix: string, m: string, alias: string, tail: string)
    requires WellFormed(w, m, alias, tail)
    requires prefix == [] || (prefix[|prefix| - 1] == '.' && forall i :: 0 <= i < |prefix| ==> In(prefix[i], Path))
    ensures MatchImport(ImportLine(w, prefix, m, alias, tail), m) == Some(alias)
    ensures Binding(ImportLine(w, prefix, m, alias, tail), alias, m) == w + alias + " = " + m
  {
    var rest := prefix + AsTail(m, alias, tail);
    Indented(w, "import " + rest, m, alias);
    assert rest[0] == if prefix == [] then m[0] else prefix[0];
    AfterImportOf(rest, m, true);
    PrefixAndMissionOf(prefix, m, alias, tail);
  }

  /** Round trip for the `from` form, with a non-empty module path. */
  lemma MatchFromRoundTrip(w: string, path: string, m: string, alias: string, tail: string)
    requires WellFormed(w, m, alias, tail)
    requires path != [] && forall i :: 0 <= i < |path| ==> In(path[i], Path)
    ensures MatchImport(FromLine(w, path, m, alias, tail), m) == None
    ensures MatchFrom(FromLine(w, path, m, alias, tail), m) == Some(alias)
    ensures Binding(FromLine(w, path, m, alias, tail), alias, m) == w + alias + " = " + m
  {
    var rest := AsTail(m, alias, tail);
    var t := "import " + rest;
    var r2 := path + (" " + t);
    var r := "from " + r2;
    assert FromLine(w, path, m, alias, tail) == w + r by {
      assert " import " + rest == " " + t;
    }
    Indented(w, r, m, alias);
    NotImport(r, m, true);
    calc {
      MatchFrom(w + r, m);
      AfterFrom(r, m);
      { AfterFromOf(r2, m); }
      FromRest(" " + r2, m);
      { FromRestOf(path, t, m); }
      AfterImport(t, m, false);
      { assert rest[0] == m[0]; AfterImportOf(rest, m, false); }
      AfterMission(rest, m);
      { AfterMissionOf(m, alias, tail); }
      Some(alias);
    }
  }

  lemma FromRestOf(path: string, t: string, m: string)
    requires path != [] && forall i :: 0 <= i < |path| ==> In(path[i], Path)
    requires t != [] && !IsSpace(t[0])
    ensures FromRest(" " + (path + (" " + t)), m) == AfterImport(t, m, false)
  {
    var r3 := " " + t;
    var r2 := path + r3;
    assert Span(" " + r2, Space) == 1 && (" " + r2)[1..] == r2 by {
      SpanOf(" ", r2, Space);
    }
    assert Span(r2, Path) == |path| && r2[|path|..] == r3 by {
      SpanOf(path, r3, Path);
    }
    assert Span(r3, Space) == 1 && r3[1..] == t by {
      SpanOf(" ", t, Space);
    }
  }

  /** The first mission in the list that matches decides the replacement. */
  lemma {:induction false} RewriteLineFirstMatch(line: string, missions: seq<string>, i: nat)
    requires i < |missions|
    requires forall j :: 0 <= j < i ==> MatchLine(line, missions[j]).None?
    requires MatchLine(line, missions[i]).Some?
    ensures RewriteLine(line, missions) == Binding(line, MatchLine(line, missions[i]).value, missions[i])
  {
    if i > 0 {
      assert MatchLine(line, missions[0]).None?;
      RewriteLineFirstMatch(line, missions[1..], i - 1);
    }
  }

  /** A line that no listed mission matches is kept as it is. */
  lemma {:induction false} RewriteLineUnmatched(line: string, missions: seq<string>)
    requires forall j :: 0 <= j < |missions| ==> MatchLine(line, missions[j]).None?
    ensures RewriteLine(line, missions) == line
  {
    if missions != [] {
      assert MatchLine(line, missions[0]).None?;
      RewriteLineUnmatched(line, missions[1..]);
    }
  }

  /**
   * An import of a module none of the listed missions can name is left as
   * it is: the case of `import M03_M04_ayumu_01_30 as …` when the listed
   * missions all start with a lower-case `m`.
   */
  lemma ForeignImportKept(w: string, name: string, alias: string, tail: string, missions: seq<string>)
    requires WellFormed(w, name, alias, tail)
    requires forall j :: 0 <= j < |missions| ==> missions[j] != [] && missions[j][0] != name[0] && missions[j][0] != '.'
    ensures RewriteLine(ImportLine(w, [], name, alias, tail), missions) == ImportLine(w, [], name, alias, tail)
  {
    forall j | 0 <= j < |missions|
      ensures MatchLine(ImportLine(w, [], name, alias, tail), missions[j]).None?
    {
      ForeignImportNoMatch(w, name, alias, tail, missions[j]);
    }
    RewriteLineUnmatched(ImportLine(w, [], name, alias, tail), missions);
  }

  /** A bare module name has no dotted prefix; only the mission at its start is tried. */
  lemma NoPrefix(name: string, after: string, m: string)
    requires AllWord(name)
    requires after == [] || !In(after[0], Path)
    ensures PrefixAndMission(name + after, m) == AfterMission(name + after, m)
  {
    var rest := name + after;
    SpanOf(name, after, Path);
    forall j | 0 <= j < |name|
      ensures rest[j] != '.'
    {
      assert rest[j] == name[j];
    }
    SearchPrefixSkip(rest, m, |name|, 0);
  }

  lemma ForeignImportNoMatch(w: string, name: string, alias: string, tail: string, m: string)
    requires WellFormed(w, name, alias, tail)
    requires m != [] && m[0] != name[0] && m[0] != '.'
    ensures MatchLine(ImportLine(w, [], name, alias, tail), m).None?
  {
    var after := " as " + (alias + tail);
    var rest := AsTail(name, alias, tail);
    var r := "import " + rest;
    assert ImportLine(w, [], name, alias, tail) == w + r by {
      assert [] + rest == rest;
    }
    assert r != [] && r[0] == 'i';
    assert rest == name + after && rest[0] == name[0] && after[0] == ' ';
    assert !IsSpace(rest[0]) by {
      WordNotSpace(name[0]);
    }
    assert !In(after[0], Path);
    assert MatchImport(w + r, m) == AfterMission(rest, m) by {
      Indented(w, r, m, alias);
      AfterImportOf(rest, m, true);
      NoPrefix(name, after, m);
    }
    assert !MissionAt(rest, m);
    assert MatchFrom(w + r, m) == None by {
      Indented(w, r, m, alias);
      NotFrom(r, m);
    }
  }

  lemma WordNotSpace(c: char)
    requires IsWordChar(c)
    ensures !IsSpace(c)
  {
  }

  lemma AllWordAppend(a: string, b: string)
    requires AllWord(a) && AllWord(b)
    ensures AllWord(a + b)
  {
    assert forall i :: 0 <= i < |a + b| ==> (a + b)[i] == if i < |a| then a[i] else b[i - |a|];
  }

  const RUN06_FOREIGN := "M03_M04_ayumu_01_30"

  lemma Run06ForeignName()
    ensures AllWord(RUN06_FOREIGN) && AllWord("_variant_" + RUN06_FOREIGN)
  {
    AllWordAppend("M03_M", "04_ay");
    AllWordAppend("M03_M04_ay", "umu_0");
    AllWordAppend("M03_M04_ayumu_0", "1_30");
    assert "M03_M04_ayumu_0" + "1_30" == RUN06_FOREIGN;
    AllWordAppend("_vari", "ant_");
    AllWordAppend("_variant_", RUN06_FOREIGN);
  }

  /**
   * run06/main.py:3 binds the one module whose file is not spliced; with
   * mission names that start with a lower-case `m`, the line is kept, whatever
   * comment follows the alias.
   */
  lemma Run06ForeignImportKept(missions: seq<string>, tail: string)
    requires forall j :: 0 <= j < |missions| ==> missions[j] != [] && missions[j][0] == 'm'
    requires tail == [] || !IsWordChar(tail[0])
    ensures var line := ImportLine([], [], RUN06_FOREIGN, "_variant_" + RUN06_FOREIGN, tail);
            RewriteLine(line, missions) == line
  {
    Run06ForeignName();
    ForeignImportKept([], RUN06_FOREIGN, "_variant_" + RUN06_FOREIGN, tail, missions);
  }
}
