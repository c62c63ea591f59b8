/**
 * The three assemblers of build.py over an abstract directory listing:
 * `build_single_run_block` (build.py:170-227) wraps one run directory into a
 * factory function, `build_multi` (build.py:230-265) puts every run behind
 * the on-hub menu, and `build` (build.py:471-508) flattens one run.
 * Reading and writing files is not modelled: a directory is its list of
 * (name, text) pairs, each text as `read_text` gives it.
 */
module Assembly {
  import opened Results
  import opened Text
  import opened Order
  import opened Decimal
  import opened Guard
  import opened SetupImports
  import opened Symbols
  import opened Binding
  import opened Rewrite
  import opened RunArgs

  datatype SourceFile = SourceFile(name: string, text: string)

  /** A run directory: its name and the files directly in it. */
  datatype RunDir = RunDir(name: string, files: seq<SourceFile>)

  /** The exceptions the build raises, in the terms of its messages. */
  datatype BuildError =
    | NoMissionFiles(dir: string)   // FileNotFoundError: No mission file (m*.py) found
    | MainNotFound(dir: string)     // FileNotFoundError: main.py not found
    | SyntaxErrorIn(file: string)   // SyntaxError from ast.parse of a mission
    | NoRunDirectories              // FileNotFoundError: No run directories found.

  function FileName(f: SourceFile): string {
    f.name
  }

  function DirName(d: RunDir): string {
    d.name
  }

  /** The text of the file called `name`, if the directory has one. */
  function Lookup(files: seq<SourceFile>, name: string): (r: Option<string>)
    ensures r.Some? <==> exists i :: 0 <= i < |files| && files[i].name == name
    ensures r.Some? ==> exists i :: 0 <= i < |files| && files[i] == SourceFile(name, r.value)
  {
    if files == [] then None
    else if files[0].name == name then Some(files[0].text)
    else
      var r := Lookup(files[1..], name);
      assert forall i :: 1 <= i < |files| ==> files[i] == files[1..][i - 1];
      r
  }

  /** `Path.stem` of a `.py` file. */
  function Stem(name: string): string {
    if EndsWith(name, ".py") then name[..|name| - 3] else name
  }

  /** `path.name != "main.py" and re.match(r"m\d", path.stem)` over the `m*.py` glob. */
  predicate IsMissionFile(name: string) {
    StartsWith(name, "m") && EndsWith(name, ".py") && |name| >= 4 && name != "main.py"
    && var stem := Stem(name); |stem| >= 2 && stem[0] == 'm' && IsDigit(stem[1])
  }

  function Missions(files: seq<SourceFile>): (r: seq<SourceFile>)
    ensures forall f :: f in r <==> f in files && IsMissionFile(f.name)
  {
    if files == [] then []
    else (if IsMissionFile(files[0].name) then [files[0]] else []) + Missions(files[1..])
  }

  /** The mission files of a run, sorted as `sorted(run_dir.glob("m*.py"))` sorts them. */
  function MissionFiles(dir: RunDir): seq<SourceFile> {
    SortBy(Missions(dir.files), FileName)
  }

  function Stems(files: seq<SourceFile>): (r: seq<string>)
    ensures |r| == |files|
    ensures forall i :: 0 <= i < |files| ==> r[i] == Stem(files[i].name)
  {
    if files == [] then [] else [Stem(files[0].name)] + Stems(files[1..])
  }

  /** Inside a factory function (`Nested`) or at top level (`Flat`). */
  datatype Layout = Flat | Nested

  function Pad(layout: Layout): string {
    if layout.Nested? then "    " else ""
  }

  function Shift(text: string, layout: Layout): string {
    if layout.Nested? then IndentText(text, 4) else text
  }

  /** What `rewrite_mission` gives before parsing: guard block and setup imports gone. */
  function MissionText(f: SourceFile): string {
    DroppedSetupText(GuardStrippedText(f.text))
  }

  /**
   * A mission's parts: its banner, a `global` line only when it declares
   * globals, its code, and its binding.
   */
  function MissionLines(stem: string, text: string, exports: seq<string>, globals: seq<string>, layout: Layout): seq<string> {
    [Pad(layout) + "# ---- mission: " + stem + " ----"]
    + (if globals == [] then [] else [Pad(layout) + "global " + Join(globals, ", ")])
    + [Shift(text, layout), Shift(MissionBinding(stem, exports, globals), layout)]
  }

  /** The parts one mission contributes, or the syntax error its parse raises. */
  ghost function MissionParts(f: SourceFile, parse: string -> Parsed, layout: Layout): Result<seq<string>, BuildError> {
    var text := MissionText(f);
    match parse(text)
    case SyntaxError => Failure(SyntaxErrorIn(f.name))
    case Module(body) =>
      Success(MissionLines(Stem(f.name), text, SortedNames(ExportSet(body)), SortedNames(GlobalsOfAll(body)), layout))
  }

  /** The missions' parts in order; the first mission that fails to parse stops the build. */
  ghost function AllMissionParts(files: seq<SourceFile>, parse: string -> Parsed, layout: Layout): Result<seq<string>, BuildError> {
    if files == [] then Success([])
    else
      match AllMissionParts(files[..|files| - 1], parse, layout)
      case Failure(e) => Failure(e)
      case Success(ps) =>
        match MissionParts(files[|files| - 1], parse, layout)
        case Failure(e) => Failure(e)
        case Success(q) => Success(ps + q)
  }

  /** `setup.py`, copied as it is, when present. */
  function SetupParts(dir: RunDir, layout: Layout): seq<string> {
    match Lookup(dir.files, "setup.py")
    case None => []
    case Some(text) => [Pad(layout) + "# ---- setup ----", Shift(text, layout)]
  }

  /** The fixed `_run_entry` coroutine and the factory's return line (build.py:201-226). */
  const ENTRY: seq<string> := [
    "    # ---- run entry ----",
    "    async def _run_entry(ctx):",
    "        variant = load_variant()",
    "        has_stop_logging = \"stop_logging\" in globals()",
    "        async def timed_run():",
    "            await run(ctx.hub, ctx.robot, ctx.left_wheel, ctx.right_wheel, ctx.left_lift, ctx.right_lift)",
    "        if hasattr(variant, \"sensor_logger_task\"):",
    "            if has_stop_logging:",
    "                async def wrapped_run():",
    "                    await timed_run()",
    "                    globals()[\"stop_logging\"] = True",
    "                    await wait(500)",
    "                await multitask(variant.sensor_logger_task(ctx.hub, ctx.robot, ctx.left_wheel, ctx.right_wheel), wrapped_run())",
    "            else:",
    "                await multitask(variant.sensor_logger_task(ctx.hub, ctx.robot, ctx.left_wheel, ctx.right_wheel), timed_run())",
    "        else:",
    "            await timed_run()",
    "    return RunBundle(initialize_robot, _run_entry)"
  ]

  /** The factory function's parts around the missions' parts `ps`. */
  function BlockLines(dir: RunDir, missions: seq<SourceFile>, ps: seq<string>, rewrittenMain: string): seq<string> {
    ["def _make_" + dir.name + "():", "    # Auto-generated from " + dir.name]
    + ps + SetupParts(dir, Nested)
    + ["    # ---- main ----", IndentText(rewrittenMain, 4)]
    + ENTRY
  }

  /** The flat program's parts around the missions' parts `ps`. */
  function FlatLines(dir: RunDir, missions: seq<SourceFile>, ps: seq<string>, rewrittenMain: string): seq<string> {
    ["# Auto-generated from " + dir.name + ". Do not edit this file on Hub.",
     "# Missions: " + Join(Stems(missions), ", ")]
    + ps + SetupParts(dir, Flat)
    + ["# ---- main ----", rewrittenMain]
  }

  /** The parts of `build_single_run_block(run_dir)`, or the error it raises. */
  ghost function RunBlockParts(dir: RunDir, parse: string -> Parsed): Result<seq<string>, BuildError> {
    var missions := MissionFiles(dir);
    if missions == [] then Failure(NoMissionFiles(dir.name))
    else
      match Lookup(dir.files, "main.py")
      case None => Failure(MainNotFound(dir.name))
      case Some(mainText) =>
        match AllMissionParts(missions, parse, Nested)
        case Failure(e) => Failure(e)
        case Success(ps) =>
          Success(BlockLines(dir, missions, ps, RewrittenMain(mainText, Stems(missions))))
  }

  ghost function RunBlock(dir: RunDir, parse: string -> Parsed): Result<string, BuildError> {
    match RunBlockParts(dir, parse)
    case Failure(e) => Failure(e)
    case Success(parts) => Success(JoinLines(parts))
  }

  /** The parts of the flat `build(run_dir, output)`, or the error it raises. */
  ghost function FlatParts(dir: RunDir, parse: string -> Parsed): Result<seq<string>, BuildError> {
    var missions := MissionFiles(dir);
    if missions == [] then Failure(NoMissionFiles(dir.name))
    else
      match Lookup(dir.files, "main.py")
      case None => Failure(MainNotFound(dir.name))
      case Some(mainText) =>
        match AllMissionParts(missions, parse, Flat)
        case Failure(e) => Failure(e)
        case Success(ps) =>
          Success(FlatLines(dir, missions, ps, RewrittenMain(mainText, Stems(missions))))
  }

  /** The text `build` writes: the parts separated by blank lines, and a final newline. */
  ghost function FlatOutput(dir: RunDir, parse: string -> Parsed): Result<string, BuildError> {
    match FlatParts(dir, parse)
    case Failure(e) => Failure(e)
    case Success(parts) => Success(Join(parts, "\n\n") + "\n")
  }

  /** `rewrite_mission` and the parts for one mission. */
  method MissionBlock(f: SourceFile, parse: string -> Parsed, layout: Layout) returns (r: Result<seq<string>, BuildError>)
    ensures r == MissionParts(f, parse, layout)
  {
    var stem := Stem(f.name);
    var stripped := StripMainGuard(f.text);
    var text := DropSetupImports(stripped);
    var exports := CollectExports(text, parse);
    if exports.None? {
      return Failure(SyntaxErrorIn(f.name));
    }
    var globals := CollectGlobalNames(text, parse);
    return Success(MissionLines(stem, text, exports.value, globals.value, layout));
  }

  /** Once a prefix of the missions fails, the whole list fails with the same error. */
  lemma {:induction false} FailurePersists(files: seq<SourceFile>, k: nat, parse: string -> Parsed, layout: Layout)
    requires k <= |files|
    requires AllMissionParts(files[..k], parse, layout).Failure?
    ensures AllMissionParts(files, parse, layout) == AllMissionParts(files[..k], parse, layout)
    decreases |files| - k
  {
    if k < |files| {
      var n := |files| - 1;
      assert files[..n][..k] == files[..k];
      FailurePersists(files[..n], k, parse, layout);
    } else {
      assert files[..k] == files;
    }
  }

  /** The mission's text, once spliced, parses. */
  predicate Parses(f: SourceFile, parse: string -> Parsed) {
    parse(MissionText(f)).Module?
  }

  lemma MissionPartsError(f: SourceFile, parse: string -> Parsed, layout: Layout)
    ensures MissionParts(f, parse, layout).Failure? <==> parse(MissionText(f)).SyntaxError?
    ensures MissionParts(f, parse, layout).Failure? ==> MissionParts(f, parse, layout).error == SyntaxErrorIn(f.name)
  {
  }

  lemma AllMissionPartsStep(files: seq<SourceFile>, parse: string -> Parsed, layout: Layout)
    requires files != []
    ensures var prev := AllMissionParts(files[..|files| - 1], parse, layout);
            var last := MissionParts(files[|files| - 1], parse, layout);
            var all := AllMissionParts(files, parse, layout);
            (all.Failure? <==> prev.Failure? || last.Failure?)
            && (prev.Failure? ==> all == prev)
            && (prev.Success? && last.Failure? ==> all.error == last.error)
  {
  }

  /** The index of the first mission that does not parse, or `|files|` when all do. */
  ghost function FirstUnparsed(files: seq<SourceFile>, parse: string -> Parsed): (k: nat)
    ensures k <= |files|
  {
    if files == [] then 0
    else
      var n := |files| - 1;
      var k := FirstUnparsed(files[..n], parse);
      if k < n then k else if Parses(files[n], parse) then |files| else n
  }

  lemma {:induction false} FirstUnparsedShape(files: seq<SourceFile>, parse: string -> Parsed)
    ensures forall j :: 0 <= j < FirstUnparsed(files, parse) ==> Parses(files[j], parse)
    ensures FirstUnparsed(files, parse) < |files| ==> !Parses(files[FirstUnparsed(files, parse)], parse)
  {
    FirstUnparsedParse(files, parse);
    FirstUnparsedFails(files, parse);
  }

  lemma {:induction false} FirstUnparsedParse(files: seq<SourceFile>, parse: string -> Parsed)
    ensures forall j :: 0 <= j < FirstUnparsed(files, parse) ==> Parses(files[j], parse)
  {
    if files != [] {
      var n := |files| - 1;
      FirstUnparsedParse(files[..n], parse);
      forall j | 0 <= j < FirstUnparsed(files, parse)
        ensures Parses(files[j], parse)
      {
        if j < n {
          assert files[..n][j] == files[j];
        }
      }
    }
  }

  lemma {:induction false} FirstUnparsedFails(files: seq<SourceFile>, parse: string -> Parsed)
    ensures FirstUnparsed(files, parse) < |files| ==> !Parses(files[FirstUnparsed(files, parse)], parse)
  {
    if files != [] {
      var n := |files| - 1;
      var k := FirstUnparsed(files[..n], parse);
      FirstUnparsedFails(files[..n], parse);
      if k < n {
        assert files[..n][k] == files[k];
      }
    }
  }

  /**
   * The missions fail exactly when one of them does not parse, and the error
   * names the first such mission.
   */
  lemma {:induction false} MissionErrors(files: seq<SourceFile>, parse: string -> Parsed, layout: Layout)
    ensures AllMissionParts(files, parse, layout).Failure? <==> FirstUnparsed(files, parse) < |files|
    ensures AllMissionParts(files, parse, layout).Failure? ==>
              AllMissionParts(files, parse, layout).error == SyntaxErrorIn(files[FirstUnparsed(files, parse)].name)
  {
    if files != [] {
      var n := |files| - 1;
      MissionErrors(files[..n], parse, layout);
      AllMissionPartsStep(files, parse, layout);
      MissionPartsError(files[n], parse, layout);
      var k := FirstUnparsed(files[..n], parse);
      if k < n {
        assert files[..n][k] == files[k];
      }
    }
  }

  /** The missions fail exactly when one of them does not parse; all before it parsed. */
  lemma MissionErrorShape(files: seq<SourceFile>, parse: string -> Parsed, layout: Layout)
    ensures AllMissionParts(files, parse, layout).Failure? <==> exists i :: 0 <= i < |files| && !Parses(files[i], parse)
    ensures AllMissionParts(files, parse, layout).Failure? ==>
              exists i :: 0 <= i < |files| && !Parses(files[i], parse)
                && AllMissionParts(files, parse, layout).error == SyntaxErrorIn(files[i].name)
                && forall j :: 0 <= j < i ==> Parses(files[j], parse)
  {
    MissionErrors(files, parse, layout);
    FirstUnparsedShape(files, parse);
  }

  /** The loop of `build_single_run_block` / `build` over the mission files. */
  method MissionBlocks(files: seq<SourceFile>, parse: string -> Parsed, layout: Layout) returns (r: Result<seq<string>, BuildError>)
    ensures r == AllMissionParts(files, parse, layout)
  {
    var parts: seq<string> := [];
    var i := 0;
    while i < |files|
      invariant 0 <= i <= |files|
      invariant AllMissionParts(files[..i], parse, layout) == Success(parts)
    {
      var step := MissionBlock(files[i], parse, layout);
      MissionPartsStep(files, i, parse, layout, parts);
      if step.Failure? {
        return Failure(step.error);
      }
      parts := parts + step.value;
      i := i + 1;
    }
    assert files[..i] == files;
    return Success(parts);
  }

  /** One more mission: its lines are appended, or its error ends the list. */
  lemma MissionPartsStep(files: seq<SourceFile>, i: nat, parse: string -> Parsed, layout: Layout, parts: seq<string>)
    requires i < |files|
    requires AllMissionParts(files[..i], parse, layout) == Success(parts)
    ensures var step := MissionParts(files[i], parse, layout);
            (step.Success? ==> AllMissionParts(files[..i + 1], parse, layout) == Success(parts + step.value))
            && (step.Failure? ==> AllMissionParts(files, parse, layout) == Failure(step.error))
  {
    assert files[..i + 1][..i] == files[..i];
    assert files[..i + 1][i] == files[i];
    if MissionParts(files[i], parse, layout).Failure? {
      FailurePersists(files, i + 1, parse, layout);
    }
  }

  /** `build_single_run_block(run_dir)`. */
  method BuildSingleRunBlock(dir: RunDir, parse: string -> Parsed) returns (r: Result<string, BuildError>)
    ensures r == RunBlock(dir, parse)
  {
    var missions := MissionFiles(dir);
    if missions == [] {
      return Failure(NoMissionFiles(dir.name));
    }
    var main := Lookup(dir.files, "main.py");
    if main.None? {
      return Failure(MainNotFound(dir.name));
    }
    var blocks := MissionBlocks(missions, parse, Nested);
    if blocks.Failure? {
      return Failure(blocks.error);
    }
    var rewritten := RewriteMain(main.value, Stems(missions));
    return Success(JoinLines(BlockLines(dir, missions, blocks.value, rewritten)));
  }

  /** `build(run_dir, output)`: the text it writes to `output`. */
  method Build(dir: RunDir, parse: string -> Parsed) returns (r: Result<string, BuildError>)
    ensures r == FlatOutput(dir, parse)
  {
    var missions := MissionFiles(dir);
    if missions == [] {
      return Failure(NoMissionFiles(dir.name));
    }
    var main := Lookup(dir.files, "main.py");
    if main.None? {
      return Failure(MainNotFound(dir.name));
    }
    var blocks := MissionBlocks(missions, parse, Flat);
    if blocks.Failure? {
      return Failure(blocks.error);
    }
    var rewritten := RewriteMain(main.value, Stems(missions));
    return Success(Join(FlatLines(dir, missions, blocks.value, rewritten), "\n\n") + "\n");
  }

  /** The fixed header of the generated menu program (build.py:235-249). */
  const MENU_HEADER: seq<string> := [
    "# Auto-generated menu hub_main.py. Do not edit this file on Hub.",
    "# Select run on Hub; no PC-side RUN selection required.",
    "from pybricks.hubs import PrimeHub",
    "from pybricks.parameters import Button, Port",
    "from pybricks.pupdevices import ForceSensor",
    "from pybricks.tools import multitask, run_task, wait",
    "",
    "_HUB = None",
    "_TOUCH = None",
    "_LAST_CONTEXT = None",
    "STORAGE_OFFSET = 0",
    "STORAGE_LEN = 1",
    "RUN_MIN = 1"
  ]

  /** One line of the `RUNNERS` table: `"<i>": _make_<dir>`. */
  function RunnerEntry(i: nat, d: RunDir): string {
    "    \"" + NatToString(i) + "\": _make_" + d.name
  }

  /** `enumerate(run_dirs, start=1)`: the i-th directory gets key `str(i)`. */
  function RunnerEntries(dirs: seq<RunDir>): (r: seq<string>)
    ensures |r| == |dirs|
    ensures forall i :: 0 <= i < |dirs| ==> r[i] == RunnerEntry(i + 1, dirs[i])
  {
    if dirs == [] then [] else RunnerEntries(dirs[..|dirs| - 1]) + [RunnerEntry(|dirs|, dirs[|dirs| - 1])]
  }

  /** The factory of each run, or the error building it raises. */
  ghost function RunBlocks(dirs: seq<RunDir>, parse: string -> Parsed): (r: seq<Result<string, BuildError>>)
    ensures |r| == |dirs|
  {
    seq(|dirs|, i requires 0 <= i < |dirs| => RunBlock(dirs[i], parse))
  }

  /** The `i`-th factory of the list is the `i`-th run's. */
  lemma RunBlocksAt(dirs: seq<RunDir>, parse: string -> Parsed, i: nat)
    requires i < |dirs|
    ensures RunBlocks(dirs, parse)[i] == RunBlock(dirs[i], parse)
  {
  }

  /**
   * The body lines for the blocks, an empty line before each factory, or the
   * first error in run order.
   */
  function Gather(blocks: seq<Result<string, BuildError>>): Result<seq<string>, BuildError> {
    if blocks == [] then Success([])
    else
      match Gather(blocks[..|blocks| - 1])
      case Failure(e) => Failure(e)
      case Success(body) =>
        match blocks[|blocks| - 1]
        case Failure(e) => Failure(e)
        case Success(b) => Success(body + ["", b])
  }

  /** `RUN_MAX`, the `RUNNERS` table, and the runtime shell text after the blocks. */
  function MenuTail(dirs: seq<RunDir>, entries: seq<string>, shell: string): seq<string> {
    ["", "RUN_MAX = " + NatToString(|dirs|), "", "RUNNERS = {\n" + Join(entries, ",\n") + "\n}", shell]
  }

  /**
   * The text `build_multi(run_dirs, output)` writes. `shell` is the menu
   * runtime pasted in verbatim (build.py:266-465), whose behaviour the
   * selection module models.
   */
  ghost function MultiOutput(dirs: seq<RunDir>, parse: string -> Parsed, shell: string): Result<string, BuildError> {
    if dirs == [] then Failure(NoRunDirectories)
    else
      var sorted := SortBy(dirs, DirName);
      match Gather(RunBlocks(sorted, parse))
      case Failure(e) => Failure(e)
      case Success(body) => Success(JoinLines(MENU_HEADER + body + MenuTail(sorted, RunnerEntries(sorted), shell)) + "\n")
  }

  lemma {:induction false} GatherFailurePersists(blocks: seq<Result<string, BuildError>>, k: nat)
    requires k <= |blocks|
    requires Gather(blocks[..k]).Failure?
    ensures Gather(blocks) == Gather(blocks[..k])
    decreases |blocks| - k
  {
    if k < |blocks| {
      var n := |blocks| - 1;
      assert blocks[..n][..k] == blocks[..k];
      GatherFailurePersists(blocks[..n], k);
    } else {
      assert blocks[..k] == blocks;
    }
  }

  lemma GatherStep(blocks: seq<Result<string, BuildError>>, i: nat, body: seq<string>)
    requires i < |blocks| && blocks[i].Success?
    requires Gather(blocks[..i]) == Success(body)
    ensures Gather(blocks[..i + 1]) == Success(body + ["", blocks[i].value])
  {
    assert blocks[..i + 1][..i] == blocks[..i];
  }

  lemma GatherFailure(blocks: seq<Result<string, BuildError>>, i: nat, body: seq<string>)
    requires i < |blocks| && blocks[i].Failure?
    requires Gather(blocks[..i]) == Success(body)
    ensures Gather(blocks) == Failure(blocks[i].error)
  {
    assert blocks[..i + 1][..i] == blocks[..i];
    GatherFailurePersists(blocks, i + 1);
  }

  lemma RunnerEntriesStep(dirs: seq<RunDir>, i: nat)
    requires i < |dirs|
    ensures RunnerEntries(dirs[..i + 1]) == RunnerEntries(dirs[..i]) + [RunnerEntry(i + 1, dirs[i])]
  {
    assert dirs[..i + 1][..i] == dirs[..i];
  }

  /** The factory of the `i`-th run of the list. */
  method RunBlockAt(dirs: seq<RunDir>, parse: string -> Parsed, i: nat) returns (r: Result<string, BuildError>)
    requires i < |dirs|
    ensures r == RunBlocks(dirs, parse)[i]
  {
    r := BuildSingleRunBlock(dirs[i], parse);
    RunBlocksAt(dirs, parse, i);
  }

  /** The loop of `build_multi`: a `RUNNERS` entry and a factory per run, in order. */
  method RunnerBlocks(dirs: seq<RunDir>, parse: string -> Parsed) returns (entries: seq<string>, r: Result<seq<string>, BuildError>)
    ensures r == Gather(RunBlocks(dirs, parse))
    ensures r.Success? ==> entries == RunnerEntries(dirs)
  {
    ghost var blocks := RunBlocks(dirs, parse);
    var body: seq<string> := [];
    entries := [];
    var i := 0;
    while i < |dirs|
      invariant 0 <= i <= |dirs|
      invariant entries == RunnerEntries(dirs[..i])
      invariant Gather(blocks[..i]) == Success(body)
    {
      RunnerEntriesStep(dirs, i);
      entries := entries + [RunnerEntry(i + 1, dirs[i])];
      var block := RunBlockAt(dirs, parse, i);
      if block.Failure? {
        GatherFailure(blocks, i, body);
        return entries, Failure(block.error);
      }
      GatherStep(blocks, i, body);
      body := body + ["", block.value];
      i := i + 1;
    }
    assert dirs[..i] == dirs;
    assert blocks[..i] == blocks;
    return entries, Success(body);
  }

  /** `build_multi(run_dirs, output)`: the text it writes, or the error it raises. */
  method BuildMulti(dirs: seq<RunDir>, parse: string -> Parsed, shell: string) returns (r: Result<string, BuildError>)
    ensures r == MultiOutput(dirs, parse, shell)
  {
    if dirs == [] {
      return Failure(NoRunDirectories);
    }
    var sorted := SortBy(dirs, DirName);
    var entries, body := RunnerBlocks(sorted, parse);
    if body.Failure? {
      return Failure(body.error);
    }
    return Success(JoinLines(MENU_HEADER + body.value + MenuTail(sorted, entries, shell)) + "\n");
  }

  /**
   * The generated `RUNNERS` dictionary: key `str(i)` names the factory of
   * the i-th directory in name order, for i from 1 to `RUN_MAX`.
   */
  function Runners(dirs: seq<RunDir>): (m: map<string, string>)
    ensures forall i :: 1 <= i <= |dirs| ==> NatToString(i) in m
    ensures forall i :: 1 <= i <= |dirs| ==>
              RunnerEntries(dirs)[i - 1] == "    \"" + NatToString(i) + "\": " + m[NatToString(i)]
  {
    NatToStringInjectiveAll();
    var m := map i | 1 <= i <= |dirs| :: NatToString(i) := "_make_" + dirs[i - 1].name;
    assert forall j :: 1 <= j <= |dirs| ==> NatToString(j) in m && m[NatToString(j)] == "_make_" + dirs[j - 1].name;
    RunnerEntriesKeys(dirs, m);
    m
  }

  lemma RunnerEntriesKeys(dirs: seq<RunDir>, m: map<string, string>)
    requires forall j :: 1 <= j <= |dirs| ==> NatToString(j) in m && m[NatToString(j)] == "_make_" + dirs[j - 1].name
    ensures forall i :: 1 <= i <= |dirs| ==>
              RunnerEntries(dirs)[i - 1] == "    \"" + NatToString(i) + "\": " + m[NatToString(i)]
  {
    forall i | 1 <= i <= |dirs|
      ensures RunnerEntries(dirs)[i - 1] == "    \"" + NatToString(i) + "\": " + m[NatToString(i)]
    {
      RunnerEntryValue(i, dirs[i - 1]);
    }
  }

  /** An entry line is its key, a colon, and the factory's name. */
  lemma RunnerEntryValue(i: nat, d: RunDir)
    ensures RunnerEntry(i, d) == "    \"" + NatToString(i) + "\": " + ("_make_" + d.name)
  {
    assert "\": _make_" == "\": " + "_make_";
  }

  lemma NatToStringInjectiveAll()
    ensures forall a: nat, b: nat :: NatToString(a) == NatToString(b) ==> a == b
  {
    forall a: nat, b: nat | NatToString(a) == NatToString(b)
      ensures a == b
    {
      NatToStringInjective(a, b);
    }
  }

  /**
   * `RUNNERS.get(str(selected))` finds a factory exactly for the selections
   * 1 to `RUN_MAX`, and it is the factory of the selected run.
   */
  lemma RunnersLookup(dirs: seq<RunDir>, selected: nat)
    ensures NatToString(selected) in Runners(dirs) <==> 1 <= selected <= |dirs|
    ensures 1 <= selected <= |dirs| ==> Runners(dirs)[NatToString(selected)] == "_make_" + dirs[selected - 1].name
  {
    NatToStringInjectiveAll();
  }

  /** The table lists every run once, in name order, and `RUN_MAX` is their number. */
  lemma MenuTable(dirs: seq<RunDir>, parse: string -> Parsed, shell: string)
    requires dirs != []
    ensures var sorted := SortBy(dirs, DirName);
            SortedBy(sorted, DirName) && multiset(sorted) == multiset(dirs)
            && |RunnerEntries(sorted)| == |dirs|
            && (forall i :: 0 <= i < |dirs| ==> RunnerEntries(sorted)[i] == RunnerEntry(i + 1, sorted[i]))
            && MenuTail(sorted, RunnerEntries(sorted), shell)[1] == "RUN_MAX = " + NatToString(|dirs|)
  {
    var sorted := SortBy(dirs, DirName);
    assert |sorted| == |multiset(sorted)| == |multiset(dirs)| == |dirs|;
  }

  /** Which files are missions: lower-case `m` and a digit, so not main.py nor `M03_…`. */
  lemma MissionFileExamples()
    ensures IsMissionFile("m08_m07_m06_m05.py")
    ensures !IsMissionFile("M03_M04_ayumu_01_30.py")
    ensures !IsMissionFile("main.py")
    ensures !IsMissionFile("setup.py")
  {
    var a := "m08_m07_m06_m05.py";
    assert a[|a| - 3..] == ".py" && a[..1] == "m";
    assert Stem(a) == "m08_m07_m06_m05";
    assert "M03_M04_ayumu_01_30.py"[..1][0] != "m"[0];
    assert Stem("main.py") == "main";
    assert "setup.py"[..1][0] != "m"[0];
  }

  /** The missions of a run: every file of the run that qualifies, each once, sorted by name. */
  lemma MissionFilesSpec(dir: RunDir)
    ensures SortedBy(MissionFiles(dir), FileName)
    ensures forall f :: f in MissionFiles(dir) <==> f in dir.files && IsMissionFile(f.name)
  {
    var m := MissionFiles(dir);
    assert multiset(m) == multiset(Missions(dir.files));
    forall f
      ensures f in m <==> f in Missions(dir.files)
    {
      assert f in m <==> f in multiset(m);
      assert f in Missions(dir.files) <==> f in multiset(Missions(dir.files));
    }
  }

  /** Every mission name handed to the import rewriter starts with `m` and a digit. */
  lemma MissionStems(dir: RunDir)
    ensures forall i :: 0 <= i < |Stems(MissionFiles(dir))| ==>
              |Stems(MissionFiles(dir))[i]| >= 2 && Stems(MissionFiles(dir))[i][0] == 'm'
              && IsDigit(Stems(MissionFiles(dir))[i][1])
  {
    MissionFilesSpec(dir);
    forall i | 0 <= i < |MissionFiles(dir)|
      ensures IsMissionFile(MissionFiles(dir)[i].name)
    {
      assert MissionFiles(dir)[i] in MissionFiles(dir);
    }
  }

  /**
   * Whatever the mission files of a run, the dispatcher line importing
   * `M03_M04_ayumu_01_30` (run06/main.py:3) comes out of the rewriter as it went in.
   */
  lemma Run06ImportSurvives(dir: RunDir, tail: string)
    requires tail == [] || !IsWordChar(tail[0])
    ensures var line := ImportLine([], [], RUN06_FOREIGN, "_variant_" + RUN06_FOREIGN, tail);
            RewriteLine(line, Stems(MissionFiles(dir))) == line
  {
    MissionStems(dir);
    Run06ForeignImportKept(Stems(MissionFiles(dir)), tail);
  }

  /** A joined text starts with its first part and ends with its last. */
  lemma {:induction false} JoinEnds(parts: seq<string>, sep: string)
    requires parts != []
    ensures StartsWith(Join(parts, sep), parts[0])
    ensures EndsWith(Join(parts, sep), parts[|parts| - 1])
    decreases |parts|
  {
    if |parts| > 1 {
      JoinEnds(parts[1..], sep);
      var rest := Join(parts[1..], sep);
      assert Join(parts, sep) == parts[0] + (sep + rest);
      assert parts[1..][|parts[1..]| - 1] == parts[|parts| - 1];
      var t := Join(parts, sep);
      var last := parts[|parts| - 1];
      assert t[|t| - |last|..] == rest[|rest| - |last|..];
    }
  }

  /**
   * A run's factory opens with `def _make_<run>():` and closes with the
   * `return RunBundle(...)` line; a run without missions, or with missions
   * but no main.py, raises the matching error, missions checked first.
   */
  lemma RunBlockShape(dir: RunDir, parse: string -> Parsed)
    ensures MissionFiles(dir) == [] ==> RunBlock(dir, parse) == Failure(NoMissionFiles(dir.name))
    ensures MissionFiles(dir) != [] && Lookup(dir.files, "main.py").None? ==> RunBlock(dir, parse) == Failure(MainNotFound(dir.name))
    ensures RunBlock(dir, parse).Success? ==>
              StartsWith(RunBlock(dir, parse).value, "def _make_" + dir.name + "():")
              && EndsWith(RunBlock(dir, parse).value, "    return RunBundle(initialize_robot, _run_entry)")
  {
    if RunBlock(dir, parse).Success? {
      var parts := RunBlockParts(dir, parse).value;
      JoinEnds(parts, "\n");
      assert parts[|parts| - 1] == ENTRY[|ENTRY| - 1];
    }
  }

  /**
   * `build` and `build_single_run_block` reject the same runs with the same
   * error: the missions are checked before main.py, and a mission that does
   * not parse is reported whatever the layout.
   */
  lemma FlatMatchesNested(dir: RunDir, parse: string -> Parsed)
    ensures FlatOutput(dir, parse).Failure? <==> RunBlock(dir, parse).Failure?
    ensures FlatOutput(dir, parse).Failure? ==> FlatOutput(dir, parse).error == RunBlock(dir, parse).error
  {
    MissionErrors(MissionFiles(dir), parse, Flat);
    MissionErrors(MissionFiles(dir), parse, Nested);
  }

  /** The first of the flat parts is the banner naming the run. */
  lemma FlatPartsBanner(dir: RunDir, parse: string -> Parsed)
    ensures FlatParts(dir, parse).Success? ==>
              FlatParts(dir, parse).value != []
              && FlatParts(dir, parse).value[0] == "# Auto-generated from " + dir.name + ". Do not edit this file on Hub."
  {
  }

  /** The text `build` writes opens with its banner naming the run and ends in a newline. */
  lemma FlatOutputShape(dir: RunDir, parse: string -> Parsed)
    ensures FlatOutput(dir, parse).Success? ==>
              StartsWith(FlatOutput(dir, parse).value, "# Auto-generated from " + dir.name + ". Do not edit this file on Hub.")
              && EndsWith(FlatOutput(dir, parse).value, "\n")
  {
    if FlatOutput(dir, parse).Success? {
      var parts := FlatParts(dir, parse).value;
      FlatPartsBanner(dir, parse);
      var t := Join(parts, "\n\n");
      assert FlatOutput(dir, parse).value == t + "\n";
      assert StartsWith(t, parts[0]) by {
        JoinEnds(parts, "\n\n");
      }
      assert (t + "\n")[..|parts[0]|] == t[..|parts[0]|];
    }
  }

  /** Building a run fails only for that run itself or for one of its mission files. */
  lemma RunBlockErrors(dir: RunDir, parse: string -> Parsed)
    ensures RunBlock(dir, parse).Failure? ==>
              RunBlock(dir, parse).error in {NoMissionFiles(dir.name), MainNotFound(dir.name)}
              || exists f :: f in MissionFiles(dir) && RunBlock(dir, parse).error == SyntaxErrorIn(f.name)
  {
    var m := MissionFiles(dir);
    MissionErrorShape(m, parse, Nested);
    if RunBlock(dir, parse).Failure? && m != [] && Lookup(dir.files, "main.py").Some? {
      var i :| 0 <= i < |m| && !Parses(m[i], parse)
                && AllMissionParts(m, parse, Nested).error == SyntaxErrorIn(m[i].name);
      assert m[i] in m;
    }
  }

  /** The errors of the gathered blocks are the errors of the blocks. */
  lemma {:induction false} GatherErrors(blocks: seq<Result<string, BuildError>>)
    ensures Gather(blocks).Failure? ==> exists i :: 0 <= i < |blocks| && blocks[i] == Failure(Gather(blocks).error)
  {
    if blocks != [] {
      var n := |blocks| - 1;
      GatherErrors(blocks[..n]);
      if Gather(blocks[..n]).Failure? {
        var i :| 0 <= i < n && blocks[..n][i] == Failure(Gather(blocks[..n]).error);
        assert blocks[i] == blocks[..n][i];
      }
    }
  }

  /** `build_multi` reports `No run directories found` exactly when it is given none. */
  lemma MultiNoRuns(dirs: seq<RunDir>, parse: string -> Parsed, shell: string)
    ensures MultiOutput(dirs, parse, shell) == Failure(NoRunDirectories) <==> dirs == []
  {
    if dirs != [] {
      var sorted := SortBy(dirs, DirName);
      var blocks := RunBlocks(sorted, parse);
      GatherErrors(blocks);
      if Gather(blocks).Failure? {
        var i :| 0 <= i < |blocks| && blocks[i] == Failure(Gather(blocks).error);
        RunBlocksAt(sorted, parse, i);
        RunBlockErrors(sorted[i], parse);
      }
    }
  }

  /** The binding of a nested mission is its `4 + 4·|exports|` lines, each indented by four spaces. */
  lemma NestedBindingLines(stem: string, exports: seq<string>, globals: seq<string>)
    requires NoBoundary(stem)
    requires forall i :: 0 <= i < |exports| ==> NoBoundary(exports[i])
    ensures SplitLines(Shift(MissionBinding(stem, exports, globals), Nested)) == IndentLines(BindingLines(stem, exports), 4)
    ensures |SplitLines(Shift(MissionBinding(stem, exports, globals), Nested))| == 4 + 4 * |exports|
  {
    var text := MissionBinding(stem, exports, globals);
    BindingTextLines(stem, exports, globals);
    BindingLayout(stem, exports);
    var lines := BindingLines(stem, exports);
    if exports == [] {
      assert lines[3] == stem + " = _MissionModule()";
    } else {
      var k := |exports| - 1;
      assert lines[4 + 4 * k..8 + 4 * k] == ExportBlock(stem, exports[k]);
      assert lines[|lines| - 1] == "    pass";
    }
    IndentTextLines(text, 4);
  }

  /** The names a mission that parses declares `global`, at any depth. */
  ghost function Globals(f: SourceFile, parse: string -> Parsed): set<string> {
    match parse(MissionText(f))
    case SyntaxError => {}
    case Module(body) => GlobalsOfAll(body)
  }

  /** How many parts a mission contributes: four with a `global` line, three without. */
  ghost function Width(f: SourceFile, parse: string -> Parsed): nat {
    if Globals(f, parse) == {} then 3 else 4
  }

  /**
   * The parts of mission `f` at `off`: first its banner, then its `global`
   * line when it has one, then its code, then its binding.
   */
  ghost predicate MissionAt(ps: seq<string>, off: nat, f: SourceFile, parse: string -> Parsed, layout: Layout)
    requires Parses(f, parse)
  {
    var body := parse(MissionText(f)).body;
    var w := Width(f, parse);
    off + w <= |ps|
    && ps[off] == Pad(layout) + "# ---- mission: " + Stem(f.name) + " ----"
    && (w == 4 ==> ps[off + 1] == Pad(layout) + "global " + Join(SortedNames(GlobalsOfAll(body)), ", "))
    && ps[off + w - 2] == Shift(MissionText(f), layout)
    && ps[off + w - 1] == Shift(MissionBinding(Stem(f.name), SortedNames(ExportSet(body)), SortedNames(GlobalsOfAll(body))), layout)
  }

  /** The parts of a mission that parses. */
  ghost function Block(f: SourceFile, parse: string -> Parsed, layout: Layout): seq<string>
    requires Parses(f, parse)
  {
    var body := parse(MissionText(f)).body;
    MissionLines(Stem(f.name), MissionText(f), SortedNames(ExportSet(body)), SortedNames(GlobalsOfAll(body)), layout)
  }

  /** Where each part of one mission's block sits. */
  lemma LinesAt(stem: string, text: string, exports: seq<string>, globals: seq<string>, layout: Layout)
    ensures var q := MissionLines(stem, text, exports, globals, layout);
            var w := if globals == [] then 3 else 4;
            |q| == w
            && q[0] == Pad(layout) + "# ---- mission: " + stem + " ----"
            && (w == 4 ==> q[1] == Pad(layout) + "global " + Join(globals, ", "))
            && q[w - 2] == Shift(text, layout)
            && q[w - 1] == Shift(MissionBinding(stem, exports, globals), layout)
  {
  }

  /** A mission that does not fail parses, and its parts are its block of `Width` parts. */
  lemma MissionPartsBlock(f: SourceFile, parse: string -> Parsed, layout: Layout)
    requires MissionParts(f, parse, layout).Success?
    ensures Parses(f, parse)
    ensures MissionParts(f, parse, layout).value == Block(f, parse, layout)
    ensures |Block(f, parse, layout)| == Width(f, parse)
  {
    var body := parse(MissionText(f)).body;
    var globals := SortedNames(GlobalsOfAll(body));
    assert globals == [] <==> GlobalsOfAll(body) == {};
    LinesAt(Stem(f.name), MissionText(f), SortedNames(ExportSet(body)), globals, layout);
  }

  /** A block found at `off` shows its banner, `global` line, code and binding there. */
  lemma BlockAt(ps: seq<string>, off: nat, f: SourceFile, parse: string -> Parsed, layout: Layout)
    requires Parses(f, parse)
    requires off + Width(f, parse) <= |ps| && ps[off..off + Width(f, parse)] == Block(f, parse, layout)
    ensures MissionAt(ps, off, f, parse, layout)
  {
    var body := parse(MissionText(f)).body;
    var globals := SortedNames(GlobalsOfAll(body));
    assert globals == [] <==> GlobalsOfAll(body) == {};
    LinesAt(Stem(f.name), MissionText(f), SortedNames(ExportSet(body)), globals, layout);
    var w := Width(f, parse);
    var q := Block(f, parse, layout);
    assert forall k :: 0 <= k < w ==> ps[off + k] == q[k];
  }

  /** The blocks of `bs` one after another. */
  function Concat<T>(bs: seq<seq<T>>): seq<T> {
    if bs == [] then [] else Concat(bs[..|bs| - 1]) + bs[|bs| - 1]
  }

  /** Where each block of `bs` begins in `Concat(bs)`, and where the last one ends. */
  function Starts<T>(bs: seq<seq<T>>): (r: seq<nat>)
    ensures |r| == |bs| + 1
  {
    if bs == [] then [0] else Starts(bs[..|bs| - 1]) + [|Concat(bs)|]
  }

  /** Block `i` of `bs` sits in `Concat(bs)` between `Starts(bs)[i]` and `Starts(bs)[i + 1]`. */
  lemma {:induction false} ConcatAt<T>(bs: seq<seq<T>>, i: nat)
    requires i < |bs|
    ensures Starts(bs)[0] == 0 && Starts(bs)[|bs|] == |Concat(bs)|
    ensures Starts(bs)[i + 1] == Starts(bs)[i] + |bs[i]| <= |Concat(bs)|
    ensures Concat(bs)[Starts(bs)[i]..Starts(bs)[i + 1]] == bs[i]
  {
    var n := |bs| - 1;
    var init := bs[..n];
    var c := Concat(init);
    assert Concat(bs) == c + bs[n];
    assert Starts(bs) == Starts(init) + [|Concat(bs)|];
    if n == 0 {
      assert Starts(init) == [0] && c == [];
    } else if i < n {
      ConcatAt(init, i);
      assert init[i] == bs[i];
      assert (c + bs[n])[Starts(init)[i]..Starts(init)[i + 1]] == c[Starts(init)[i]..Starts(init)[i + 1]];
    } else {
      ConcatAt(init, n - 1);
      assert (c + bs[n])[|c|..|c| + |bs[n]|] == bs[n];
    }
  }

  /** The block of each mission that parses, and nothing for one that does not. */
  ghost function Blocks(files: seq<SourceFile>, parse: string -> Parsed, layout: Layout): (r: seq<seq<string>>)
    ensures |r| == |files|
  {
    seq(|files|, i requires 0 <= i < |files| => if Parses(files[i], parse) then Block(files[i], parse, layout) else [])
  }

  /** When no mission fails, every mission parses. */
  lemma {:induction false} PartsParse(files: seq<SourceFile>, parse: string -> Parsed, layout: Layout)
    ensures AllMissionParts(files, parse, layout).Success? ==>
              forall i :: 0 <= i < |files| ==> Parses(files[i], parse)
  {
    if files != [] && AllMissionParts(files, parse, layout).Success? {
      var n := |files| - 1;
      var init := files[..n];
      PartsParse(init, parse, layout);
      AllMissionPartsStep(files, parse, layout);
      MissionPartsError(files[n], parse, layout);
      forall i | 0 <= i < |files|
        ensures Parses(files[i], parse)
      {
        if i < n {
          assert init[i] == files[i];
        } else {
          assert i == n;
        }
      }
    }
  }

  /** The first `n` blocks of the missions are the blocks of the first `n` missions. */
  lemma BlocksPrefix(files: seq<SourceFile>, parse: string -> Parsed, layout: Layout, n: nat)
    requires n <= |files|
    ensures Blocks(files, parse, layout)[..n] == Blocks(files[..n], parse, layout)
  {
    var bs := Blocks(files, parse, layout);
    var init := files[..n];
    forall i | 0 <= i < n
      ensures bs[i] == Blocks(init, parse, layout)[i]
    {
      assert init[i] == files[i];
    }
  }

  /** When no mission fails, the missions' parts are their blocks, concatenated in file order. */
  lemma {:induction false} PartsConcat(files: seq<SourceFile>, parse: string -> Parsed, layout: Layout)
    ensures AllMissionParts(files, parse, layout).Success? ==>
              (forall i :: 0 <= i < |files| ==> Parses(files[i], parse))
              && AllMissionParts(files, parse, layout).value == Concat(Blocks(files, parse, layout))
  {
    PartsParse(files, parse, layout);
    if files != [] && AllMissionParts(files, parse, layout).Success? {
      var n := |files| - 1;
      var init := files[..n];
      PartsConcat(init, parse, layout);
      var bs := Blocks(files, parse, layout);
      MissionPartsBlock(files[n], parse, layout);
      BlocksPrefix(files, parse, layout, n);
      assert Concat(bs) == Concat(bs[..n]) + bs[n];
      assert bs[n] == MissionParts(files[n], parse, layout).value;
      assert AllMissionParts(files, parse, layout).value
             == AllMissionParts(init, parse, layout).value + MissionParts(files[n], parse, layout).value;
    }
  }

  /** Mission `i`'s banner, `global` line, code and binding, where its block starts. */
  lemma BannerAt(files: seq<SourceFile>, parse: string -> Parsed, layout: Layout, i: nat)
    requires i < |files| && forall j :: 0 <= j < |files| ==> Parses(files[j], parse)
    ensures var bs := Blocks(files, parse, layout);
            Starts(bs)[0] == 0 && Starts(bs)[|files|] == |Concat(bs)|
            && Starts(bs)[i + 1] == Starts(bs)[i] + Width(files[i], parse)
            && MissionAt(Concat(bs), Starts(bs)[i], files[i], parse, layout)
  {
    var bs := Blocks(files, parse, layout);
    assert Parses(files[i], parse) && bs[i] == Block(files[i], parse, layout);
    MissionPartsBlock(files[i], parse, layout);
    ConcatAt(bs, i);
    BlockAt(Concat(bs), Starts(bs)[i], files[i], parse, layout);
  }

  /**
   * When every mission parses, their parts are the missions' blocks one after
   * another, in file order, starting at 0 and ending at the last part: each
   * opens with the `# ---- mission: <stem> ----` banner, has a `global` line
   * right after it exactly when the mission declares globals (four parts,
   * otherwise three), and ends with its code and its binding.
   */
  lemma MissionBanners(files: seq<SourceFile>, parse: string -> Parsed, layout: Layout)
    ensures var starts := Starts(Blocks(files, parse, layout));
            AllMissionParts(files, parse, layout).Success? ==>
              (forall i :: 0 <= i < |files| ==> Parses(files[i], parse))
              && starts[0] == 0
              && |AllMissionParts(files, parse, layout).value| == starts[|files|]
              && forall i {:trigger files[i]} :: 0 <= i < |files| ==>
                   starts[i + 1] == starts[i] + Width(files[i], parse)
                   && MissionAt(AllMissionParts(files, parse, layout).value, starts[i], files[i], parse, layout)
  {
    if AllMissionParts(files, parse, layout).Success? {
      PartsConcat(files, parse, layout);
      var bs := Blocks(files, parse, layout);
      if files == [] {
        assert Starts(bs) == [0];
      }
      forall i {:trigger files[i]} | 0 <= i < |files|
        ensures Starts(bs)[0] == 0 && Starts(bs)[|files|] == |Concat(bs)|
        ensures Starts(bs)[i + 1] == Starts(bs)[i] + Width(files[i], parse)
        ensures MissionAt(Concat(bs), Starts(bs)[i], files[i], parse, layout)
      {
        BannerAt(files, parse, layout, i);
      }
    }
  }
}
