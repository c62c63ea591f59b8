# Hub build and menus of the FLL 2026-2027 robot-game repository, in Dafny

This project models two things from the repository. The first is the PC-side
build script `build.py`, which splices every `runXX` directory into one
`hub_main.py`. The second is the three pieces of on-hub logic that decide what
runs:

- the menu inside the generated file;
- the variant dispatchers of `run03`, `run05` and `run06` (`main.py`);
- the `program_id` menu of the root `main.py`.

Each file of the model follows one part of the program:

| file | module | what it models |
|---|---|---|
| results.dfy | Results | `Option` and `Result` |
| hub.dfy | Hub | the `Button` values of `pybricks.parameters` that both menus poll |
| text.dfy | Text | `str.isspace`, `splitlines`, `"\n".join`, `strip`, and the one `replace("setup.", "")` |
| order.dfy | Order | Python's string order, `sorted()` of a name set, `sorted(key=…)` of a list |
| decimal.dfy | Decimal | `str(int)`, `int(str)`, `f"{n:02d}"` |
| guard.dfy | Guard | `strip_main_guard` |
| setup_imports.dfy | SetupImports | `drop_setup_imports` |
| symbols.dfy | Symbols | `collect_exports`, `collect_global_names` |
| binding.dfy | Binding | `mission_binding` |
| rewrite.dfy | Rewrite | `rewrite_main` |
| run_args.dfy | RunArgs | `normalize_run_arg`, `indent_text` |
| assembly.dfy | Assembly | `rewrite_mission`, `build_single_run_block`, `build`, `build_multi` |
| selection_menu.dfy | SelectionMenu | `_read_last_selection`, `_write_last_selection` and `select_loop` of the generated file |
| variants.dfy | Variants | `get_active_variant_name`, `load_variant` and `main()` of the run mains, and the generated run entry |
| root_menu.dfy | RootMenu | the `PROGRAMS` table and the `main()` loop of the root `main.py` |

How each kind of source code is modelled:

- **Loops become methods.** The script's loops (the guard scan, the setup-import
  filter, the `ast.walk` queue, the import rewrite, the per-mission and per-run
  splicing, the variant search) are methods with `while` loops. Each is proved
  equal to a specification function. The properties of those functions are then
  proved as lemmas.
- **The two hub menus are classes.** Their fields are the ones the code updates:
  `selected` and the storage byte, or `program_id`. They also keep what was shown
  and launched. Each poll of the buttons is one method call, and a run of polls is
  a loop.
- **`ast.parse` is a parameter.** It is `parse: string -> Parsed`, which gives
  either a module's statements or a `SyntaxError`.
- **The file system is data.** A run directory is its name and a list of files.

## Model

| member | source | states |
|---|---|---|
| Text.SplitJoinLines | build.py:25-49 | splitting lines joined by `"\n"` gives them back, when none holds a line break and the last is not empty |
| Text.SplitJoinLinesTerminated | build.py:467 | joined lines followed by one `"\n"` split back into exactly those lines |
| Text.StripIdempotent | build.py:31 | `strip()` twice is `strip()` once |
| Text.DeleteSetupDotIdentity | build.py:144 | text without `setup.` is left unchanged by the replace |
| Text.DeleteSetupDotLeavesOccurrence | build.py:144 | one replace pass can create a new `setup.`: `setsetup.up.` becomes `setup.` |
| Order.SortNames | build.py:77 | `sorted()` of a set of names: strictly ascending, holds exactly the set's names, and is the unique such list |
| Order.StrictlySortedUnique | build.py:87 | two strictly sorted lists with the same members are equal |
| Order.SortBy | build.py:235 | sorting by a key gives a list sorted by that key that is a permutation of the input, and items with equal keys keep their input order (`sorted` is stable) |
| Decimal.ParseNatToString | build.py:162 | `int(str(n)) == n` |
| Decimal.NatToStringInjective | build.py:256 | distinct run numbers give distinct `RUNNERS` keys |
| Decimal.Pad2 | build.py:162 | `f"{n:02d}"` reads back as `n`; below 10 it is `0` then the digit, from 10 on it is `str(n)` |
| Guard.StripMainGuard | build.py:23-49 | the method's text is the guard-stripped text of its input |
| Guard.StripGuardLines | build.py:30-47 | the scan loop yields exactly the lines `GuardStripped` keeps |
| Guard.GuardStrippedShape | build.py:30-47 | the result is a subsequence of the input, and no line of it is a guard line |
| Guard.GuardStrippedIdempotent | build.py:30-47 | stripping the line list twice is stripping it once |
| Guard.GuardStrippedIdempotentOnGuardFree | build.py:30-47 | lines without a guard line are kept unchanged |
| Guard.GuardBlockRemoved | build.py:32-44 | a guard line, its blank or deeper-indented body, then a line at or left of the guard's indentation: the guard and body go, the rest stays |
| Guard.GuardBlockAtEnd | build.py:32-44 | a guard block at the end of the file removes everything from the guard on |
| Guard.GuardStrippedTextIdempotent | build.py:23-49 | as text, stripping is idempotent when the stripped lines do not end in an empty line |
| Guard.GuardStrippedTextNotIdempotent | build.py:25-49 | a guard block behind a blank line leaves a trailing `"\n"` that a second pass drops, so text-level stripping is not idempotent |
| Guard.UnspacedGuardKept | build.py:32 | `if __name__=="__main__":` without the spaces is not recognised |
| SetupImports.DropSetupImports | build.py:52-60 | the method's text is the list of kept lines, joined |
| SetupImports.DropSetupLines | build.py:54-59 | the loop yields exactly the kept lines |
| SetupImports.KeptLinesMembers | build.py:56-59 | a line is kept iff it is in the input and its stripped form starts with neither `import setup` nor `from setup import` |
| SetupImports.KeptLinesSubsequence | build.py:55-59 | kept lines keep their order |
| SetupImports.KeptLinesCount | build.py:55-59 | kept lines plus dropped lines is the input count |
| SetupImports.KeptLinesIdempotent | build.py:55-59 | filtering twice is filtering once |
| SetupImports.IndentedSetupImport | build.py:56-57 | any indented line starting `import setup`, such as `import setuptools`, is dropped |
| Symbols.CollectExports | build.py:63-77 | `None` iff the source does not parse; otherwise the sorted top-level definition and assignment names not starting with `_` |
| Symbols.CollectGlobalNames | build.py:80-87 | `None` iff the source does not parse; otherwise the sorted names of every `global` statement at any depth |
| Symbols.Run01Symbols | run01/m08_m07_m06_m05.py:5-78 | the run01 mission exports `main`, `run`, `sensor_logger_task`, `stop_logging`, and its only global is `stop_logging` |
| Symbols.Run01TopLevel | run01/m08_m07_m06_m05.py:5-77 | the top-level names of the run01 mission |
| Symbols.Run01Globals | run01/m08_m07_m06_m05.py:64-78 | the `global` names found anywhere in the run01 mission |
| Binding.BindingLayout | build.py:99-115 | four header lines, then one four-line `try`/`except NameError` block per export, in order |
| Binding.BindingLinesNoBoundary | build.py:99-115 | no binding line holds a line break when the names do not |
| Binding.BindingTextLines | build.py:99-115 | the binding text splits back into its `4 + 4·n` lines |
| Rewrite.RewriteMain | build.py:118-145 | the method's text is the guard-stripped, setup-filtered main, every line rewritten, joined, with `setup.` deleted |
| Rewrite.RewriteAll | build.py:122-141 | the loop rewrites each line, independently and in order |
| Rewrite.RewriteLines | build.py:122-141 | the line count is kept, and each output line is its input line rewritten |
| Rewrite.MatchImportRoundTrip | build.py:126-134 | `<w>import <prefix.>m as a` matches the import pattern with alias `a` and becomes `<w>a = m` |
| Rewrite.MatchFromRoundTrip | build.py:127-134 | `<w>from p import m as a` misses the import pattern, matches the from pattern and becomes `<w>a = m` |
| Rewrite.DotInMissionMatchesAny | build.py:126-127 | the mission name is spliced into the patterns unescaped: a `.` in a stem such as `m1.v2` matches any character but a newline |
| Rewrite.RewriteLineFirstMatch | build.py:125-138 | a line is replaced by the binding of the first mission whose pattern matches it |
| Rewrite.RewriteLineUnmatched | build.py:140-141 | a line that no mission's pattern matches is kept as it is |
| Rewrite.ForeignImportKept | build.py:125-141 | an import of a module whose first letter no mission shares is kept |
| Rewrite.Run06ForeignImportKept | run06/main.py:3 | run06's `import M03_M04_ayumu_01_30 as _variant_M03_M04_ayumu_01_30` line survives the rewrite when every stem begins with `m` |
| RunArgs.NormalizedShape | build.py:148-162 | a run name or bare number becomes `run` and at least two digits that read as its number |
| RunArgs.NumberNormalized | build.py:158-162 | `1`, `01`, … give `run` and the number padded to two digits |
| RunArgs.NumberPadding | build.py:162 | a single digit is padded with one `0` (`1` gives `run01`); a number from 10 on is kept (`12` gives `run12`) |
| RunArgs.OtherArgStripped | build.py:153-160 | any input that is neither a run name nor a number comes back stripped; an already stripped one comes back as it is |
| RunArgs.OtherArgExample | build.py:153-160 | `" all "` gives `"all"`, not the input unchanged |
| RunArgs.RunNameNormalized | build.py:154-156 | `run1`, `Run1`, `RUN001` give `run01`: prefix case is ignored and leading zeros dropped |
| RunArgs.NormalizeIdempotent | build.py:148-162 | normalising twice is normalising once |
| RunArgs.IndentLines | build.py:165-167 | non-empty lines get the prefix, empty lines stay empty, count kept |
| RunArgs.DedentIndent | build.py:165-167 | removing the prefix again gives the lines back |
| RunArgs.IndentTextLines | build.py:165-167 | the indented text splits into exactly the indented lines |
| Assembly.MissionFilesSpec | build.py:172-174 | the missions are sorted by file name and are exactly the files matching `m*.py`, other than `main.py`, whose stem starts with `m` and a digit |
| Assembly.MissionFileExamples | build.py:173 | `m08_m07_m06_m05.py` is a mission; `M03_M04_ayumu_01_30.py`, `main.py` and `setup.py` are not |
| Assembly.MissionStems | build.py:173-188 | every mission stem is at least two characters, `m` then a digit |
| Assembly.Stems | build.py:187-188 | the mission names are the files' stems, in order |
| Assembly.MissionBlock | build.py:90-96 | `rewrite_mission` and its parts: the mission's banner, `global`, code and binding lines, or a syntax error naming the file |
| Assembly.MissionBlocks | build.py:186-194 | the mission loop gives all missions' parts in order, or the first failure |
| Assembly.MissionErrors | build.py:186-194 | the missions fail iff one does not parse, and the error names the first such file |
| Assembly.MissionErrorShape | build.py:186-194 | on failure, some mission does not parse, the error names it, and all before it parse |
| Assembly.MissionBanners | build.py:186-194 | when every mission parses, the parts are the missions' blocks back to back in file order, from the first part to the last: each opens with its `# ---- mission: <stem> ----` banner, has a `global` line right after it exactly when the mission declares globals, and ends with its code and binding |
| Assembly.NestedBindingLines | build.py:194 | the indented binding splits into its lines, each shifted four spaces |
| Assembly.BuildSingleRunBlock | build.py:170-227 | the method's result is the run's factory block or its error |
| Assembly.RunBlockShape | build.py:175-184 | no missions gives the mission error; missions but no `main.py` gives the main error; a block opens `def _make_<run>():` and ends with the `return RunBundle(...)` line |
| Assembly.RunBlockErrors | build.py:170-227 | a run fails only for missing missions, a missing `main.py`, or a syntax error in one of its mission files |
| Assembly.Build | build.py:471-508 | the method's result is the flat output or its error |
| Assembly.FlatMatchesNested | build.py:471-508 | `build` and `build_single_run_block` reject the same runs with the same error |
| Assembly.FlatOutputShape | build.py:484-507 | the flat text starts with its banner naming the run and ends in a newline |
| Assembly.RunnerEntries | build.py:254-256 | one `"<i>": _make_<run>` entry per run, numbered from 1 |
| Assembly.RunnerBlocks | build.py:252-258 | the run loop gives the blocks Gather specifies, and on success the entries for every run |
| Assembly.BuildMulti | build.py:230-467 | the method's result is the multi-run output or its error |
| Assembly.MultiNoRuns | build.py:232-233 | `No run directories found` exactly when the list is empty |
| Assembly.MenuTable | build.py:235-265 | the runs are sorted by name as a permutation of the input; entry `i` points at the `i`-th sorted run; `RUN_MAX` is the run count |
| Assembly.Runners | build.py:254-265 | `RUNNERS` has a key for every number from 1 to the run count, and entry `i` of the text maps `"<i>"` to the same factory as the map |
| Assembly.RunnersLookup | build.py:405-408 | `RUNNERS.get(str(n))` finds a factory iff `1 <= n <= RUN_MAX`, and finds the `n`-th run's |
| Assembly.Run06ImportSurvives | build.py:172-174 | for any run directory, such as `run06`, the `import M03_M04_ayumu_01_30 as …` line of its `main.py` is left as it is, since `M03_M04_ayumu_01_30.py` is never spliced |
| SelectionMenu.ReadSelection | build.py:340-353 | a stored byte is the selection iff storage is readable, non-empty and the byte is within `RUN_MIN..RUN_MAX` |
| SelectionMenu.ZeroIsNoSelection | build.py:349-350 | a stored 0 means no selection |
| SelectionMenu.WriteOutOfRange | build.py:357-358 | writing a value outside `RUN_MIN..RUN_MAX` leaves storage unchanged |
| SelectionMenu.LargeSelectionNotPersisted | build.py:361-363 | a value above 255 cannot be packed into a byte; meeting that error, the write leaves storage unchanged |
| SelectionMenu.ReadAfterWrite | build.py:340-363 | what was written, within range and up to 255, is read back |
| SelectionMenu.InitialInRange | build.py:424 | the start selection is in range, and `RUN_MIN` when nothing valid is stored |
| SelectionMenu.Menu.constructor | build.py:424 | the menu starts on the stored selection or `RUN_MIN`, with nothing shown or launched |
| SelectionMenu.Menu.ReadLastSelection | build.py:340-353 | the method returns what `ReadSelection` specifies for the current storage |
| SelectionMenu.Menu.WriteLastSelection | build.py:356-363 | only the storage changes, as `WriteStorage` specifies |
| SelectionMenu.Menu.PollOnce | build.py:426-455 | one pass: show the selection; on touch, store it and launch it when `RUNNERS` has it; then LEFT, else RIGHT, moves round and stores |
| SelectionMenu.Menu.SelectLoop | build.py:422-455 | the loop's state after the polls is `RunPolls` of the start state |
| SelectionMenu.PrevNextInverse | build.py:443-454 | LEFT and RIGHT stay in range and undo each other |
| SelectionMenu.FullCycle | build.py:449-454 | `RUN_MAX` presses of RIGHT come back to the same run |
| SelectionMenu.InitialGood | build.py:424 | the start state satisfies the menu invariant |
| SelectionMenu.PollStepGood | build.py:428-454 | one pass keeps the invariant: shown numbers and launches are runs in range; it shows the selection and launches exactly on touch |
| SelectionMenu.RunPollsGood | build.py:425-455 | the invariant holds after any sequence of passes, one number shown per pass |
| SelectionMenu.LastSelectionPersisted | build.py:436-454 | after a touch, LEFT or RIGHT, the storage reads back the current selection |
| SelectionMenu.ShownAreRunnerKeys | build.py:405-428 | every number shown or launched is a key of the generated `RUNNERS` |
| Variants.Lookup | run06/main.py:9-13 | a name is found iff some entry carries it, and the module found is that entry's |
| Variants.GetActiveVariantName | run06/main.py:26-32 | the loop returns the name `ActiveVariantName` specifies |
| Variants.ActiveVariantTiers | run06/main.py:26-32 | a `CURRENT_MISSION` string naming a variant wins; otherwise the first variant with `IS_CURRENT`; otherwise `ACTIVE_VARIANT` |
| Variants.FirstCurrentShape | run06/main.py:29-31 | the search finds nothing iff no variant is current, else the first current one |
| Variants.LoadVariantSpec | run06/main.py:35-37 | `KeyError` iff the chosen name is not a variant; otherwise the name and its module |
| Variants.SingleVariant | run05/main.py:20-31 | a one-variant table whose fallback names it always loads that variant, whatever `CURRENT_MISSION` holds |
| Variants.LabelParts | run06/main.py:59 | the label is `<run>:<variant>`, and distinct variants give distinct labels |
| Variants.ChoosePlan | run06/main.py:74-96 | a logger task races the run; with `stop_logging` too, the run then raises the flag |
| Variants.MainPlanSpec | run06/main.py:55-96 | `main()` runs timed alone iff the variant has no logger task, and raises the stop flag iff it has both |
| Variants.EntryNeverRaces | build.py:205-225 | as written, the generated run entry always runs timed alone |
| Variants.EntryPlanMatchesMain | build.py:205-225 | the corrected entry takes the same branch as the run's own `main()` |
| Variants.Run06Dispatch | run06/main.py:7-96 | run06 runs `M03_M04_ayumu_01_30`, racing its logger and stopping it; the generated entry runs it timed only |
| Variants.Run05Run03Dispatch | run05/main.py:5-90 | run05 loads `m01_m02_kanna` and run03 `m10_m11`, with labels `run05:…` and `run03:…` |
| RootMenu.RunRoot | main.py:45-68 | the program index stays within the table after any polls |
| RootMenu.StepSpec | main.py:46-64 | a pass shows the entry's number and launches that entry's directory even when it also moves; RIGHT moves on, LEFT alone moves back, neither keeps the index, and RIGHT wins over LEFT |
| RootMenu.NextPrevInverse | main.py:51-57 | RIGHT and LEFT stay in range and undo each other |
| RootMenu.ShippedTable | main.py:15-22 | entry `i` shows `i + 1` and its directory is `run0<i + 1>` |
| RootMenu.LaunchedFromTable | main.py:62-64 | every launched directory is one of the table's |
| RootMenu.Menu.constructor | main.py:42-43 | the menu starts at index 0 |
| RootMenu.Menu.Poll | main.py:46-66 | one pass of the loop, as `RootStep` specifies |
| RootMenu.Menu.Run | main.py:45-68 | the loop's state after the polls is `RunRoot` of the start state |

## Left out

- I/O is abstract. Reading and writing files, the `print` calls and `load_text`'s
  newline translation are not modelled. A run directory is a name and a list of
  `(file name, text)` pairs. `build_multi` returns the text it would write.
- Parsing is a parameter. `ast.parse` is the `parse` parameter. The shell text
  that `build_multi` appends (build.py:266-464) is the `shell` parameter, and its
  menu behaviour is modelled separately in SelectionMenu.
- Unicode is partly simplified. `\w` and `\d` are ASCII. `re.IGNORECASE` is tested
  only on the letters of `run`. Whitespace follows `str.isspace()`'s list.
- `rewrite_main`'s patterns are modelled as fixed recognisers. A `.` in a mission
  name matches any character but a newline, as in the regex (Rewrite.MissionAt);
  the other metacharacters are taken literally. The first `\s+` is taken
  as long as possible. That is exact for stems that start with a letter, which
  the mission filter guarantees.
- `glob("m*.py")` is taken as case-sensitive, as on Linux and macOS file systems.
  On a case-insensitive file system the glob would list `M03_M04_ayumu_01_30.py`,
  but the `m\d` test would still reject it, so the result is the same.
- The hub library is not modelled. Hub storage is `Option<seq<byte>>`, where `None`
  means the call raised. A display or button error caught in the source is not
  modelled. Lights and waits are not modelled, and `_wait_for_release` and
  `_wait_touch_release` are taken to return.
- Button presses are a sequence of polls. `_run_selected`'s factory call,
  `run_task`, `_monitor_stop` and the Center-button stop are recorded only as the
  launched selection.
- The force sensor reading is a `real`.
- The modules of run06's other variants (`M03_M04`, `m13_m03`) and the single
  modules of run03 and run05 are parameters.
- These parts of the repository are not part of this model: `run_with_timing` and
  `run()` of the run mains (timing and printing), `load_and_run`, `selector.py`,
  `utils/`, the run01/run02 mains, and build.py's argument parsing and directory
  glob (build.py:511-523).
- Guard stripping is idempotent on line lists only: `"\n".join` followed by
  `splitlines()` drops a trailing empty line (Guard.GuardStrippedTextNotIdempotent).
- `build()` chooses no variant; the run's `main.py` does (Variants).
- Assembly.RunnerBlocks: the entries it returns are specified only on success. On
  a failure the caller discards them.
- RunArgs.NormalizeRunArg: the function has no `ensures` of its own. Its
  properties are lemmas: NormalizedShape, NumberNormalized, NumberPadding,
  RunNameNormalized, OtherArgStripped, NormalizeIdempotent.
- RunArgs.NormalizeRunArg: the docstring (build.py:149-152, the sentence at 151)
  says other strings are returned unchanged, but the code returns them stripped
  (build.py:153, 159-160).
  The model follows the code (RunArgs.OtherArgStripped, RunArgs.OtherArgExample).
- RunArgs.NormalizeRunArg: `int(num)` at build.py:162 raises `ValueError` on a
  digit string longer than the interpreter's conversion limit (4300 digits by
  default since Python 3.11). Integers here are unbounded, so the model pads any
  digit string.

## Findings

| source | as written | input that shows it | evidently intended | confidence | as-written member | corrected member |
|---|---|---|---|---|---|---|
| build.py:205-225 | `variant = load_variant()` keeps the `(name, module)` tuple, so `hasattr(variant, "sensor_logger_task")` is always false and the logger branch is never taken | any run whose chosen variant defines `sensor_logger_task`. run03 and run05 load the spliced lower-case variants `m10_m11` and `m01_m02_kanna` (Variants.Run05Run03Dispatch), so they reach the entry with this bug; whether those modules define a logger is not part of this model. run06's `main()` races the logger of `M03_M04_ayumu_01_30` and the entry does not (Variants.Run06Dispatch), but run06's factory keeps its `import M03_M04_ayumu_01_30 as …` line (Assembly.Run06ImportSurvives), so on a hub without that module `_make_run06()` raises before the entry runs | unpack the tuple as the run mains do (`variant_name, variant = load_variant()`), so the entry races the logger as `main()` does | not executed | Variants.EntryPlanAsWritten, Variants.EntryNeverRaces | Variants.EntryPlan, Variants.EntryPlanMatchesMain |
