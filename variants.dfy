/**
 * The variant dispatch of the run entry points (run03/main.py, run05/main.py,
 * run06/main.py): which of the imported mission variants runs, under which
 * label, and whether its sensor logger races the timed run; and the way
 * the generated run entry (build.py:201-226) makes the same choice.
 */
module Variants {
  import opened Results
  import opened Text

  /** The value of `CURRENT_MISSION`: `None`, a string, or anything else. */
  datatype Setting = NoneSetting | StrSetting(s: string) | OtherSetting

  /**
   * What the dispatcher asks of a variant module: the truth of
   * `getattr(m, "IS_CURRENT", False)` and whether it has the attributes
   * `sensor_logger_task` and `stop_logging`.
   */
  datatype Variant = Variant(isCurrent: bool, hasLogger: bool, hasStopLogging: bool)

  /** One item of the `VARIANTS` dictionary, in insertion order. */
  datatype Entry = Entry(name: string, variant: Variant)

  /** A run's `main.py`: its run name, `CURRENT_MISSION`, `ACTIVE_VARIANT` and `VARIANTS`. */
  datatype Dispatcher = Dispatcher(run: string, current: Setting, active: string, variants: seq<Entry>)

  /** Dictionary keys are distinct. */
  predicate DistinctNames(entries: seq<Entry>) {
    forall i, j :: 0 <= i < j < |entries| ==> entries[i].name != entries[j].name
  }

  /** `VARIANTS.get(name)`. */
  function Lookup(entries: seq<Entry>, name: string): (r: Option<Variant>)
    ensures r.Some? <==> exists i :: 0 <= i < |entries| && entries[i].name == name
    ensures r.Some? ==> exists i :: 0 <= i < |entries| && entries[i] == Entry(name, r.value)
  {
    if entries == [] then None
    else if entries[0].name == name then Some(entries[0].variant)
    else
      var r := Lookup(entries[1..], name);
      assert forall i :: 1 <= i < |entries| ==> entries[i] == entries[1..][i - 1];
      r
  }

  /** The name of the first variant, in dictionary order, that declares itself current. */
  function FirstCurrent(entries: seq<Entry>): Option<string> {
    if entries == [] then None
    else if entries[0].variant.isCurrent then Some(entries[0].name)
    else FirstCurrent(entries[1..])
  }

  /**
   * `get_active_variant_name()`: a `CURRENT_MISSION` string that names a
   * variant, else the first variant with `IS_CURRENT`, else `ACTIVE_VARIANT`.
   */
  function ActiveVariantName(d: Dispatcher): string {
    if d.current.StrSetting? && Lookup(d.variants, d.current.s).Some? then d.current.s
    else
      match FirstCurrent(d.variants)
      case Some(name) => name
      case None => d.active
  }

  /** `get_active_variant_name()`, with its loop over `VARIANTS.items()`. */
  method GetActiveVariantName(d: Dispatcher) returns (name: string)
    ensures name == ActiveVariantName(d)
  {
    if d.current.StrSetting? && Lookup(d.variants, d.current.s).Some? {
      return d.current.s;
    }
    var i := 0;
    while i < |d.variants|
      invariant 0 <= i <= |d.variants|
      invariant FirstCurrent(d.variants) == FirstCurrent(d.variants[i..])
    {
      if d.variants[i].variant.isCurrent {
        return d.variants[i].name;
      }
      assert d.variants[i..][1..] == d.variants[i + 1..];
      i := i + 1;
    }
    return d.active;
  }

  /** The first entry with `IS_CURRENT` set is found, and none before it has it. */
  lemma {:induction false} FirstCurrentShape(entries: seq<Entry>)
    ensures FirstCurrent(entries).None? <==> forall i :: 0 <= i < |entries| ==> !entries[i].variant.isCurrent
    ensures FirstCurrent(entries).Some? ==>
              exists j :: 0 <= j < |entries| && entries[j].variant.isCurrent && entries[j].name == FirstCurrent(entries).value
                && forall k :: 0 <= k < j ==> !entries[k].variant.isCurrent
  {
    if entries != [] && !entries[0].variant.isCurrent {
      var rest := entries[1..];
      FirstCurrentShape(rest);
      assert forall i :: 1 <= i < |entries| ==> entries[i] == rest[i - 1];
      if FirstCurrent(rest).Some? {
        var j :| 0 <= j < |rest| && rest[j].variant.isCurrent && rest[j].name == FirstCurrent(rest).value
                 && forall k :: 0 <= k < j ==> !rest[k].variant.isCurrent;
        assert entries[j + 1] == rest[j];
      }
    } else if entries != [] {
      assert entries[0].variant.isCurrent;
    }
  }

  /** The three tiers of `get_active_variant_name()`, in their order. */
  lemma ActiveVariantTiers(d: Dispatcher)
    ensures d.current.StrSetting? && Lookup(d.variants, d.current.s).Some? ==> ActiveVariantName(d) == d.current.s
    ensures !(d.current.StrSetting? && Lookup(d.variants, d.current.s).Some?) ==>
              forall j :: 0 <= j < |d.variants| && d.variants[j].variant.isCurrent
                && (forall k :: 0 <= k < j ==> !d.variants[k].variant.isCurrent)
                ==> ActiveVariantName(d) == d.variants[j].name
    ensures !(d.current.StrSetting? && Lookup(d.variants, d.current.s).Some?)
            && (forall i :: 0 <= i < |d.variants| ==> !d.variants[i].variant.isCurrent)
            ==> ActiveVariantName(d) == d.active
  {
    FirstCurrentShape(d.variants);
    if FirstCurrent(d.variants).Some? {
      var j :| 0 <= j < |d.variants| && d.variants[j].variant.isCurrent && d.variants[j].name == FirstCurrent(d.variants).value
               && forall k :: 0 <= k < j ==> !d.variants[k].variant.isCurrent;
      forall j' | 0 <= j' < |d.variants| && d.variants[j'].variant.isCurrent
                  && (forall k :: 0 <= k < j' ==> !d.variants[k].variant.isCurrent)
        ensures j' == j
      {
        assert !(j' < j) && !(j < j');
      }
    }
  }

  /** `VARIANTS[name]` failing: the `KeyError` of an `ACTIVE_VARIANT` missing from the table. */
  datatype LoadError = KeyError(key: string)

  /** `load_variant()`: the active name and its module, as a tuple. */
  function LoadVariant(d: Dispatcher): Result<(string, Variant), LoadError> {
    var name := ActiveVariantName(d);
    match Lookup(d.variants, name)
    case None => Failure(KeyError(name))
    case Some(m) => Success((name, m))
  }

  /**
   * Loading fails only when the fallback is taken and `ACTIVE_VARIANT` is not
   * a key; otherwise it returns the active name with that name's module.
   */
  lemma LoadVariantSpec(d: Dispatcher)
    requires DistinctNames(d.variants)
    ensures LoadVariant(d).Failure? <==>
              !(d.current.StrSetting? && Lookup(d.variants, d.current.s).Some?)
              && FirstCurrent(d.variants).None? && Lookup(d.variants, d.active).None?
    ensures LoadVariant(d).Success? ==>
              LoadVariant(d).value.0 == ActiveVariantName(d)
              && exists i :: 0 <= i < |d.variants| && d.variants[i] == Entry(LoadVariant(d).value.0, LoadVariant(d).value.1)
  {
    FirstCurrentShape(d.variants);
    if FirstCurrent(d.variants).Some? {
      var j :| 0 <= j < |d.variants| && d.variants[j].name == FirstCurrent(d.variants).value;
      assert Lookup(d.variants, d.variants[j].name).Some?;
    }
  }

  /** `f"{run}:{variant_name}"`, the label `run_with_timing` prints. */
  function Label(run: string, name: string): string {
    run + ":" + name
  }

  /** A label starts with its run and a colon, and the rest is the variant's name. */
  lemma LabelParts(run: string, name: string, other: string)
    ensures StartsWith(Label(run, name), run + ":")
    ensures Label(run, name)[|run| + 1..] == name
    ensures Label(run, name) == Label(run, other) ==> name == other
  {
    assert Label(run, name)[..|run| + 1] == run + ":";
    assert Label(run, other)[|run| + 1..] == other;
  }

  /** How the run is started: timed alone, or raced by the logger with or without the stop flag. */
  datatype Plan = TimedOnly | RaceWithStop | RaceNoStop

  /** The value `hasattr` is applied to: a variant module, or the tuple `load_variant()` returns. */
  datatype Object = ModuleObject(m: Variant) | TupleObject(name: string, m: Variant)

  /** `hasattr(o, attr)` for the two attributes the entry points ask about; a tuple has neither. */
  predicate HasAttr(o: Object, attr: string) {
    match o
    case ModuleObject(m) =>
      (attr == "sensor_logger_task" && m.hasLogger) || (attr == "stop_logging" && m.hasStopLogging)
    case TupleObject(_, _) => false
  }

  /** The branch both entry points take, given what `hasattr` is applied to and the stop test. */
  function ChoosePlan(variant: Object, hasStop: bool): (p: Plan)
    ensures p != TimedOnly <==> HasAttr(variant, "sensor_logger_task")
    ensures p == RaceWithStop <==> HasAttr(variant, "sensor_logger_task") && hasStop
  {
    if HasAttr(variant, "sensor_logger_task") then
      if hasStop then RaceWithStop else RaceNoStop
    else TimedOnly
  }

  /** What `main()` does: the label, the plan, and whether it sets `variant.stop_logging = True`. */
  datatype Outcome = Outcome(runLabel: string, plan: Plan, setsStopLogging: bool)

  /** `main()` of a run's dispatcher. */
  function MainOutcome(d: Dispatcher): Result<Outcome, LoadError> {
    match LoadVariant(d)
    case Failure(e) => Failure(e)
    case Success(loaded) =>
      var variant := ModuleObject(loaded.1);
      var plan := ChoosePlan(variant, HasAttr(variant, "stop_logging"));
      Success(Outcome(Label(d.run, loaded.0), plan, plan == RaceWithStop))
  }

  /**
   * The dispatcher races the logger exactly for a variant with
   * `sensor_logger_task`, and raises the stop flag exactly when the variant
   * also has `stop_logging`.
   */
  lemma MainPlanSpec(d: Dispatcher)
    requires LoadVariant(d).Success?
    ensures var m := LoadVariant(d).value.1;
            MainOutcome(d).Success?
            && (MainOutcome(d).value.plan == TimedOnly <==> !m.hasLogger)
            && (MainOutcome(d).value.setsStopLogging <==> m.hasLogger && m.hasStopLogging)
            && MainOutcome(d).value.runLabel == Label(d.run, ActiveVariantName(d))
  {
  }

  /**
   * The generated run entry as written: `variant = load_variant()` keeps the
   * tuple, and `has_stop_logging` tests the merged globals.
   */
  function EntryPlanAsWritten(d: Dispatcher, stopInGlobals: bool): Result<Plan, LoadError> {
    match LoadVariant(d)
    case Failure(e) => Failure(e)
    case Success(loaded) => Success(ChoosePlan(TupleObject(loaded.0, loaded.1), stopInGlobals))
  }

  /** The generated run entry as evidently intended: `hasattr` applied to the module of the tuple. */
  function EntryPlan(d: Dispatcher, stopInGlobals: bool): Result<Plan, LoadError> {
    match LoadVariant(d)
    case Failure(e) => Failure(e)
    case Success(loaded) => Success(ChoosePlan(ModuleObject(loaded.1), stopInGlobals))
  }

  /** As written, the generated entry never starts a sensor logger. */
  lemma EntryNeverRaces(d: Dispatcher, stopInGlobals: bool)
    ensures EntryPlanAsWritten(d, stopInGlobals).Success? <==> LoadVariant(d).Success?
    ensures EntryPlanAsWritten(d, stopInGlobals).Success? ==> EntryPlanAsWritten(d, stopInGlobals).value == TimedOnly
  {
  }

  /**
   * The corrected entry takes the dispatcher's own branch whenever the stop
   * flag it sees agrees with the variant's `stop_logging`.
   */
  lemma EntryPlanMatchesMain(d: Dispatcher, stopInGlobals: bool)
    requires LoadVariant(d).Success?
    requires stopInGlobals == LoadVariant(d).value.1.hasStopLogging
    ensures EntryPlan(d, stopInGlobals).Success? && MainOutcome(d).Success?
    ensures EntryPlan(d, stopInGlobals).value == MainOutcome(d).value.plan
  {
  }

  /** M03_M04_ayumu_01_30.py: `IS_CURRENT = True`, a `sensor_logger_task` and a `stop_logging` flag. */
  const AYUMU := Variant(true, true, true)

  /** run06/main.py:7-13, with the two modules not part of this model as parameters. */
  function Run06(m0304: Variant, m1303: Variant): Dispatcher {
    Dispatcher("run06", NoneSetting, "M03_M04_ayumu_01_30",
               [Entry("M03_M04_ayumu_01_30", AYUMU), Entry("M03_M04", m0304), Entry("m13_m03", m1303)])
  }

  /** run05/main.py:5-7, its one variant module a parameter. */
  function Run05(m: Variant): Dispatcher {
    Dispatcher("run05", NoneSetting, "m01_m02_kanna", [Entry("m01_m02_kanna", m)])
  }

  /** run03/main.py:5-7, its one variant module a parameter. */
  function Run03(m: Variant): Dispatcher {
    Dispatcher("run03", NoneSetting, "m10_m11", [Entry("m10_m11", m)])
  }

  /**
   * run06 runs `M03_M04_ayumu_01_30` whatever the other two modules declare,
   * racing its logger and raising its stop flag; the generated entry for
   * the same table only ever runs it timed.
   */
  lemma Run06Dispatch(m0304: Variant, m1303: Variant, stopInGlobals: bool)
    ensures ActiveVariantName(Run06(m0304, m1303)) == "M03_M04_ayumu_01_30"
    ensures MainOutcome(Run06(m0304, m1303)) == Success(Outcome("run06:M03_M04_ayumu_01_30", RaceWithStop, true))
    ensures EntryPlanAsWritten(Run06(m0304, m1303), stopInGlobals) == Success(TimedOnly)
    ensures EntryPlan(Run06(m0304, m1303), true) == Success(RaceWithStop)
  {
    var d := Run06(m0304, m1303);
    assert Lookup(d.variants, "M03_M04_ayumu_01_30") == Some(AYUMU);
    assert Label("run06", "M03_M04_ayumu_01_30") == "run06:M03_M04_ayumu_01_30";
  }

  /** A one-variant table whose fallback names that variant always loads it, whatever `CURRENT_MISSION` holds. */
  lemma SingleVariant(d: Dispatcher)
    requires |d.variants| == 1 && d.variants[0].name == d.active
    ensures ActiveVariantName(d) == d.active
    ensures LoadVariant(d) == Success((d.active, d.variants[0].variant))
  {
    assert d.variants[1..] == [];
    assert FirstCurrent(d.variants[1..]) == None;
    assert FirstCurrent(d.variants) == None || FirstCurrent(d.variants) == Some(d.active);
  }

  /** run05 and run03 always run their single variant, whatever it declares. */
  lemma Run05Run03Dispatch(m: Variant)
    ensures LoadVariant(Run05(m)) == Success(("m01_m02_kanna", m))
    ensures LoadVariant(Run03(m)) == Success(("m10_m11", m))
    ensures MainOutcome(Run05(m)).Success? && MainOutcome(Run05(m)).value.runLabel == "run05:m01_m02_kanna"
    ensures MainOutcome(Run03(m)).Success? && MainOutcome(Run03(m)).value.runLabel == "run03:m10_m11"
  {
    SingleVariant(Run05(m));
    SingleVariant(Run03(m));
    assert Label("run05", "m01_m02_kanna") == "run05:m01_m02_kanna";
    assert Label("run03", "m10_m11") == "run03:m10_m11";
  }
}
