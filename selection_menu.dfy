/**
 * The run-selection loop of the generated menu program (the runtime text
 * `build_multi` appends, build.py:340-363 and 405-455): the selection kept
 * in `[RUN_MIN, RUN_MAX]`, LEFT and RIGHT wrapping at both ends, a touch
 * launching the selected run, and the last selection persisted in one byte
 * of hub storage. Buttons and the touch sensor are a finite sequence of
 * polls; the hub's storage is a field.
 */
module SelectionMenu {
  import opened Results
  import opened Hub
  import opened Decimal
  import Assembly

  const RUN_MIN := 1

  newtype byte = x: int | 0 <= x < 256

  /**
   * The hub's storage as seen from offset 0: `None` when the storage call
   * raises, otherwise the bytes a one-byte read returns the first of.
   */
  type Storage = Option<seq<byte>>

  /** One pass of the loop: whether the touch sensor is pressed, and which buttons are. */
  datatype Poll = Poll(touch: bool, pressed: set<Button>)

  /** `_read_last_selection()`: the stored byte when it is a valid selection. */
  function ReadSelection(storage: Storage, runMax: int): (r: Option<int>)
    ensures r.Some? <==> storage.Some? && |storage.value| > 0 && RUN_MIN <= storage.value[0] as int <= runMax
    ensures r.Some? ==> r.value == storage.value[0] as int
  {
    match storage
    case None => None
    case Some(data) =>
      if data == [] then None
      else
        var value := data[0] as int;
        if value == 0 then None
        else if RUN_MIN <= value <= runMax then Some(value)
        else None
  }

  /**
   * `_write_last_selection(value)`: a value outside `[RUN_MIN, RUN_MAX]` is
   * ignored; `bytes([value])` rejects a value above 255, and a failing
   * storage call is swallowed.
   */
  function WriteStorage(storage: Storage, value: int, runMax: int): Storage {
    if !(RUN_MIN <= value <= runMax) || value > 255 then storage
    else
      match storage
      case None => None
      case Some(data) => Some([value as byte] + (if data == [] then [] else data[1..]))
  }

  /** `_read_last_selection() or RUN_MIN`. */
  function InitialSelection(storage: Storage, runMax: int): int {
    match ReadSelection(storage, runMax)
    case None => RUN_MIN
    case Some(v) => v
  }

  /** LEFT: one down, from `RUN_MIN` round to `RUN_MAX`. */
  function Prev(selected: int, runMax: int): int {
    if selected - 1 < RUN_MIN then runMax else selected - 1
  }

  /** RIGHT: one up, from `RUN_MAX` round to `RUN_MIN`. */
  function Next(selected: int, runMax: int): int {
    if selected + 1 > runMax then RUN_MIN else selected + 1
  }

  /** `RUNNERS.get(str(selected))` finds a factory: the selections the table has keys for. */
  predicate HasRunner(selected: int, runMax: int) {
    RUN_MIN <= selected <= runMax
  }

  /** What the loop has done so far: the selection, the storage, what it showed and launched. */
  datatype MenuState = MenuState(selected: int, storage: Storage, shown: seq<string>, launched: seq<int>)

  /**
   * One pass of `select_loop`: show the selection; on a touch persist and
   * launch it; then LEFT, or else RIGHT, moves and persists the selection.
   */
  function PollStep(s: MenuState, p: Poll, runMax: int): MenuState {
    var shown := s.shown + [IntToString(s.selected)];
    var afterTouch :=
      if p.touch then
        MenuState(s.selected, WriteStorage(s.storage, s.selected, runMax), shown,
                  s.launched + (if HasRunner(s.selected, runMax) then [s.selected] else []))
      else MenuState(s.selected, s.storage, shown, s.launched);
    if Left in p.pressed then
      var v := Prev(afterTouch.selected, runMax);
      afterTouch.(selected := v, storage := WriteStorage(afterTouch.storage, v, runMax))
    else if Right in p.pressed then
      var v := Next(afterTouch.selected, runMax);
      afterTouch.(selected := v, storage := WriteStorage(afterTouch.storage, v, runMax))
    else afterTouch
  }

  /** The loop after the given polls. */
  function RunPolls(s: MenuState, polls: seq<Poll>, runMax: int): MenuState {
    if polls == [] then s else PollStep(RunPolls(s, polls[..|polls| - 1], runMax), polls[|polls| - 1], runMax)
  }

  /** `str(int(selected))`, with a leading `-` for a negative value. */
  function IntToString(i: int): string {
    if i < 0 then "-" + NatToString(-i) else NatToString(i)
  }

  /** The selection and the table of a generated menu program, and its hub's storage. */
  class Menu {
    const runMax: int
    var selected: int
    var storage: Storage
    var shown: seq<string>
    var launched: seq<int>

    function State(): MenuState
      reads this
    {
      MenuState(selected, storage, shown, launched)
    }

    /** The start of `select_loop`: `selected = _read_last_selection() or RUN_MIN`. */
    constructor (runMax: int, storage: Storage)
      requires runMax >= RUN_MIN
      ensures this.runMax == runMax && this.storage == storage
      ensures selected == InitialSelection(storage, runMax)
      ensures shown == [] && launched == []
    {
      this.runMax := runMax;
      this.storage := storage;
      var last := ReadSelection(storage, runMax);
      if last.Some? {
        selected := last.value;
      } else {
        selected := RUN_MIN;
      }
      shown := [];
      launched := [];
    }

    /** `_read_last_selection()`. */
    method ReadLastSelection() returns (r: Option<int>)
      ensures r == ReadSelection(storage, runMax)
    {
      if storage.None? {
        return None;
      }
      var data := storage.value;
      if |data| == 0 {
        return None;
      }
      var value := data[0] as int;
      if value == 0 {
        return None;
      }
      if RUN_MIN <= value <= runMax {
        return Some(value);
      }
      return None;
    }

    /** `_write_last_selection(value)`. */
    method WriteLastSelection(value: int)
      modifies this
      ensures storage == WriteStorage(old(storage), value, runMax)
      ensures selected == old(selected) && shown == old(shown) && launched == old(launched)
    {
      if !(RUN_MIN <= value <= runMax) {
        return;
      }
      if value > 255 || storage.None? {
        return;
      }
      var data := storage.value;
      storage := Some([value as byte] + (if data == [] then [] else data[1..]));
    }

    /** One pass of the `while True` loop of `select_loop`. */
    method PollOnce(p: Poll)
      modifies this
      ensures State() == PollStep(old(State()), p, runMax)
    {
      shown := shown + [IntToString(selected)];
      if p.touch {
        WriteLastSelection(selected);
        if HasRunner(selected, runMax) {
          launched := launched + [selected];
        }
      }
      if Left in p.pressed {
        selected := selected - 1;
        if selected < RUN_MIN {
          selected := runMax;
        }
        WriteLastSelection(selected);
      } else if Right in p.pressed {
        selected := selected + 1;
        if selected > runMax {
          selected := RUN_MIN;
        }
        WriteLastSelection(selected);
      }
    }

    /** `select_loop()` for as long as the polls last. */
    method SelectLoop(polls: seq<Poll>)
      modifies this
      ensures State() == RunPolls(old(State()), polls, runMax)
    {
      var i := 0;
      while i < |polls|
        invariant 0 <= i <= |polls|
        invariant State() == RunPolls(old(State()), polls[..i], runMax)
      {
        assert polls[..i + 1][..i] == polls[..i];
        PollOnce(polls[i]);
        i := i + 1;
      }
      assert polls[..i] == polls;
    }
  }

  /** The loop starts on a valid selection, whatever the storage holds. */
  lemma InitialInRange(storage: Storage, runMax: int)
    requires runMax >= RUN_MIN
    ensures RUN_MIN <= InitialSelection(storage, runMax) <= runMax
    ensures ReadSelection(storage, runMax).None? ==> InitialSelection(storage, runMax) == RUN_MIN
  {
  }

  /** A valid selection written to working storage reads back as itself. */
  lemma ReadAfterWrite(storage: Storage, value: int, runMax: int)
    requires storage.Some?
    requires RUN_MIN <= value <= runMax && value <= 255
    ensures ReadSelection(WriteStorage(storage, value, runMax), runMax) == Some(value)
  {
  }

  /** An out-of-range value leaves the storage as it was. */
  lemma WriteOutOfRange(storage: Storage, value: int, runMax: int)
    requires !(RUN_MIN <= value <= runMax)
    ensures WriteStorage(storage, value, runMax) == storage
  {
  }

  /** A zero byte means "no selection", whatever `RUN_MAX` is. */
  lemma ZeroIsNoSelection(data: seq<byte>, runMax: int)
    requires data != [] && data[0] == 0
    ensures ReadSelection(Some(data), runMax) == None
  {
  }

  /** LEFT and RIGHT stay in `[RUN_MIN, RUN_MAX]` and undo each other. */
  lemma PrevNextInverse(selected: int, runMax: int)
    requires RUN_MIN <= selected <= runMax
    ensures RUN_MIN <= Prev(selected, runMax) <= runMax
    ensures RUN_MIN <= Next(selected, runMax) <= runMax
    ensures Next(Prev(selected, runMax), runMax) == selected
    ensures Prev(Next(selected, runMax), runMax) == selected
  {
  }

  /** RIGHT pressed k times from `selected`. */
  function NextTimes(selected: int, k: nat, runMax: int): int {
    if k == 0 then selected else Next(NextTimes(selected, k - 1, runMax), runMax)
  }

  lemma {:induction false} NextTimesAdd(selected: int, a: nat, b: nat, runMax: int)
    ensures NextTimes(selected, a + b, runMax) == NextTimes(NextTimes(selected, a, runMax), b, runMax)
  {
    if b > 0 {
      NextTimesAdd(selected, a, b - 1, runMax);
    }
  }

  /** Below `RUN_MAX`, k presses of RIGHT add k. */
  lemma {:induction false} NextTimesUp(selected: int, k: nat, runMax: int)
    requires RUN_MIN <= selected && selected + k <= runMax
    ensures NextTimes(selected, k, runMax) == selected + k
  {
    if k > 0 {
      NextTimesUp(selected, k - 1, runMax);
    }
  }

  /** After `RUN_MAX` presses of RIGHT the selection is back where it started. */
  lemma FullCycle(selected: int, runMax: int)
    requires RUN_MIN <= selected <= runMax
    ensures NextTimes(selected, runMax as nat, runMax) == selected
  {
    var up := runMax - selected;
    NextTimesUp(selected, up, runMax);
    NextTimesAdd(selected, up, 1, runMax);
    assert NextTimes(selected, up + 1, runMax) == RUN_MIN;
    NextTimesUp(RUN_MIN, selected - 1, runMax);
    NextTimesAdd(selected, up + 1, selected - 1, runMax);
  }

  /** The invariant of the loop: the selection stays valid and every launched run has a factory. */
  predicate Good(s: MenuState, runMax: int) {
    RUN_MIN <= s.selected <= runMax
    && (forall i :: 0 <= i < |s.launched| ==> RUN_MIN <= s.launched[i] <= runMax)
    && (forall i :: 0 <= i < |s.shown| ==> exists v :: RUN_MIN <= v <= runMax && s.shown[i] == NatToString(v))
  }

  /**
   * One pass keeps the invariant, launches exactly the selection shown when
   * the sensor is touched, and LEFT wins over RIGHT.
   */
  lemma PollStepGood(s: MenuState, p: Poll, runMax: int)
    requires Good(s, runMax)
    ensures Good(PollStep(s, p, runMax), runMax)
    ensures PollStep(s, p, runMax).launched == s.launched + (if p.touch then [s.selected] else [])
    ensures PollStep(s, p, runMax).shown == s.shown + [IntToString(s.selected)]
    ensures PollStep(s, p, runMax).selected ==
              if Left in p.pressed then Prev(s.selected, runMax)
              else if Right in p.pressed then Next(s.selected, runMax)
              else s.selected
  {
    var t := PollStep(s, p, runMax);
    assert t.shown[|s.shown|] == NatToString(s.selected);
    assert forall i :: 0 <= i < |s.shown| ==> t.shown[i] == s.shown[i];
  }

  /** The loop keeps its invariant over any polls. */
  lemma {:induction false} RunPollsGood(s: MenuState, polls: seq<Poll>, runMax: int)
    requires Good(s, runMax)
    ensures Good(RunPolls(s, polls, runMax), runMax)
    ensures |RunPolls(s, polls, runMax).shown| == |s.shown| + |polls|
  {
    if polls != [] {
      RunPollsGood(s, polls[..|polls| - 1], runMax);
      PollStepGood(RunPolls(s, polls[..|polls| - 1], runMax), polls[|polls| - 1], runMax);
    }
  }

  /**
   * Whenever the last pass touched or moved, the storage reads back the
   * selection the loop is on (given working storage and at most 255 runs).
   */
  lemma LastSelectionPersisted(s: MenuState, p: Poll, runMax: int)
    requires Good(s, runMax) && s.storage.Some? && runMax <= 255
    requires p.touch || Left in p.pressed || Right in p.pressed
    ensures ReadSelection(PollStep(s, p, runMax).storage, runMax) == Some(PollStep(s, p, runMax).selected)
  {
    PrevNextInverse(s.selected, runMax);
  }

  /** With more than 255 runs, selections above 255 are never persisted. */
  lemma LargeSelectionNotPersisted(storage: Storage, value: int, runMax: int)
    requires 255 < value <= runMax
    ensures WriteStorage(storage, value, runMax) == storage
  {
  }

  /**
   * For a menu built from `dirs`, every selection shown is a key of the
   * generated `RUNNERS` table, and every launched selection runs the
   * factory of that directory.
   */
  lemma ShownAreRunnerKeys(dirs: seq<Assembly.RunDir>, s: MenuState, polls: seq<Poll>)
    requires dirs != []
    requires Good(s, |dirs|)
    ensures var t := RunPolls(s, polls, |dirs|);
            (forall i :: 0 <= i < |t.shown| ==> t.shown[i] in Assembly.Runners(dirs))
            && (forall i :: 0 <= i < |t.launched| ==> IntToString(t.launched[i]) in Assembly.Runners(dirs))
  {
    var t := RunPolls(s, polls, |dirs|);
    RunPollsGood(s, polls, |dirs|);
    forall i | 0 <= i < |t.shown|
      ensures t.shown[i] in Assembly.Runners(dirs)
    {
      var v :| RUN_MIN <= v <= |dirs| && t.shown[i] == NatToString(v);
      Assembly.RunnersLookup(dirs, v);
    }
    forall i | 0 <= i < |t.launched|
      ensures IntToString(t.launched[i]) in Assembly.Runners(dirs)
    {
      Assembly.RunnersLookup(dirs, t.launched[i]);
    }
  }

  /** A fresh menu starts in the invariant. */
  lemma InitialGood(storage: Storage, runMax: int)
    requires runMax >= RUN_MIN
    ensures Good(MenuState(InitialSelection(storage, runMax), storage, [], []), runMax)
  {
    InitialInRange(storage, runMax);
  }
}
