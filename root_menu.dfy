/**
 * The program menu of the root entry point (main.py:39-68): a `program_id`
 * over the `PROGRAMS` table that RIGHT and LEFT move round, the number it
 * shows, and the run directory a press of the force sensor starts. Buttons
 * and the sensor are a finite sequence of polls; the launch itself
 * (`load_and_run`) is recorded by the directory it is given.
 */
module RootMenu {
  import opened Results
  import opened Hub

  /** One entry of `PROGRAMS`: its run directory and its optional `display` number. */
  datatype Program = Program(dir: string, display: Option<int>)

  /** One pass of the loop: the pressed buttons and the force the sensor reads, in newtons. */
  datatype Poll = Poll(pressed: set<Button>, force: real)

  /** main.py:15-22. */
  const PROGRAMS: seq<Program> := [
    Program("run01", Some(1)),
    Program("run02", Some(2)),
    Program("run03", Some(3)),
    Program("run04", Some(4)),
    Program("run05", Some(5)),
    Program("run06", Some(6))
  ]

  /** `current.get("display", program_id)`. */
  function DisplayNumber(p: Program, id: int): int {
    match p.display
    case Some(n) => n
    case None => id
  }

  /** RIGHT: `(program_id + 1) % (max_program + 1)`. */
  function NextId(id: nat, count: nat): nat
    requires count > 0
  {
    (id + 1) % count
  }

  /** LEFT: `program_id - 1 if program_id > 0 else max_program`. */
  function PrevId(id: nat, count: nat): nat
    requires count > 0
  {
    if id > 0 then id - 1 else count - 1
  }

  /** What the loop has done so far: the index, the numbers shown, the directories launched. */
  datatype RootState = RootState(id: nat, shown: seq<int>, launched: seq<string>)

  /**
   * One pass: show the current entry's number; RIGHT, or else LEFT, moves
   * the index; a force of at least 0.5 N launches the entry read at the top
   * of the pass.
   */
  function RootStep(s: RootState, p: Poll, programs: seq<Program>): RootState
    requires s.id < |programs|
  {
    var current := programs[s.id];
    var shown := s.shown + [DisplayNumber(current, s.id)];
    var id :=
      if Right in p.pressed then NextId(s.id, |programs|)
      else if Left in p.pressed then PrevId(s.id, |programs|)
      else s.id;
    var launched := if p.force >= 0.5 then s.launched + [current.dir] else s.launched;
    RootState(id, shown, launched)
  }

  /** The index stays within the table. */
  lemma StepInRange(s: RootState, p: Poll, programs: seq<Program>)
    requires s.id < |programs|
    ensures RootStep(s, p, programs).id < |programs|
  {
  }

  /** The loop after the given polls. */
  function RunRoot(s: RootState, polls: seq<Poll>, programs: seq<Program>): (t: RootState)
    requires s.id < |programs|
    ensures t.id < |programs|
  {
    if polls == [] then s
    else
      var prev := RunRoot(s, polls[..|polls| - 1], programs);
      StepInRange(prev, polls[|polls| - 1], programs);
      RootStep(prev, polls[|polls| - 1], programs)
  }

  /** The `program_id` loop of `main()`, over a fixed program table. */
  class Menu {
    const programs: seq<Program>
    var programId: nat
    var shown: seq<int>
    var launched: seq<string>

    predicate Valid()
      reads this
    {
      programId < |programs|
    }

    function State(): RootState
      reads this
    {
      RootState(programId, shown, launched)
    }

    /** `program_id = 0` over `PROGRAMS`. */
    constructor (programs: seq<Program>)
      requires programs != []
      ensures Valid() && this.programs == programs
      ensures State() == RootState(0, [], [])
    {
      this.programs := programs;
      programId := 0;
      shown := [];
      launched := [];
    }

    /** One pass of the `while True` loop. */
    method Poll(p: Poll)
      requires Valid()
      modifies this
      ensures Valid()
      ensures State() == RootStep(old(State()), p, programs)
    {
      var current := programs[programId];
      var maxProgram := |programs| - 1;
      shown := shown + [DisplayNumber(current, programId)];
      if Right in p.pressed {
        programId := (programId + 1) % (maxProgram + 1);
      } else if Left in p.pressed {
        programId := if programId > 0 then programId - 1 else maxProgram;
      }
      if p.force >= 0.5 {
        launched := launched + [current.dir];
      }
    }

    /** `main()` for as long as the polls last. */
    method Run(polls: seq<Poll>)
      requires Valid()
      modifies this
      ensures Valid()
      ensures State() == RunRoot(old(State()), polls, programs)
    {
      var i := 0;
      while i < |polls|
        invariant 0 <= i <= |polls|
        invariant Valid()
        invariant State() == RunRoot(old(State()), polls[..i], programs)
      {
        assert polls[..i + 1][..i] == polls[..i];
        Poll(polls[i]);
        i := i + 1;
      }
      assert polls[..i] == polls;
    }
  }

  /** RIGHT and LEFT undo each other. */
  lemma NextPrevInverse(id: nat, count: nat)
    requires id < count
    ensures NextId(id, count) < count && PrevId(id, count) < count
    ensures PrevId(NextId(id, count), count) == id
    ensures NextId(PrevId(id, count), count) == id
  {
    if id + 1 < count {
      assert NextId(id, count) == id + 1;
    } else {
      assert NextId(id, count) == 0;
    }
    if id == 0 {
      assert NextId(count - 1, count) == 0;
    }
  }

  /**
   * A pass shows the entry it starts on and launches that entry's directory,
   * even when the same pass moves the index; RIGHT moves it on, LEFT alone
   * moves it back, and RIGHT wins when both buttons are pressed.
   */
  lemma StepSpec(s: RootState, p: Poll, programs: seq<Program>)
    requires s.id < |programs|
    ensures var t := RootStep(s, p, programs);
            t.shown == s.shown + [DisplayNumber(programs[s.id], s.id)]
            && (p.force >= 0.5 ==> t.launched == s.launched + [programs[s.id].dir])
            && (p.force < 0.5 ==> t.launched == s.launched)
            && (Right in p.pressed ==> t.id == NextId(s.id, |programs|))
            && (Right !in p.pressed && Left in p.pressed ==> t.id == PrevId(s.id, |programs|))
            && (Right !in p.pressed && Left !in p.pressed ==> t.id == s.id)
  {
  }

  /** The shipped table shows `program_id + 1` and launches `run0<program_id + 1>`. */
  lemma ShippedTable(id: nat)
    requires id < |PROGRAMS|
    ensures DisplayNumber(PROGRAMS[id], id) == id + 1
    ensures PROGRAMS[id].dir == "run0" + [('1' as int + id) as char]
  {
  }

  /** The run directories of a program table. */
  function Dirs(programs: seq<Program>): (r: set<string>)
    ensures forall j :: 0 <= j < |programs| ==> programs[j].dir in r
  {
    set p | p in programs :: p.dir
  }

  /** Every directory the menu launches is one of the table's. */
  lemma {:induction false} LaunchedFromTable(s: RootState, polls: seq<Poll>, programs: seq<Program>)
    requires s.id < |programs|
    requires forall i :: 0 <= i < |s.launched| ==> s.launched[i] in Dirs(programs)
    ensures forall i :: 0 <= i < |RunRoot(s, polls, programs).launched| ==> RunRoot(s, polls, programs).launched[i] in Dirs(programs)
  {
    if polls != [] {
      var prev := RunRoot(s, polls[..|polls| - 1], programs);
      LaunchedFromTable(s, polls[..|polls| - 1], programs);
      StepSpec(prev, polls[|polls| - 1], programs);
    }
  }
}
