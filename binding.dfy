/**
 * `mission_binding` (build.py:99-115): once a mission's code is spliced in,
 * an object named after the mission receives each exported name as an
 * attribute, so `mission.run(...)` keeps working in the dispatcher.
 */
module Binding {
  import opened Text

  function Header(mission: string): seq<string> {
    ["# ---- mission binding ----", "class _MissionModule:", "    pass", mission + " = _MissionModule()"]
  }

  /** The four lines that copy one exported name, tolerating its absence. */
  function ExportBlock(mission: string, name: string): seq<string> {
    ["try:", "    " + mission + "." + name + " = " + name, "except NameError:", "    pass"]
  }

  function BindingLines(mission: string, exports: seq<string>): seq<string> {
    if exports == [] then Header(mission)
    else BindingLines(mission, exports[..|exports| - 1]) + ExportBlock(mission, exports[|exports| - 1])
  }

  /** `mission_binding(mission_name, exports, global_names)`; the global names are not used. */
  function MissionBinding(mission: string, exports: seq<string>, globalNames: seq<string>): string {
    JoinLines(BindingLines(mission, exports))
  }

  /**
   * The binding is the four header lines and then one four-line block per
   * export, in the order of `exports`.
   */
  lemma {:induction false} BindingLayout(mission: string, exports: seq<string>)
    ensures |BindingLines(mission, exports)| == 4 + 4 * |exports|
    ensures BindingLines(mission, exports)[..4] == Header(mission)
    ensures forall i :: 0 <= i < |exports| ==>
              BindingLines(mission, exports)[4 + 4 * i..8 + 4 * i] == ExportBlock(mission, exports[i])
    decreases |exports|
  {
    if exports != [] {
      var n := |exports| - 1;
      var front := exports[..n];
      BindingLayout(mission, front);
      var lines := BindingLines(mission, exports);
      var prev := BindingLines(mission, front);
      assert lines == prev + ExportBlock(mission, exports[n]);
      forall i | 0 <= i < |exports|
        ensures lines[4 + 4 * i..8 + 4 * i] == ExportBlock(mission, exports[i])
      {
        if i < n {
          assert lines[4 + 4 * i..8 + 4 * i] == prev[4 + 4 * i..8 + 4 * i];
          assert front[i] == exports[i];
        } else {
          assert lines[4 + 4 * i..8 + 4 * i] == ExportBlock(mission, exports[n]);
        }
      }
      assert lines[..4] == prev[..4];
    }
  }

  lemma NoBoundaryAppend(a: string, b: string)
    requires NoBoundary(a) && NoBoundary(b)
    ensures NoBoundary(a + b)
  {
    assert forall k :: 0 <= k < |a + b| ==> (a + b)[k] == if k < |a| then a[k] else b[k - |a|];
  }

  lemma BlockNoBoundary(mission: string, x: string)
    requires NoBoundary(mission) && NoBoundary(x)
    ensures forall j :: 0 <= j < 4 ==> NoBoundary(ExportBlock(mission, x)[j])
  {
    NoBoundaryAppend("    ", mission);
    NoBoundaryAppend("    " + mission, ".");
    NoBoundaryAppend("    " + mission + ".", x);
    NoBoundaryAppend("    " + mission + "." + x, " = ");
    NoBoundaryAppend("    " + mission + "." + x + " = ", x);
    assert NoBoundary("except NameError:");
  }

  lemma HeaderNoBoundary(mission: string)
    requires NoBoundary(mission)
    ensures forall j :: 0 <= j < |Header(mission)| ==> NoBoundary(Header(mission)[j])
  {
    NoBoundaryAppend(mission, " = _MissionModule()");
    assert NoBoundary("# ---- mission binding ----");
    assert NoBoundary("class _MissionModule:");
  }

  lemma LinesNoBoundaryAppend(a: seq<string>, b: seq<string>)
    requires forall j :: 0 <= j < |a| ==> NoBoundary(a[j])
    requires forall j :: 0 <= j < |b| ==> NoBoundary(b[j])
    ensures forall j :: 0 <= j < |a + b| ==> NoBoundary((a + b)[j])
  {
    forall j | 0 <= j < |a + b|
      ensures NoBoundary((a + b)[j])
    {
      if j < |a| {
        assert (a + b)[j] == a[j];
      } else {
        assert (a + b)[j] == b[j - |a|];
      }
    }
  }

  /** Every binding line is free of line breaks when the names are. */
  lemma {:induction false} BindingLinesNoBoundary(mission: string, exports: seq<string>)
    requires NoBoundary(mission)
    requires forall i :: 0 <= i < |exports| ==> NoBoundary(exports[i])
    ensures forall j :: 0 <= j < |BindingLines(mission, exports)| ==> NoBoundary(BindingLines(mission, exports)[j])
    decreases |exports|
  {
    if exports == [] {
      HeaderNoBoundary(mission);
    } else {
      var n := |exports| - 1;
      var front := exports[..n];
      assert forall i :: 0 <= i < |front| ==> NoBoundary(front[i]) by {
        assert forall i :: 0 <= i < |front| ==> front[i] == exports[i];
      }
      BindingLinesNoBoundary(mission, front);
      BlockNoBoundary(mission, exports[n]);
      LinesNoBoundaryAppend(BindingLines(mission, front), ExportBlock(mission, exports[n]));
    }
  }

  /**
   * The binding text splits back into exactly its `4 + 4·|exports|` lines:
   * what `indent_text` then shifts line by line.
   */
  lemma BindingTextLines(mission: string, exports: seq<string>, globalNames: seq<string>)
    requires NoBoundary(mission)
    requires forall i :: 0 <= i < |exports| ==> NoBoundary(exports[i])
    ensures SplitLines(MissionBinding(mission, exports, globalNames)) == BindingLines(mission, exports)
    ensures |SplitLines(MissionBinding(mission, exports, globalNames))| == 4 + 4 * |exports|
  {
    var lines := BindingLines(mission, exports);
    BindingLayout(mission, exports);
    BindingLinesNoBoundary(mission, exports);
    if exports == [] {
      assert lines[3] == mission + " = _MissionModule()";
    } else {
      var k := |exports| - 1;
      assert lines[4 + 4 * k..8 + 4 * k] == ExportBlock(mission, exports[k]);
      assert lines[|lines| - 1] == "    pass";
    }
    SplitJoinLines(lines);
  }
}
