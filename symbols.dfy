/**
 * `collect_exports` and `collect_global_names` (build.py:63-87) over an
 * abstract parse tree. Python's `ast.parse` is not modelled: it is the
 * parameter `parse`, which gives a tree or a syntax error.
 */
module Symbols {
  import opened Results
  import opened Text
  import opened Order

  /** An assignment target: a bare name, or anything else (tuple, attribute, subscript, starred). */
  datatype Target = NameTarget(id: string) | OtherTarget

  /**
   * A statement, as far as the two collectors look at it. `Compound` stands
   * for every other statement with nested statements (if, while, for, try,
   * with, match): all of its bodies, in order.
   */
  datatype Stmt =
    | FunctionDef(name: string, body: seq<Stmt>)
    | AsyncFunctionDef(name: string, body: seq<Stmt>)
    | ClassDef(name: string, body: seq<Stmt>)
    | Assign(targets: seq<Target>)
    | AnnAssign(target: Target)
    | Global(names: seq<string>)
    | Compound(body: seq<Stmt>)
    | OtherStmt

  /** What `ast.parse` gives: a module, or a `SyntaxError`. */
  datatype Parsed = Module(body: seq<Stmt>) | SyntaxError

  /** The names one top-level statement defines. */
  function StmtNames(s: Stmt): set<string> {
    match s
    case FunctionDef(name, _) => {name}
    case AsyncFunctionDef(name, _) => {name}
    case ClassDef(name, _) => {name}
    case Assign(targets) => set i | 0 <= i < |targets| && targets[i].NameTarget? :: targets[i].id
    case AnnAssign(target) => if target.NameTarget? then {target.id} else {}
    case _ => {}
  }

  /** The names the top-level statements define (nested definitions are not looked at). */
  function TopLevelNames(body: seq<Stmt>): set<string> {
    if body == [] then {} else TopLevelNames(body[..|body| - 1]) + StmtNames(body[|body| - 1])
  }

  predicate IsPrivate(name: string) {
    StartsWith(name, "_")
  }

  /** The exported names: the top-level names that do not start with `_`. */
  function ExportSet(body: seq<Stmt>): set<string> {
    set n | n in TopLevelNames(body) && !IsPrivate(n)
  }

  /** `collect_exports(source)`; `None` is the syntax error `ast.parse` raises. */
  method CollectExports(source: string, parse: string -> Parsed) returns (r: Option<seq<string>>)
    ensures parse(source).SyntaxError? <==> r.None?
    ensures r.Some? ==> StrictlySorted(r.value)
    ensures r.Some? ==> forall n :: n in r.value <==> n in ExportSet(parse(source).body)
    ensures r.Some? ==> r.value == SortedNames(ExportSet(parse(source).body))
  {
    var tree := parse(source);
    if tree.SyntaxError? {
      return None;
    }
    var names: set<string> := {};
    var i := 0;
    while i < |tree.body|
      invariant 0 <= i <= |tree.body|
      invariant names == TopLevelNames(tree.body[..i])
    {
      assert tree.body[..i + 1][..i] == tree.body[..i];
      var node := tree.body[i];
      match node {
        case FunctionDef(name, _) => names := names + {name};
        case AsyncFunctionDef(name, _) => names := names + {name};
        case ClassDef(name, _) => names := names + {name};
        case Assign(targets) =>
          var j := 0;
          ghost var before := names;
          while j < |targets|
            invariant 0 <= j <= |targets|
            invariant names == before + set k | 0 <= k < j && targets[k].NameTarget? :: targets[k].id
          {
            if targets[j].NameTarget? {
              names := names + {targets[j].id};
            }
            j := j + 1;
          }
        case AnnAssign(target) =>
          if target.NameTarget? {
            names := names + {target.id};
          }
        case _ =>
      }
      i := i + 1;
    }
    assert tree.body[..i] == tree.body;
    assert names == TopLevelNames(tree.body);
    var exported := set n | n in names && !IsPrivate(n);
    var sorted := SortNames(exported);
    return Some(sorted);
  }

  /** The size of a tree, which the walk below decreases. */
  function Size(s: Stmt): nat {
    match s
    case FunctionDef(_, body) => 1 + SizeAll(body)
    case AsyncFunctionDef(_, body) => 1 + SizeAll(body)
    case ClassDef(_, body) => 1 + SizeAll(body)
    case Compound(body) => 1 + SizeAll(body)
    case _ => 1
  }

  function SizeAll(ss: seq<Stmt>): nat {
    if ss == [] then 0 else Size(ss[0]) + SizeAll(ss[1..])
  }

  /** The statements directly nested in `s`. */
  function Children(s: Stmt): (c: seq<Stmt>)
    ensures SizeAll(c) < Size(s)
  {
    match s
    case FunctionDef(_, body) => body
    case AsyncFunctionDef(_, body) => body
    case ClassDef(_, body) => body
    case Compound(body) => body
    case _ => []
  }

  /** The names of the `global` statements in `s`, at any depth. */
  function GlobalsOf(s: Stmt): set<string>
    decreases Size(s), 0
  {
    (if s.Global? then set i | 0 <= i < |s.names| :: s.names[i] else {})
    + GlobalsOfAll(Children(s))
  }

  function GlobalsOfAll(ss: seq<Stmt>): set<string>
    decreases SizeAll(ss), 1
  {
    if ss == [] then {} else GlobalsOf(ss[0]) + GlobalsOfAll(ss[1..])
  }

  lemma {:induction false} SizeAllAppend(a: seq<Stmt>, b: seq<Stmt>)
    ensures SizeAll(a + b) == SizeAll(a) + SizeAll(b)
  {
    if a == [] {
      assert a + b == b;
    } else {
      assert (a + b)[1..] == a[1..] + b;
      SizeAllAppend(a[1..], b);
    }
  }

  lemma {:induction false} GlobalsOfAllAppend(a: seq<Stmt>, b: seq<Stmt>)
    ensures GlobalsOfAll(a + b) == GlobalsOfAll(a) + GlobalsOfAll(b)
    decreases |a|
  {
    if a == [] {
      assert a + b == b;
    } else {
      assert (a + b)[1..] == a[1..] + b;
      GlobalsOfAllAppend(a[1..], b);
    }
  }

  /**
   * `collect_global_names(source)`: an `ast.walk`-style breadth-first walk
   * over every node, gathering the names of each `global` statement.
   */
  method CollectGlobalNames(source: string, parse: string -> Parsed) returns (r: Option<seq<string>>)
    ensures parse(source).SyntaxError? <==> r.None?
    ensures r.Some? ==> StrictlySorted(r.value)
    ensures r.Some? ==> forall n :: n in r.value <==> n in GlobalsOfAll(parse(source).body)
    ensures r.Some? ==> r.value == SortedNames(GlobalsOfAll(parse(source).body))
  {
    var tree := parse(source);
    if tree.SyntaxError? {
      return None;
    }
    var names: set<string> := {};
    var todo := tree.body;
    while todo != []
      invariant names + GlobalsOfAll(todo) == GlobalsOfAll(tree.body)
      decreases SizeAll(todo)
    {
      var node := todo[0];
      if node.Global? {
        names := names + set i | 0 <= i < |node.names| :: node.names[i];
      }
      GlobalsOfAllAppend(todo[1..], Children(node));
      SizeAllAppend(todo[1..], Children(node));
      todo := todo[1..] + Children(node);
    }
    var sorted := SortNames(names);
    return Some(sorted);
  }

  lemma {:induction false} TopLevelNamesCons(s: Stmt, rest: seq<Stmt>)
    ensures TopLevelNames([s] + rest) == StmtNames(s) + TopLevelNames(rest)
    decreases |rest|
  {
    if rest == [] {
      assert ([s] + rest)[..0] == [];
    } else {
      var n := |rest| - 1;
      assert ([s] + rest)[..n + 1] == [s] + rest[..n];
      TopLevelNamesCons(s, rest[..n]);
    }
  }

  /**
   * The top level of run01/m08_m07_m06_m05.py once its guard block and setup
   * import are gone: a flag, three coroutines, and `global stop_logging`
   * inside two of them.
   */
  function Run01Mission(): seq<Stmt> {
    [OtherStmt, Assign([NameTarget("stop_logging")]), Run01Run(), Run01Task(), Run01Main()]
  }

  /** `async def run(...)`. */
  function Run01Run(): Stmt {
    AsyncFunctionDef("run", [OtherStmt])
  }

  /**
   * `async def sensor_logger_task(...)`, its loop a compound statement. Here and
   * in the other run01 functions, each run of statements that binds no name
   * (docstring, calls, `print`, `await`) is merged into one `OtherStmt`.
   */
  function Run01Task(): Stmt {
    AsyncFunctionDef("sensor_logger_task",
      [OtherStmt, Assign([NameTarget("logger_timer")]), OtherStmt, Global(["stop_logging"]), Compound([OtherStmt])])
  }

  /** `async def main(...)`. */
  function Run01Main(): Stmt {
    AsyncFunctionDef("main", [Global(["stop_logging"]), OtherStmt, Assign([NameTarget("stop_logging")]), OtherStmt])
  }

  lemma Run01TopLevel()
    ensures TopLevelNames(Run01Mission()) == {"stop_logging", "run", "sensor_logger_task", "main"}
  {
    var a, b, c, d, e := OtherStmt, Assign([NameTarget("stop_logging")]), Run01Run(), Run01Task(), Run01Main();
    assert Run01Mission() == [a] + ([b] + ([c] + ([d] + ([e] + [])))) ;
    assert StmtNames(b) == {"stop_logging"} by {
      assert b.targets[0].id == "stop_logging";
    }
    TopLevelNamesCons(e, []);
    TopLevelNamesCons(d, [e] + []);
    TopLevelNamesCons(c, [d] + ([e] + []));
    TopLevelNamesCons(b, [c] + ([d] + ([e] + [])));
    TopLevelNamesCons(a, [b] + ([c] + ([d] + ([e] + []))));
  }

  lemma NotPrivate(name: string)
    requires name != [] && name[0] != '_'
    ensures !IsPrivate(name)
  {
    assert name[..1][0] != "_"[0];
  }

  lemma Run01ExportOrder()
    ensures StrictlySorted(["main", "run", "sensor_logger_task", "stop_logging"])
  {
    assert Less("main", "run") && Less("run", "sensor_logger_task");
    assert Less("sensor_logger_task", "stop_logging") by {
      assert "sensor_logger_task"[1..] == "ensor_logger_task";
      assert "stop_logging"[1..] == "top_logging";
    }
    LessTransitive("main", "run", "sensor_logger_task");
    LessTransitive("main", "sensor_logger_task", "stop_logging");
    LessTransitive("run", "sensor_logger_task", "stop_logging");
  }

  /** The names build.py:66-87 extract from run01/m08_m07_m06_m05.py. */
  lemma Run01Symbols()
    ensures SortedNames(ExportSet(Run01Mission())) == ["main", "run", "sensor_logger_task", "stop_logging"]
    ensures SortedNames(GlobalsOfAll(Run01Mission())) == ["stop_logging"]
  {
    var body := Run01Mission();
    Run01TopLevel();
    Run01ExportOrder();
    assert ExportSet(body) == TopLevelNames(body) by {
      NotPrivate("main");
      NotPrivate("run");
      NotPrivate("sensor_logger_task");
      NotPrivate("stop_logging");
    }
    StrictlySortedUnique(SortedNames(ExportSet(body)), ["main", "run", "sensor_logger_task", "stop_logging"]);
    Run01Globals();
    StrictlySortedUnique(SortedNames(GlobalsOfAll(body)), ["stop_logging"]);
  }

  lemma OneGlobal(rest: seq<Stmt>)
    requires GlobalsOfAll(rest) <= {"stop_logging"}
    ensures GlobalsOfAll([Global(["stop_logging"])] + rest) == {"stop_logging"}
  {
    var g := Global(["stop_logging"]);
    assert ([g] + rest)[1..] == rest;
    assert GlobalsOf(g) == {"stop_logging"} by {
      assert g.names[0] == "stop_logging";
    }
  }

  /** Statements without nested statements or `global` contribute no global names. */
  lemma {:induction false} Flat(ss: seq<Stmt>)
    requires forall i :: 0 <= i < |ss| ==> ss[i].OtherStmt? || ss[i].Assign? || ss[i].AnnAssign?
    ensures GlobalsOfAll(ss) == {}
    decreases |ss|
  {
    if ss != [] {
      Flat(ss[1..]);
    }
  }

  lemma Run01TaskParts()
    ensures GlobalsOf(OtherStmt) == {} && GlobalsOf(Assign([NameTarget("logger_timer")])) == {}
    ensures GlobalsOf(Global(["stop_logging"])) == {"stop_logging"}
    ensures GlobalsOf(Compound([OtherStmt])) == {}
  {
    assert Children(OtherStmt) == [] && Children(Assign([NameTarget("logger_timer")])) == [];
    assert Global(["stop_logging"]).names[0] == "stop_logging";
    Flat([OtherStmt]);
  }

  lemma Run01TaskGlobals()
    ensures GlobalsOf(Run01Task()) == {"stop_logging"}
  {
    var l1, l2 := OtherStmt, Assign([NameTarget("logger_timer")]);
    var g, loop := Global(["stop_logging"]), Compound([OtherStmt]);
    assert Children(Run01Task()) == [l1, l2, l1, g, loop];
    GlobalsOfFive(l1, l2, l1, g, loop);
    Run01TaskParts();
  }

  lemma Run01MainGlobals()
    ensures GlobalsOf(Run01Main()) == {"stop_logging"}
  {
    var main := Run01Main().body;
    Flat(main[1..]);
    OneGlobal(main[1..]);
    assert main == [main[0]] + main[1..];
    assert Children(Run01Main()) == main;
  }

  lemma GlobalsOfAllCons(head: Stmt, rest: seq<Stmt>)
    ensures GlobalsOfAll([head] + rest) == GlobalsOf(head) + GlobalsOfAll(rest)
  {
    assert ([head] + rest)[1..] == rest;
  }

  lemma GlobalsOfFive(a: Stmt, b: Stmt, c: Stmt, d: Stmt, e: Stmt)
    ensures GlobalsOfAll([a, b, c, d, e]) == GlobalsOf(a) + GlobalsOf(b) + GlobalsOf(c) + GlobalsOf(d) + GlobalsOf(e)
  {
    assert [a, b, c, d, e] == [a] + ([b] + ([c] + ([d] + ([e] + []))));
    GlobalsOfAllCons(e, []);
    GlobalsOfAllCons(d, [e] + []);
    GlobalsOfAllCons(c, [d] + ([e] + []));
    GlobalsOfAllCons(b, [c] + ([d] + ([e] + [])));
    GlobalsOfAllCons(a, [b] + ([c] + ([d] + ([e] + []))));
  }

  lemma Run01FlatGlobals()
    ensures GlobalsOf(OtherStmt) == {} && GlobalsOf(Assign([NameTarget("stop_logging")])) == {}
    ensures GlobalsOf(Run01Run()) == {}
  {
    assert Children(OtherStmt) == [];
    assert Children(Assign([NameTarget("stop_logging")])) == [];
    Flat(Run01Run().body);
  }

  lemma Run01Globals()
    ensures GlobalsOfAll(Run01Mission()) == {"stop_logging"}
  {
    GlobalsOfFive(OtherStmt, Assign([NameTarget("stop_logging")]), Run01Run(), Run01Task(), Run01Main());
    Run01FlatGlobals();
    Run01TaskGlobals();
    Run01MainGlobals();
  }
}
