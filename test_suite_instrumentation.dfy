/** docker_circuit_fragments_miner/test_suite_inspired_generator.py: a
    platform's test suite is turned into a generator of circuits by
    rewriting every Python file so that `log_quantum_circuits(locals())`
    runs after its statements. The rewrite takes the `__future__` imports
    out, lets the instrumentation transformer visit the module, puts
    `import sys`, `sys.path.append(<logger folder>)` and the import of the
    logger function on top, and finally puts
    `from __future__ import annotations` first again.

    Python's parser and unparser, the file system walk and the copies of
    non-Python files are outside the model: a file is given as the
    statements of its parsed module, or None when it does not parse. A
    statement keeps only what the rewrite looks at. */
module TestSuiteInstrumentation {
  import opened Py
  import opened PySeq

  /** The statements the transformer tells apart. `Compound` is any other
      statement with a statement list and no visitor of its own (an async
      def, an async loop, a match), visited by `generic_visit`; `Simple` is
      any statement without one. */
  datatype Stmt =
    | Import(names: seq<string>)
    | ImportFrom(moduleName: string, names: seq<string>)
    | FunctionDef(name: string, body: seq<Stmt>)
    | ClassDef(name: string, body: seq<Stmt>)
    | If(body: seq<Stmt>, orelse: seq<Stmt>)
    | For(body: seq<Stmt>, orelse: seq<Stmt>)
    | While(body: seq<Stmt>, orelse: seq<Stmt>)
    | Try(body: seq<Stmt>, handlers: seq<seq<Stmt>>, orelse: seq<Stmt>, finalbody: seq<Stmt>)
    | With(body: seq<Stmt>)
    | Compound(kind: string, body: seq<Stmt>)
    | SysPathAppend(path: string)
    | LogCall(logFunction: string)
    | Simple(text: string)

  const DefaultLogFunction := "log_quantum_circuits"
  const Future := "__future__"

  predicate IsImport(s: Stmt) { s.Import? || s.ImportFrom? }

  predicate NotImport(s: Stmt) { !IsImport(s) }

  predicate NotLogCall(s: Stmt) { !s.LogCall? }

  /** `isinstance(node, ast.ImportFrom) and node.module == '__future__'`. */
  predicate IsFuture(s: Stmt) { s.ImportFrom? && s.moduleName == Future }

  predicate NotFuture(s: Stmt) { !IsFuture(s) }

  // instrument_statements

  /** One statement followed by a log call, unless it is an import. */
  function Logged(logName: string, s: Stmt): seq<Stmt>
  {
    [s] + (if IsImport(s) then [] else [LogCall(logName)])
  }

  /** The statement list with a log call after every statement that is not
      an import. */
  function Instrument(logName: string, ss: seq<Stmt>): seq<Stmt>
  {
    if ss == [] then [] else Logged(logName, ss[0]) + Instrument(logName, ss[1..])
  }

  lemma {:induction false} InstrumentAppend(logName: string, a: seq<Stmt>, b: seq<Stmt>)
    ensures Instrument(logName, a + b) == Instrument(logName, a) + Instrument(logName, b)
  {
    if a == [] {
      assert a + b == b;
    } else {
      assert (a + b)[0] == a[0];
      assert (a + b)[1..] == a[1..] + b;
      InstrumentAppend(logName, a[1..], b);
    }
  }

  /** InstrumentationTransformer.instrument_statements. */
  method InstrumentStatements(logName: string, statements: seq<Stmt>) returns (instrumented: seq<Stmt>)
    ensures instrumented == Instrument(logName, statements)
  {
    instrumented := [];
    for i := 0 to |statements|
      invariant instrumented == Instrument(logName, statements[..i])
    {
      var stmt := statements[i];
      InstrumentAppend(logName, statements[..i], [stmt]);
      assert statements[..i + 1] == statements[..i] + [stmt];
      assert Instrument(logName, [stmt]) == Logged(logName, stmt) + [];
      instrumented := instrumented + [stmt];
      if !IsImport(stmt) {
        instrumented := instrumented + [LogCall(logName)];
      }
    }
    assert statements[..|statements|] == statements;
  }

  /** Where statement `i` lands in the instrumented list: after the
      statements before it and the log calls those got. */
  function Pos(ss: seq<Stmt>, i: nat): nat
    requires i <= |ss|
  {
    i + |Filter(ss[..i], NotImport)|
  }

  /** The instrumented list has one entry per statement plus one log call
      per statement that is not an import, and dropping the log calls the
      rewrite added gives back the statements in their order. */
  lemma {:induction false} InstrumentSpec(logName: string, ss: seq<Stmt>)
    ensures |Instrument(logName, ss)| == |ss| + |Filter(ss, NotImport)|
    ensures Filter(Instrument(logName, ss), NotLogCall) == Filter(ss, NotLogCall)
  {
    if ss != [] {
      InstrumentSpec(logName, ss[1..]);
      FilterAppend(Logged(logName, ss[0]), Instrument(logName, ss[1..]), NotLogCall);
      assert ss == [ss[0]] + ss[1..];
      FilterAppend([ss[0]], ss[1..], NotImport);
      FilterAppend([ss[0]], ss[1..], NotLogCall);
      if !IsImport(ss[0]) {
        FilterAppend([ss[0]], [LogCall(logName)], NotLogCall);
      }
    }
  }

  /** Each statement keeps its place among the others; right after a
      statement that is not an import comes a log call, and right after an
      import comes the next statement. */
  lemma {:induction false} InstrumentPositions(logName: string, ss: seq<Stmt>, i: nat)
    requires i < |ss|
    ensures Pos(ss, i) < |Instrument(logName, ss)| && Instrument(logName, ss)[Pos(ss, i)] == ss[i]
    ensures !IsImport(ss[i]) ==> Pos(ss, i) + 1 < |Instrument(logName, ss)|
                                 && Instrument(logName, ss)[Pos(ss, i) + 1] == LogCall(logName)
    ensures IsImport(ss[i]) && i + 1 < |ss| ==> Pos(ss, i + 1) == Pos(ss, i) + 1
  {
    var pre := ss[..i];
    var post := ss[i..];
    assert ss == pre + post;
    InstrumentAppend(logName, pre, post);
    InstrumentSpec(logName, pre);
    assert post[0] == ss[i];
    assert Instrument(logName, post) == Logged(logName, ss[i]) + Instrument(logName, post[1..]);
    if IsImport(ss[i]) && i + 1 < |ss| {
      assert ss[..i + 1] == pre + [ss[i]];
      FilterAppend(pre, [ss[i]], NotImport);
    }
  }

  // The visit of InstrumentationTransformer

  /** `visit(node)` for a statement: a function body is instrumented and
      then visited statement by statement; a class body is visited
      statement by statement; the bodies of `if` (and its `else`), `for`,
      `while`, `try` and `with` are instrumented but not visited further;
      a statement without a visitor has its own statements visited; any
      other statement is left as it is. */
  function Visit(logName: string, s: Stmt): Stmt
    decreases s, 1
  {
    match s
    case FunctionDef(n, b) => FunctionDef(n, Instrument(logName, VisitAll(logName, b)))
    case ClassDef(n, b) => ClassDef(n, VisitAll(logName, b))
    case If(b, o) => If(Instrument(logName, b), Instrument(logName, o))
    case For(b, o) => For(Instrument(logName, b), o)
    case While(b, o) => While(Instrument(logName, b), o)
    case Try(b, h, o, f) => Try(Instrument(logName, b), h, o, f)
    case With(b) => With(Instrument(logName, b))
    case Compound(k, b) => Compound(k, VisitAll(logName, b))
    case _ => s
  }

  /** Every statement of a list visited, in order. */
  function VisitAll(logName: string, ss: seq<Stmt>): (r: seq<Stmt>)
    ensures |r| == |ss|
    decreases ss, 0
  {
    if ss == [] then [] else [Visit(logName, ss[0])] + VisitAll(logName, ss[1..])
  }

  lemma {:induction false} VisitAllAppend(logName: string, a: seq<Stmt>, b: seq<Stmt>)
    ensures VisitAll(logName, a + b) == VisitAll(logName, a) + VisitAll(logName, b)
  {
    if a == [] {
      assert a + b == b;
    } else {
      assert (a + b)[0] == a[0];
      assert (a + b)[1..] == a[1..] + b;
      VisitAllAppend(logName, a[1..], b);
    }
  }

  /** visit_FunctionDef instruments the body first and then lets
      `generic_visit` walk it, log calls included. Visiting the log calls
      changes nothing and a visit keeps a statement an import or not, so
      that is the same body as visiting first and instrumenting after,
      which is how Visit is written. */
  lemma {:induction false} VisitInstrumentCommute(logName: string, ss: seq<Stmt>)
    ensures VisitAll(logName, Instrument(logName, ss)) == Instrument(logName, VisitAll(logName, ss))
  {
    if ss != [] {
      var s := ss[0];
      VisitInstrumentCommute(logName, ss[1..]);
      VisitAllAppend(logName, Logged(logName, s), Instrument(logName, ss[1..]));
      assert IsImport(Visit(logName, s)) == IsImport(s);
      if !IsImport(s) {
        assert VisitAll(logName, Logged(logName, s)) == [Visit(logName, s)] + VisitAll(logName, [LogCall(logName)]);
      }
      assert VisitAll(logName, Logged(logName, s)) == Logged(logName, Visit(logName, s));
    }
  }

  /** The module as visit_Module leaves it: its own statements are
      instrumented, and nothing below them is visited. */
  function VisitModuleAsWritten(logName: string, body: seq<Stmt>): seq<Stmt>
  {
    Instrument(logName, body)
  }

  /** The module as the transformer is meant to leave it ("insert log
      calls after each statement recursively"): like visit_FunctionDef,
      the body is instrumented and then visited, so the visitors of
      function, class and block statements are reached. */
  function VisitModule(logName: string, body: seq<Stmt>): seq<Stmt>
  {
    Instrument(logName, VisitAll(logName, body))
  }

  /** A test function at the top of a module keeps its body without any
      log call, since visit_Module never visits it. */
  lemma {:induction false} TopLevelFunctionUninstrumented(logName: string, name: string, stmt: string)
    ensures VisitModuleAsWritten(logName, [FunctionDef(name, [Simple(stmt)])])
            == [FunctionDef(name, [Simple(stmt)]), LogCall(logName)]
  {
    var f := FunctionDef(name, [Simple(stmt)]);
    assert [f][1..] == [];
    assert Instrument(logName, [f]) == Logged(logName, f) + Instrument(logName, []);
  }

  /** With the intended visit, the same function body gets its log call. */
  lemma {:induction false} TopLevelFunctionInstrumented(logName: string, name: string, stmt: string)
    ensures VisitModule(logName, [FunctionDef(name, [Simple(stmt)])])
            == [FunctionDef(name, [Simple(stmt), LogCall(logName)]), LogCall(logName)]
  {
    assert VisitAll(logName, [Simple(stmt)]) == [Simple(stmt)];
    assert Instrument(logName, [Simple(stmt)]) == [Simple(stmt), LogCall(logName)];
    assert VisitAll(logName, [FunctionDef(name, [Simple(stmt)])])
           == [FunctionDef(name, [Simple(stmt), LogCall(logName)])];
  }

  /** The intended visit instruments the body, then visits it; every
      function defined at the top of the module comes out with its own body
      instrumented (after its nested statements were visited) and a log
      call after it. */
  lemma {:induction false} VisitModuleSpec(logName: string, body: seq<Stmt>, i: nat)
    requires i < |body| && body[i].FunctionDef?
    ensures VisitModule(logName, body) == VisitAll(logName, Instrument(logName, body))
    ensures var r := VisitModule(logName, body);
      var p := Pos(VisitAll(logName, body), i);
      && p + 1 < |r|
      && r[p] == FunctionDef(body[i].name, Instrument(logName, VisitAll(logName, body[i].body)))
      && r[p + 1] == LogCall(logName)
  {
    VisitInstrumentCommute(logName, body);
    VisitAllAt(logName, body, i);
    InstrumentPositions(logName, VisitAll(logName, body), i);
  }

  lemma {:induction false} VisitAllAt(logName: string, ss: seq<Stmt>, i: nat)
    requires i < |ss|
    ensures VisitAll(logName, ss)[i] == Visit(logName, ss[i])
  {
    if i > 0 {
      VisitAllAt(logName, ss[1..], i - 1);
    }
  }

  // remove_from_future_prefix and add_from_future_prefix

  /** What remove_from_future_prefix leaves: it removes from the list it
      iterates over, so the statement right after a removed one slides into
      the removed one's place and is never looked at. */
  function SkipRemoved(body: seq<Stmt>): seq<Stmt>
  {
    if body == [] then []
    else if IsFuture(body[0]) then (if |body| == 1 then [] else [body[1]] + SkipRemoved(body[2..]))
    else [body[0]] + SkipRemoved(body[1..])
  }

  /** The intended removal: no `__future__` import is left. */
  function RemoveFuture(body: seq<Stmt>): seq<Stmt>
  {
    Filter(body, NotFuture)
  }

  /** Two `__future__` imports in a row: the second survives the removal
      and, once the logger imports are put on top, is no longer at the
      start of the file, where Python requires it. */
  lemma {:induction false} AdjacentFutureSurvives(a: Stmt, b: Stmt)
    requires IsFuture(a) && IsFuture(b)
    ensures SkipRemoved([a, b]) == [b]
    ensures RemoveFuture([a, b]) == []
  {
    assert [a, b][2..] == [];
    assert [a, b][1..] == [b];
    assert [b][1..] == [];
    assert Filter([b], NotFuture) == [] + Filter([], NotFuture);
    assert Filter([a, b], NotFuture) == [] + Filter([b], NotFuture);
  }

  /** No two `__future__` imports follow each other. */
  predicate NoAdjacentFuture(body: seq<Stmt>)
  {
    forall k :: 0 <= k < |body| - 1 ==> !(IsFuture(body[k]) && IsFuture(body[k + 1]))
  }

  lemma {:induction false} NoAdjacentFutureTail(body: seq<Stmt>, d: nat)
    requires d <= |body| && NoAdjacentFuture(body)
    ensures NoAdjacentFuture(body[d..])
  {
    forall k | 0 <= k < |body[d..]| - 1
      ensures !(IsFuture(body[d..][k]) && IsFuture(body[d..][k + 1]))
    {
      assert body[d..][k] == body[k + d] && body[d..][k + 1] == body[k + d + 1];
    }
  }

  /** The removal as written drops only `__future__` imports and keeps
      every other statement in order; when no two `__future__` imports are
      adjacent it removes them all, as intended. */
  lemma {:induction false} SkipRemovedSpec(body: seq<Stmt>)
    ensures Filter(SkipRemoved(body), NotFuture) == RemoveFuture(body)
    ensures NoAdjacentFuture(body) ==> SkipRemoved(body) == RemoveFuture(body)
  {
    if body != [] {
      assert body == [body[0]] + body[1..];
      FilterAppend([body[0]], body[1..], NotFuture);
      if IsFuture(body[0]) {
        if |body| > 1 {
          SkipRemovedSpec(body[2..]);
          assert body[1..] == [body[1]] + body[2..];
          FilterAppend([body[1]], body[2..], NotFuture);
          FilterAppend([body[1]], SkipRemoved(body[2..]), NotFuture);
          if NoAdjacentFuture(body) {
            NoAdjacentFutureTail(body, 2);
          }
        }
      } else {
        SkipRemovedSpec(body[1..]);
        FilterAppend([body[0]], SkipRemoved(body[1..]), NotFuture);
        if NoAdjacentFuture(body) {
          NoAdjacentFutureTail(body, 1);
        }
      }
    }
  }

  /** The intended removal leaves no `__future__` import and keeps every
      other statement in its order. */
  lemma {:induction false} RemoveFutureSpec(body: seq<Stmt>)
    ensures forall s :: s in RemoveFuture(body) <==> s in body && !IsFuture(s)
    ensures RemoveFuture(RemoveFuture(body)) == RemoveFuture(body)
  {
    FilterSpec(body, NotFuture);
    FilterIdempotent(body, NotFuture);
  }

  /** `from __future__ import annotations`. */
  const FutureAnnotations := ImportFrom(Future, ["annotations"])

  /** The three statements add_instrumentation puts on top, in order. */
  function LoggerHeader(path: string, logName: string, hiddenFile: string): seq<Stmt>
  {
    [Import(["sys"]), SysPathAppend(path), ImportFrom(hiddenFile, [logName])]
  }

  /** `nodes.remove(node)` at index `k`. */
  function Removed(nodes: seq<Stmt>, k: nat): seq<Stmt>
    requires k < |nodes|
  {
    nodes[..k] + nodes[k + 1..]
  }

  lemma {:induction false} RemovedAround(nodes: seq<Stmt>, i: nat, done: seq<Stmt>, rest: seq<Stmt>)
    requires 0 < i <= |nodes| && |rest| >= 2
    requires nodes[..i - 1] == done && nodes[i - 1..] == [rest[0]] + [rest[1]] + rest[2..]
    ensures Removed(nodes, i - 1)[..i] == done + [rest[1]]
    ensures Removed(nodes, i - 1)[i..] == rest[2..]
  {
    var n := Removed(nodes, i - 1);
    assert nodes[i..] == [rest[1]] + rest[2..];
    assert n == (done + [rest[1]]) + rest[2..];
  }

  /** A `__future__` import followed by a statement: the statement is
      kept and the walk goes on after it. */
  lemma {:induction false} SkipFutureStep(done: seq<Stmt>, rest: seq<Stmt>)
    requires |rest| >= 2 && IsFuture(rest[0])
    ensures done + SkipRemoved(rest) == (done + [rest[1]]) + SkipRemoved(rest[2..])
  {
    ConcatAssoc(done, [rest[1]], SkipRemoved(rest[2..]));
  }

  /** Any other statement is kept. */
  lemma {:induction false} SkipKeepStep(done: seq<Stmt>, rest: seq<Stmt>)
    requires |rest| >= 1 && !IsFuture(rest[0])
    ensures done + SkipRemoved(rest) == (done + [rest[0]]) + SkipRemoved(rest[1..])
  {
    ConcatAssoc(done, [rest[0]], SkipRemoved(rest[1..]));
  }

  /** The parsed module whose statement list the rewrite changes in
      place. */
  class ModuleTree {
    var body: seq<Stmt>

    constructor(body: seq<Stmt>)
      ensures this.body == body
    {
      this.body := body;
    }

    /** remove_from_future_prefix, as written: it walks the list by index
        the way a Python list iterator does while removing from it. */
    method RemoveFromFuturePrefix()
      modifies this
      ensures body == SkipRemoved(old(body))
    {
      var nodes := body;
      var i := 0;
      ghost var done: seq<Stmt> := [];
      ghost var original := body;
      while i < |nodes|
        invariant 0 <= i <= |nodes|
        invariant nodes[..i] == done
        invariant done + SkipRemoved(nodes[i..]) == SkipRemoved(original)
        decreases |nodes| - i
      {
        var node := nodes[i];
        ghost var rest := nodes[i..];
        assert rest[0] == node;
        i := i + 1;
        if IsFuture(node) {
          if i < |nodes| {
            assert rest[1] == nodes[i] && rest[2..] == nodes[i + 1..];
            SkipFutureStep(done, rest);
            RemovedAround(nodes, i, done, rest);
            nodes := Removed(nodes, i - 1);
            done := done + [rest[1]];
          } else {
            nodes := nodes[..i - 1];
            assert rest == [node];
            i := |nodes|;  // the iterator is past the end
          }
        } else {
          assert rest[1..] == nodes[i..];
          SkipKeepStep(done, rest);
          done := done + [node];
        }
      }
      assert nodes[i..] == [];
      assert nodes == nodes[..i];
      body := nodes;
    }

    /** The removal the rewrite needs: every `__future__` import goes. */
    method RemoveFutureImports()
      modifies this
      ensures body == RemoveFuture(old(body))
    {
      var nodes := body;
      var kept: seq<Stmt> := [];
      for i := 0 to |nodes|
        invariant kept == Filter(nodes[..i], NotFuture)
      {
        assert nodes[..i + 1] == nodes[..i] + [nodes[i]];
        FilterAppend(nodes[..i], [nodes[i]], NotFuture);
        if !IsFuture(nodes[i]) {
          kept := kept + [nodes[i]];
        }
      }
      assert nodes[..|nodes|] == nodes;
      body := kept;
    }

    /** add_instrumentation as written: the module is visited, then the
        logger header is put on top. */
    method AddInstrumentationAsWritten(path: string, logName: string, hiddenFile: string)
      modifies this
      ensures body == LoggerHeader(path, logName, hiddenFile) + VisitModuleAsWritten(logName, old(body))
    {
      var instrumented := InstrumentStatements(logName, body);
      body := instrumented;
      body := [ImportFrom(hiddenFile, [logName])] + body;
      body := [SysPathAppend(path)] + body;
      body := [Import(["sys"])] + body;
    }

    /** add_instrumentation with the intended visit of the module. */
    method AddInstrumentation(path: string, logName: string, hiddenFile: string)
      modifies this
      ensures body == LoggerHeader(path, logName, hiddenFile) + VisitModule(logName, old(body))
    {
      var instrumented := InstrumentStatements(logName, VisitAll(logName, body));
      body := instrumented;
      body := [ImportFrom(hiddenFile, [logName])] + body;
      body := [SysPathAppend(path)] + body;
      body := [Import(["sys"])] + body;
    }

    /** add_from_future_prefix: the future import goes first. */
    method AddFromFuturePrefix()
      modifies this
      ensures body == [FutureAnnotations] + old(body)
    {
      body := [FutureAnnotations] + body;
    }
  }

  lemma {:induction false} ConcatAssoc(a: seq<Stmt>, b: seq<Stmt>, c: seq<Stmt>)
    ensures a + (b + c) == (a + b) + c
  {
  }

  // instrument_file

  /** The statements instrument_file writes, as written. */
  function InstrumentedAsWritten(body: seq<Stmt>, loggerFolder: string, loggerStem: string): seq<Stmt>
  {
    [FutureAnnotations] + LoggerHeader(loggerFolder, DefaultLogFunction, loggerStem)
    + VisitModuleAsWritten(DefaultLogFunction, SkipRemoved(body))
  }

  /** The statements instrument_file is meant to write. */
  function Instrumented(body: seq<Stmt>, loggerFolder: string, loggerStem: string): seq<Stmt>
  {
    [FutureAnnotations] + LoggerHeader(loggerFolder, DefaultLogFunction, loggerStem)
    + VisitModule(DefaultLogFunction, RemoveFuture(body))
  }

  /** instrument_file on a parsed module: the future imports out, the
      instrumentation in, the future import back on top. */
  method InstrumentFile(body: seq<Stmt>, loggerFolder: string, loggerStem: string) returns (r: seq<Stmt>)
    ensures r == Instrumented(body, loggerFolder, loggerStem)
  {
    var tree := new ModuleTree(body);
    tree.RemoveFutureImports();
    tree.AddInstrumentation(loggerFolder, DefaultLogFunction, loggerStem);
    tree.AddFromFuturePrefix();
    r := tree.body;
  }

  /** instrument_file as written. */
  method InstrumentFileAsWritten(body: seq<Stmt>, loggerFolder: string, loggerStem: string) returns (r: seq<Stmt>)
    ensures r == InstrumentedAsWritten(body, loggerFolder, loggerStem)
  {
    var tree := new ModuleTree(body);
    tree.RemoveFromFuturePrefix();
    tree.AddInstrumentationAsWritten(loggerFolder, DefaultLogFunction, loggerStem);
    tree.AddFromFuturePrefix();
    r := tree.body;
  }

  /** The written file starts with the future import, then `import sys`,
      the path of the logger's folder and the import of the logger
      function; the only `__future__` import is the first statement; and
      after the header every statement of the module, future imports
      dropped, is followed by a log call unless it is an import. */
  lemma {:induction false} InstrumentedSpec(body: seq<Stmt>, loggerFolder: string, loggerStem: string)
    requires loggerStem != Future
    ensures var r := Instrumented(body, loggerFolder, loggerStem);
      && r[..4] == [FutureAnnotations, Import(["sys"]), SysPathAppend(loggerFolder),
                    ImportFrom(loggerStem, [DefaultLogFunction])]
      && (forall k :: 0 < k < |r| ==> !IsFuture(r[k]))
      && |r| == 4 + |RemoveFuture(body)| + |Filter(RemoveFuture(body), NotImport)|
  {
    var kept := RemoveFuture(body);
    var visited := VisitAll(DefaultLogFunction, kept);
    var inst := Instrument(DefaultLogFunction, visited);
    var r := Instrumented(body, loggerFolder, loggerStem);
    assert r == [FutureAnnotations] + LoggerHeader(loggerFolder, DefaultLogFunction, loggerStem) + inst;
    InstrumentedNoFuture(body);
    InstrumentSpec(DefaultLogFunction, visited);
    VisitKeepsImports(DefaultLogFunction, kept);
    forall k | 0 < k < |r| ensures !IsFuture(r[k]) {
      if k >= 4 {
        assert r[k] == inst[k - 4];
        assert inst[k - 4] in inst;
      }
    }
  }

  /** With the future imports removed first, the instrumented statements
      hold none. */
  lemma {:induction false} InstrumentedNoFuture(body: seq<Stmt>)
    ensures forall s :: s in Instrument(DefaultLogFunction, VisitAll(DefaultLogFunction, RemoveFuture(body))) ==> !IsFuture(s)
  {
    var kept := RemoveFuture(body);
    var visited := VisitAll(DefaultLogFunction, kept);
    RemoveFutureSpec(body);
    forall s | s in visited ensures !IsFuture(s) {
      var j :| 0 <= j < |visited| && visited[j] == s;
      VisitAllAt(DefaultLogFunction, kept, j);
      assert kept[j] in kept;
    }
    InstrumentKeepsFuture(DefaultLogFunction, visited);
  }

  /** Instrumenting adds only log calls. */
  lemma {:induction false} InstrumentKeepsFuture(logName: string, ss: seq<Stmt>)
    requires forall s :: s in ss ==> !IsFuture(s)
    ensures forall s :: s in Instrument(logName, ss) ==> !IsFuture(s)
  {
    if ss != [] {
      InstrumentKeepsFuture(logName, ss[1..]);
    }
  }

  /** A visit keeps the imports of a list where they were. */
  lemma {:induction false} VisitKeepsImports(logName: string, ss: seq<Stmt>)
    ensures Filter(VisitAll(logName, ss), NotImport) == VisitAll(logName, Filter(ss, NotImport))
    ensures |Filter(VisitAll(logName, ss), NotImport)| == |Filter(ss, NotImport)|
  {
    if ss != [] {
      VisitKeepsImports(logName, ss[1..]);
      assert IsImport(Visit(logName, ss[0])) == IsImport(ss[0]);
      FilterAppend([Visit(logName, ss[0])], VisitAll(logName, ss[1..]), NotImport);
      assert ss == [ss[0]] + ss[1..];
      FilterAppend([ss[0]], ss[1..], NotImport);
      assert VisitAll(logName, ss) == [Visit(logName, ss[0])] + VisitAll(logName, ss[1..]);
      if IsImport(ss[0]) {
        assert [ss[0]][1..] == [] && [Visit(logName, ss[0])][1..] == [];
        assert Filter([ss[0]], NotImport) == [] + Filter([], NotImport);
        assert Filter([Visit(logName, ss[0])], NotImport) == [] + Filter([], NotImport);
        assert Filter(ss, NotImport) == Filter(ss[1..], NotImport);
        assert Filter(VisitAll(logName, ss), NotImport) == Filter(VisitAll(logName, ss[1..]), NotImport);
      } else {
        VisitAllAppend(logName, [ss[0]], Filter(ss[1..], NotImport));
      }
    }
  }

  /** With two adjacent `__future__` imports the file as written keeps the
      second one after the logger header, while the intended file has the
      future import only on top. */
  lemma {:induction false} LateFutureAsWritten(a: Stmt, b: Stmt, loggerFolder: string, loggerStem: string)
    requires IsFuture(a) && IsFuture(b)
    ensures InstrumentedAsWritten([a, b], loggerFolder, loggerStem)[4] == b
    ensures |Instrumented([a, b], loggerFolder, loggerStem)| == 4
  {
    AdjacentFutureSurvives(a, b);
    assert Instrument(DefaultLogFunction, [b]) == [b] + Instrument(DefaultLogFunction, []);
  }

  // convert_test_suite

  /** The Python files of the suite, by path relative to the suite, each
      as its parsed module; the first that does not parse raises
      SyntaxError and ends the run. Each file is instrumented as
      instrument_file is written. */
  function ConvertAll(files: seq<(string, Option<seq<Stmt>>)>, loggerFolder: string, loggerStem: string)
    : Result<seq<(string, seq<Stmt>)>>
  {
    if files == [] then Ok([])
    else if files[0].1.None? then Err(Raised("invalid syntax"))
    else Prepend([(files[0].0, InstrumentedAsWritten(files[0].1.value, loggerFolder, loggerStem))],
                 ConvertAll(files[1..], loggerFolder, loggerStem))
  }

  /** The loop of convert_test_suite over the Python files. */
  method ConvertTestSuite(files: seq<(string, Option<seq<Stmt>>)>, loggerFolder: string, loggerStem: string)
    returns (r: Result<seq<(string, seq<Stmt>)>>)
    ensures r == ConvertAll(files, loggerFolder, loggerStem)
  {
    var written: seq<(string, seq<Stmt>)> := [];
    PrependEmpty(ConvertAll(files, loggerFolder, loggerStem));
    for i := 0 to |files|
      invariant ConvertAll(files, loggerFolder, loggerStem) == Prepend(written, ConvertAll(files[i..], loggerFolder, loggerStem))
    {
      assert files[i..][0] == files[i] && files[i..][1..] == files[i + 1..];
      if files[i].1.None? {
        return Err(Raised("invalid syntax"));
      }
      var out := InstrumentFileAsWritten(files[i].1.value, loggerFolder, loggerStem);
      PrependPrepend(written, [(files[i].0, out)], ConvertAll(files[i + 1..], loggerFolder, loggerStem));
      written := written + [(files[i].0, out)];
    }
    assert files[|files|..] == [];
    assert written + [] == written;
    r := Ok(written);
  }

  /** A run either writes one instrumented file per Python file, at the
      same relative path, or stops at a file that does not parse. */
  lemma {:induction false} ConvertAllSpec(files: seq<(string, Option<seq<Stmt>>)>, loggerFolder: string, loggerStem: string)
    ensures var r := ConvertAll(files, loggerFolder, loggerStem);
      && (r.Ok? <==> forall i :: 0 <= i < |files| ==> files[i].1.Some?)
      && (r.Ok? ==> |r.value| == |files|
                    && forall i :: 0 <= i < |files| ==>
                         r.value[i] == (files[i].0, InstrumentedAsWritten(files[i].1.value, loggerFolder, loggerStem)))
  {
    if files != [] && files[0].1.Some? {
      ConvertAllSpec(files[1..], loggerFolder, loggerStem);
      assert forall i :: 1 <= i < |files| ==> files[i] == files[1..][i - 1];
    }
  }
}
