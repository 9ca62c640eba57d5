/** scan_functions.py and aiexchange/knowledge_base/scan_functions.py
    (whose APIVisitor is the same code): an AST visitor that lists every
    function definition of a folder's Python files with the name of the
    class it is visited in. The class name is one field, set on entering a
    class and reset to "" on leaving it, so a method defined after a nested
    class inside an outer class is listed without a class. Reading files,
    Python's parser and docstring lookup and the JSON output are outside
    the model: a file is given as its parsed tree, or None when it does not
    parse. */
module ScanFunctions {
  import opened Py
  import opened PyStr

  /** The nodes the visitor tells apart; `body` holds the child nodes in
      the order `generic_visit` visits them. */
  datatype Node =
    | ClassDef(name: string, body: seq<Node>)
    | FunctionDef(name: string, args: seq<string>, doc: string, body: seq<Node>)
    | Other(body: seq<Node>)

  datatype ApiRecord = ApiRecord(apiName: string, fullApiName: string, apiDescription: string,
                                 apiSignature: string, filePath: string)

  /** `f"{name}({', '.join(args)})"`. */
  function Signature(name: string, args: seq<string>): string
  {
    name + "(" + Join(", ", args) + ")"
  }

  /** The record of one function definition visited with class `cls`. */
  function RecordOf(n: Node, cls: string, file: string): ApiRecord
    requires n.FunctionDef?
  {
    ApiRecord(n.name, if cls != "" then cls + "." + n.name else n.name, n.doc, Signature(n.name, n.args), file)
  }

  /** What visiting a node appends, and the class name it leaves. */
  function Walk(n: Node, cls: string, file: string): (seq<ApiRecord>, string)
    decreases n, 1
  {
    match n
    case ClassDef(name, body) => (WalkAll(body, name, file).0, "")
    case FunctionDef(_, _, _, body) =>
      var rest := WalkAll(body, cls, file);
      ([RecordOf(n, cls, file)] + rest.0, rest.1)
    case Other(body) => WalkAll(body, cls, file)
  }

  /** Visiting nodes one after the other, each from the class name the
      previous one left. */
  function WalkAll(ns: seq<Node>, cls: string, file: string): (seq<ApiRecord>, string)
    decreases ns, 0
  {
    if ns == [] then ([], cls)
    else
      var first := Walk(ns[0], cls, file);
      var rest := WalkAll(ns[1..], first.1, file);
      (first.0 + rest.0, rest.1)
  }

  /** The function names of a tree, in the order the visitor meets them. */
  function DefNames(n: Node): seq<string>
    decreases n, 1
  {
    match n
    case FunctionDef(name, _, _, body) => [name] + DefNamesAll(body)
    case _ => DefNamesAll(n.body)
  }

  function DefNamesAll(ns: seq<Node>): seq<string>
    decreases ns, 0
  {
    if ns == [] then [] else DefNames(ns[0]) + DefNamesAll(ns[1..])
  }

  function Names(rs: seq<ApiRecord>): seq<string>
  {
    seq(|rs|, i requires 0 <= i < |rs| => rs[i].apiName)
  }

  lemma {:induction false} NamesAppend(a: seq<ApiRecord>, b: seq<ApiRecord>)
    ensures Names(a + b) == Names(a) + Names(b)
  {
  }

  /** One record per function definition, nested ones included, in visit
      order, whatever class name the visit starts from. */
  lemma {:induction false} OneRecordPerDef(n: Node, cls: string, file: string)
    ensures Names(Walk(n, cls, file).0) == DefNames(n)
    decreases n, 1
  {
    match n
    case ClassDef(name, body) =>
      OneRecordPerDefAll(body, name, file);
    case FunctionDef(_, _, _, body) =>
      OneRecordPerDefAll(body, cls, file);
      NamesAppend([RecordOf(n, cls, file)], WalkAll(body, cls, file).0);
    case Other(body) =>
      OneRecordPerDefAll(body, cls, file);
  }

  lemma {:induction false} OneRecordPerDefAll(ns: seq<Node>, cls: string, file: string)
    ensures Names(WalkAll(ns, cls, file).0) == DefNamesAll(ns)
    decreases ns, 0
  {
    if ns != [] {
      var first := Walk(ns[0], cls, file);
      OneRecordPerDef(ns[0], cls, file);
      OneRecordPerDefAll(ns[1..], first.1, file);
      NamesAppend(first.0, WalkAll(ns[1..], first.1, file).0);
    }
  }

  /** Every record names its file, its signature is its name applied to
      the positional arguments, and its full name is its name, or its name
      after some non-empty class name and a dot. */
  ghost predicate WellFormed(r: ApiRecord, file: string)
  {
    && r.filePath == file
    && (r.fullApiName == r.apiName || exists c :: c != "" && r.fullApiName == c + "." + r.apiName)
    && exists args :: r.apiSignature == Signature(r.apiName, args)
  }

  lemma {:induction false} RecordsWellFormed(n: Node, cls: string, file: string)
    ensures forall i :: 0 <= i < |Walk(n, cls, file).0| ==> WellFormed(Walk(n, cls, file).0[i], file)
    decreases n, 1
  {
    match n
    case ClassDef(name, body) =>
      RecordsWellFormedAll(body, name, file);
    case FunctionDef(_, args, _, body) =>
      RecordsWellFormedAll(body, cls, file);
      assert WellFormed(RecordOf(n, cls, file), file) by {
        assert RecordOf(n, cls, file).apiSignature == Signature(n.name, args);
      }
    case Other(body) =>
      RecordsWellFormedAll(body, cls, file);
  }

  lemma {:induction false} RecordsWellFormedAll(ns: seq<Node>, cls: string, file: string)
    ensures forall i :: 0 <= i < |WalkAll(ns, cls, file).0| ==> WellFormed(WalkAll(ns, cls, file).0[i], file)
    decreases ns, 0
  {
    if ns != [] {
      var first := Walk(ns[0], cls, file);
      RecordsWellFormed(ns[0], cls, file);
      RecordsWellFormedAll(ns[1..], first.1, file);
    }
  }

  /** A visit that starts outside any class ends outside any class. */
  lemma {:induction false} StaysUnscoped(ns: seq<Node>, file: string)
    ensures WalkAll(ns, "", file).1 == ""
    decreases ns
  {
    if ns != [] {
      var first := Walk(ns[0], "", file);
      assert first.1 == "" by {
        if ns[0].FunctionDef? {
          StaysUnscoped(ns[0].body, file);
        } else if ns[0].Other? {
          StaysUnscoped(ns[0].body, file);
        }
      }
      StaysUnscoped(ns[1..], file);
    }
  }

  /** A leaf function definition adds its record and keeps the class. */
  lemma {:induction false} WalkLeafDef(n: Node, cls: string, file: string)
    requires n.FunctionDef? && n.body == []
    ensures Walk(n, cls, file) == ([RecordOf(n, cls, file)], cls)
  {
    var rest := WalkAll(n.body, cls, file);
    assert rest == ([], cls);
    var w := Walk(n, cls, file);
    assert w.0 == [RecordOf(n, cls, file)] + rest.0;
    assert w.1 == cls;
    assert [RecordOf(n, cls, file)] + [] == [RecordOf(n, cls, file)];
  }

  /** Leaving an empty class resets the class name. */
  lemma {:induction false} WalkEmptyClass(n: Node, cls: string, file: string)
    requires n.ClassDef? && n.body == []
    ensures Walk(n, cls, file) == ([], "")
  {
    assert WalkAll([], n.name, file) == ([], n.name);
  }

  /** A method right in a top-level class is listed as `Class.name`; one
      that follows a nested class in the same class is listed without
      it. */
  lemma {:induction false} ScopeResetExample(file: string)
    ensures var f := FunctionDef("f", ["self"], "", []);
      var g := FunctionDef("g", ["self"], "", []);
      var tree := [ClassDef("C", [f, ClassDef("D", []), g])];
      WalkAll(tree, "", file).0 == [RecordOf(f, "C", file), RecordOf(g, "", file)]
  {
    var f := FunctionDef("f", ["self"], "", []);
    var g := FunctionDef("g", ["self"], "", []);
    var d := ClassDef("D", []);
    var body := [f, d, g];
    WalkLeafDef(f, "C", file);
    WalkEmptyClass(d, "C", file);
    WalkLeafDef(g, "", file);
    assert body[1..] == [d, g] && body[1..][1..] == [g] && [g][1..] == [];
    assert WalkAll([g], "", file).0 == [RecordOf(g, "", file)];
    assert WalkAll([d, g], "C", file).0 == [RecordOf(g, "", file)];
    var inner := WalkAll(body, "C", file);
    assert inner.0 == [RecordOf(f, "C", file), RecordOf(g, "", file)];
    var tree := [ClassDef("C", body)];
    assert tree[1..] == [];
    assert Walk(tree[0], "", file).0 == inner.0;
    assert WalkAll([], "", file) == ([], "");
  }

  /** The records of that example read "C.f" and "g". */
  lemma {:induction false} ScopeResetNames(file: string)
    ensures RecordOf(FunctionDef("f", ["self"], "", []), "C", file) == ApiRecord("f", "C.f", "", "f(self)", file)
    ensures RecordOf(FunctionDef("g", ["self"], "", []), "", file) == ApiRecord("g", "g", "", "g(self)", file)
  {
    assert Join(", ", ["self"]) == "self";
  }

  /** APIVisitor. */
  class ApiVisitor {
    var apiData: seq<ApiRecord>
    var currentClass: string
    var filePath: string

    constructor()
      ensures apiData == [] && currentClass == ""
    {
      apiData := [];
      currentClass := "";
      filePath := "";
    }

    /** visit: dispatch on the kind of node. */
    method Visit(n: Node)
      modifies this
      ensures apiData == old(apiData) + Walk(n, old(currentClass), filePath).0
      ensures currentClass == Walk(n, old(currentClass), filePath).1 && filePath == old(filePath)
      decreases n, 1
    {
      match n
      case ClassDef(name, body) =>
        currentClass := name;
        GenericVisit(body);
        currentClass := "";
      case FunctionDef(name, args, doc, body) =>
        var fullName := if currentClass != "" then currentClass + "." + name else name;
        apiData := apiData + [ApiRecord(name, fullName, doc, Signature(name, args), filePath)];
        GenericVisit(body);
      case Other(body) =>
        GenericVisit(body);
    }

    /** generic_visit: the children in order. */
    method GenericVisit(ns: seq<Node>)
      modifies this
      ensures apiData == old(apiData) + WalkAll(ns, old(currentClass), filePath).0
      ensures currentClass == WalkAll(ns, old(currentClass), filePath).1 && filePath == old(filePath)
      decreases ns, 0
    {
      ghost var start := currentClass;
      for i := 0 to |ns|
        invariant filePath == old(filePath)
        invariant currentClass == WalkAll(ns[..i], start, filePath).1
        invariant apiData == old(apiData) + WalkAll(ns[..i], start, filePath).0
      {
        WalkAllSnoc(ns[..i], ns[i], start, filePath);
        assert ns[..i + 1] == ns[..i] + [ns[i]];
        Visit(ns[i]);
      }
      assert ns[..|ns|] == ns;
    }

    /** parse: a file that does not parse is skipped. */
    method Parse(file: string, tree: Option<seq<Node>>)
      modifies this
      ensures filePath == file
      ensures tree.None? ==> apiData == old(apiData) && currentClass == old(currentClass)
      ensures tree.Some? ==> apiData == old(apiData) + WalkAll(tree.value, old(currentClass), file).0
                             && currentClass == WalkAll(tree.value, old(currentClass), file).1
    {
      filePath := file;
      if tree.Some? {
        GenericVisit(tree.value);
      }
    }
  }

  /** Visiting one more node continues from the class name the others
      left. */
  lemma {:induction false} WalkAllSnoc(ns: seq<Node>, n: Node, cls: string, file: string)
    ensures var a := WalkAll(ns, cls, file);
      var b := Walk(n, a.1, file);
      WalkAll(ns + [n], cls, file) == (a.0 + b.0, b.1)
    decreases |ns|
  {
    if ns == [] {
      assert ns + [n] == [n] && [n][0] == n && [n][1..] == [];
      var b := Walk(n, cls, file);
      assert WalkAll([], b.1, file) == ([], b.1);
      assert WalkAll([n], cls, file) == (b.0 + [], b.1);
      assert b.0 + [] == [] + b.0;
    } else {
      var first := Walk(ns[0], cls, file);
      WalkAllSnoc(ns[1..], n, first.1, file);
      assert (ns + [n])[0] == ns[0];
      assert (ns + [n])[1..] == ns[1..] + [n];
      var a := WalkAll(ns[1..], first.1, file);
      var b := Walk(n, a.1, file);
      assert WalkAll(ns + [n], cls, file) == (first.0 + (a.0 + b.0), b.1);
      assert first.0 + (a.0 + b.0) == (first.0 + a.0) + b.0;
    }
  }

  /** The records of a whole folder: each file's tree visited in turn,
      files that do not parse contributing nothing. */
  function ScanRecords(files: seq<(string, Option<seq<Node>>)>): (seq<ApiRecord>, string)
    decreases |files|
  {
    if files == [] then ([], "")
    else
      var before := ScanRecords(files[..|files| - 1]);
      var (path, tree) := files[|files| - 1];
      if tree.Some? then
        var here := WalkAll(tree.value, before.1, path);
        (before.0 + here.0, here.1)
      else before
  }

  /** scan_folder, over the files `rglob('*.py')` lists, each with its
      parsed tree. */
  method ScanFolder(files: seq<(string, Option<seq<Node>>)>) returns (r: seq<ApiRecord>)
    ensures r == ScanRecords(files).0
  {
    var visitor := new ApiVisitor();
    for i := 0 to |files|
      invariant visitor.apiData == ScanRecords(files[..i]).0 && visitor.currentClass == ScanRecords(files[..i]).1
    {
      assert files[..i + 1][..i] == files[..i];
      visitor.Parse(files[i].0, files[i].1);
    }
    assert files[..|files|] == files;
    r := visitor.apiData;
  }

  /** The number of function definitions in the files that parse. */
  function SumDefs(files: seq<(string, Option<seq<Node>>)>): nat
    decreases |files|
  {
    if files == [] then 0
    else
      var last := files[|files| - 1];
      SumDefs(files[..|files| - 1]) + (if last.1.Some? then |DefNamesAll(last.1.value)| else 0)
  }

  /** A folder gets one record per function definition of its files that
      parse: an unparsable file adds none. */
  lemma {:induction false} ScanSkipsUnparsable(files: seq<(string, Option<seq<Node>>)>)
    ensures ScanRecords(files).1 == ""
    ensures |ScanRecords(files).0| == SumDefs(files)
    decreases |files|
  {
    if files != [] {
      ScanSkipsUnparsable(files[..|files| - 1]);
      var (path, tree) := files[|files| - 1];
      if tree.Some? {
        StaysUnscoped(tree.value, path);
        OneRecordPerDefAll(tree.value, "", path);
      }
    }
  }
}
