/** information_distillation/context_retriever.py: the text around a line of
    a Python file, and the functions and classes that enclose it.

    The parser is not modelled: a file's syntax tree is given as the nodes
    `ast.walk` visits, in its order, each function and class with its name,
    parameters and span of line numbers; annotations, defaults and return
    types are given as the text `ast.unparse` makes of them. */
module ContextRetriever {
  import opened Py
  import opened PyStr
  import GetApiMapping
  import PySeq

  /** A parameter: its name and its annotation, if any. */
  datatype Arg = Arg(name: string, annotation: Option<string>)

  /** A base class as written: a name, an attribute of a name (the value
      is None when it is not a plain name), or anything else. */
  datatype Base = NameBase(id: string) | AttributeBase(value: Option<string>, attr: string) | OtherBase

  /** The nodes of a syntax tree the retriever looks at. `posonly` and
      `args` are the positional-only and the other positional parameters;
      `defaults` are the defaults of the last of these, in order. */
  datatype Node =
    | FunctionDef(name: string, posonly: seq<Arg>, args: seq<Arg>, defaults: seq<string>,
                  vararg: Option<Arg>, kwarg: Option<Arg>, ret: Option<string>,
                  lineno: int, endLineno: int)
    | ClassDef(name: string, bases: seq<Base>, lineno: int, endLineno: int)
    | OtherNode

  // get_function_signature

  /** A parameter with its annotation: `name: annotation`. */
  function ArgText(a: Arg): string
  {
    a.name + (if a.annotation.Some? then ": " + a.annotation.value else "")
  }

  /** A parameter with its default, when it has a non-empty one. */
  function WithDefault(arg: string, default: Option<string>): string
  {
    if Truthy(default) then arg + "=" + default.value else arg
  }

  /** `[None] * (len(args) - len(defaults)) + defaults`: the default of each
      parameter, when there are no more defaults than parameters in `args`. */
  function PaddedDefaults(nArgs: nat, defaults: seq<string>): (r: seq<Option<string>>)
    ensures |defaults| <= nArgs ==> |r| == nArgs
    ensures |r| >= nArgs
  {
    var pad := if nArgs > |defaults| then nArgs - |defaults| else 0;
    seq(pad, _ => None) + seq(|defaults|, i requires 0 <= i < |defaults| => Some(defaults[i]))
  }

  /** The defaults as the source pairs them with `args` (`zip` stops at the
      shorter list): defaults of positional-only parameters shift onto the
      first parameters of `args`. */
  function DefaultsAsWritten(args: seq<Arg>, defaults: seq<string>): (r: seq<Option<string>>)
    ensures |r| == |args|
  {
    PaddedDefaults(|args|, defaults)[..|args|]
  }

  /** The defaults aligned with the last parameters: `args[i]` gets the
      default of its own position among all positional parameters. */
  function AlignedDefaults(args: seq<Arg>, defaults: seq<string>): (r: seq<Option<string>>)
    ensures |r| == |args|
  {
    if |defaults| <= |args| then PaddedDefaults(|args|, defaults)
    else PaddedDefaults(|args|, defaults[|defaults| - |args|..])
  }

  /** The parameter list: each parameter of `args` with its default, then
      `*vararg` and `**kwarg`. */
  function ParamTexts(n: Node, defaults: seq<Option<string>>): seq<string>
    requires n.FunctionDef? && |defaults| == |n.args|
  {
    ArgTexts(n.args, defaults)
    + (if n.vararg.Some? then ["*" + ArgText(n.vararg.value)] else [])
    + (if n.kwarg.Some? then ["**" + ArgText(n.kwarg.value)] else [])
  }

  /** Each parameter of `args` with its default. */
  function ArgTexts(args: seq<Arg>, defaults: seq<Option<string>>): (r: seq<string>)
    requires |defaults| == |args|
    ensures |r| == |args|
  {
    seq(|args|, i requires 0 <= i < |args| => WithDefault(ArgText(args[i]), defaults[i]))
  }

  function SignatureWith(n: Node, defaults: seq<Option<string>>): string
    requires n.FunctionDef? && |defaults| == |n.args|
  {
    n.name + "(" + Join(", ", ParamTexts(n, defaults)) + ")"
    + (if n.ret.Some? then " -> " + n.ret.value else "")
  }

  /** get_function_signature as written; GetFunctionSignature and the
      parent and name lookups use this one. */
  function SignatureAsWritten(n: Node): string
    requires n.FunctionDef?
  {
    SignatureWith(n, DefaultsAsWritten(n.args, n.defaults))
  }

  /** get_function_signature as evidently intended, with the defaults
      aligned with the last parameters. */
  function Signature(n: Node): string
    requires n.FunctionDef?
  {
    SignatureWith(n, AlignedDefaults(n.args, n.defaults))
  }

  /** Each parameter of `args` gets the default of its position counted
      from the end, and only the last `|defaults|` ones get one. */
  lemma {:induction false} AlignedDefaultsSpec(args: seq<Arg>, defaults: seq<string>, i: nat)
    requires i < |args|
    ensures AlignedDefaults(args, defaults)[i]
      == if i + |defaults| >= |args| then Some(defaults[|defaults| - |args| + i]) else None
  {
  }

  /** A function node as the parser makes it: no more defaults than
      positional parameters. */
  predicate WellFormed(n: Node)
  {
    n.FunctionDef? ==> |n.defaults| <= |n.posonly| + |n.args|
  }

  /** Without positional-only parameters the two agree. */
  lemma {:induction false} SignatureAgrees(n: Node)
    requires n.FunctionDef? && WellFormed(n) && n.posonly == []
    ensures SignatureAsWritten(n) == Signature(n)
  {
    assert DefaultsAsWritten(n.args, n.defaults) == AlignedDefaults(n.args, n.defaults);
  }

  /** `def f(a=1, /, b=2)`: the source gives b the default of a. */
  lemma {:induction false} PosonlyDefaultShifts()
    ensures var n := FunctionDef("f", [Arg("a", None)], [Arg("b", None)], ["1", "2"], None, None, None, 1, 1);
      && SignatureAsWritten(n) == "f(b=1)"
      && Signature(n) == "f(b=2)"
  {
    var n := FunctionDef("f", [Arg("a", None)], [Arg("b", None)], ["1", "2"], None, None, None, 1, 1);
    assert DefaultsAsWritten(n.args, n.defaults) == [Some("1")];
    assert AlignedDefaults(n.args, n.defaults) == [Some("2")];
    assert WithDefault(ArgText(n.args[0]), Some("1")) == "b=1";
    assert WithDefault(ArgText(n.args[0]), Some("2")) == "b=2";
    assert ParamTexts(n, [Some("1")]) == ["b=1"];
    assert ParamTexts(n, [Some("2")]) == ["b=2"];
  }

  /** get_function_signature, with its loops; a node that is not a
      function raises TypeError. */
  method GetFunctionSignature(n: Node) returns (r: Result<string>)
    ensures n.FunctionDef? ==> r == Ok(SignatureAsWritten(n))
    ensures !n.FunctionDef? ==> r.Err? && r.exc.TypeError?
  {
    if !n.FunctionDef? {
      return Err(TypeError("Node is not a FunctionDef"));
    }
    var args: seq<string> := [];
    var i := 0;
    while i < |n.args|
      invariant 0 <= i <= |n.args|
      invariant args == seq(i, j requires 0 <= j < i => ArgText(n.args[j]))
    {
      args := args + [ArgText(n.args[i])];
      i := i + 1;
    }
    var defaults := DefaultsAsWritten(n.args, n.defaults);
    var params: seq<string> := [];
    i := 0;
    while i < |args|
      invariant 0 <= i <= |args|
      invariant params == seq(i, j requires 0 <= j < i => WithDefault(ArgText(n.args[j]), defaults[j]))
    {
      params := params + [WithDefault(args[i], defaults[i])];
      i := i + 1;
    }
    assert params == ArgTexts(n.args, defaults);
    if n.vararg.Some? {
      params := params + ["*" + ArgText(n.vararg.value)];
    }
    if n.kwarg.Some? {
      params := params + ["**" + ArgText(n.kwarg.value)];
    }
    assert params == ParamTexts(n, defaults);
    var ret := if n.ret.Some? then " -> " + n.ret.value else "";
    r := Ok(n.name + "(" + Join(", ", params) + ")" + ret);
  }

  // get_context

  /** get_context: the lines `line - k` to `line + k` of the file (counted
      from 0 and clipped to the file), joined again. */
  function GetContext(content: string, line: int, k: int): string
  {
    Join("\n", GetApiMapping.ExtractContext(Split(content, '\n'), line, k))
  }

  /** For a line of the file and k >= 0, the window is the contiguous run
      of lines around it: at most 2k + 1 lines, the line itself among
      them, clipped at the start and at the end of the file. */
  lemma {:induction false} ContextWindow(lines: seq<string>, line: nat, k: nat)
    requires lines != [] && line < |lines|
    requires forall i :: 0 <= i < |lines| ==> '\n' !in lines[i]
    ensures var start := if line >= k then line - k else 0;
      var end := if line + k + 1 <= |lines| then line + k + 1 else |lines|;
      && start <= line < end && end - start <= 2 * k + 1
      && GetContext(Join("\n", lines), line, k) == Join("\n", lines[start..end])
  {
    SplitJoin(lines, '\n');
    GetApiMapping.ExtractContextSpec(lines, line, k);
  }

  // get_parent_classes

  /** A base as the source prints it: `id`, or `value.attr`; None for
      bases it skips. */
  function BaseText(b: Base): Option<string>
    requires !(b.AttributeBase? && b.value.None?)
  {
    match b
    case NameBase(id) => Some(id)
    case AttributeBase(value, attr) => Some(value.value + "." + attr)
    case OtherBase => None
  }

  /** `base.value.id` fails unless the value of an attribute is a name. */
  predicate BadBase(b: Base) { b.AttributeBase? && b.value.None? }

  /** The bases of a class as the source lists them. */
  function ParentClasses(bases: seq<Base>): Result<seq<string>>
  {
    if bases == [] then Ok([])
    else if BadBase(bases[0]) then Err(AttributeError("object has no attribute 'id'"))
    else
      var rest :- ParentClasses(bases[1..]);
      match BaseText(bases[0])
      case Some(t) => Ok([t] + rest)
      case None => Ok(rest)
  }

  /** The bases fail to print exactly when one of them is an attribute of
      something other than a name; otherwise each base gives at most one
      name. */
  lemma {:induction false} ParentClassesSpec(bases: seq<Base>)
    ensures ParentClasses(bases).Err? <==> exists i :: 0 <= i < |bases| && BadBase(bases[i])
    ensures ParentClasses(bases).Ok? ==> |ParentClasses(bases).value| <= |bases|
  {
    if bases != [] {
      ParentClassesSpec(bases[1..]);
      assert forall i :: 1 <= i < |bases| ==> bases[1..][i - 1] == bases[i];
    }
  }

  /** Bases written as names come out as those names, in order, and
      bases of any other form are dropped. */
  lemma {:induction false} ParentClassesOfNames(ids: seq<string>, others: nat)
    ensures ParentClasses(seq(|ids|, i requires 0 <= i < |ids| => NameBase(ids[i])) + seq(others, _ => OtherBase)) == Ok(ids)
    decreases |ids| + others
  {
    var bases := seq(|ids|, i requires 0 <= i < |ids| => NameBase(ids[i])) + seq(others, _ => OtherBase);
    if ids != [] {
      assert bases[1..] == seq(|ids[1..]|, i requires 0 <= i < |ids[1..]| => NameBase(ids[1..][i])) + seq(others, _ => OtherBase);
      ParentClassesOfNames(ids[1..], others);
      assert ids == [ids[0]] + ids[1..];
    } else if others > 0 {
      assert bases[1..] == seq(|ids|, i requires 0 <= i < |ids| => NameBase(ids[i])) + seq(others - 1, _ => OtherBase);
      ParentClassesOfNames(ids, others - 1);
    }
  }

  /** One base of the loop: the error, the text it adds, or nothing. */
  lemma {:induction false} ParentClassesStep(bases: seq<Base>, i: nat)
    requires i < |bases|
    ensures BadBase(bases[i]) ==> ParentClasses(bases[i..]) == Err(AttributeError("object has no attribute 'id'"))
    ensures !BadBase(bases[i]) && BaseText(bases[i]).Some? ==>
      ParentClasses(bases[i..]) == Prepend([BaseText(bases[i]).value], ParentClasses(bases[i + 1..]))
    ensures !BadBase(bases[i]) && BaseText(bases[i]).None? ==>
      ParentClasses(bases[i..]) == ParentClasses(bases[i + 1..])
  {
    assert bases[i..][1..] == bases[i + 1..];
  }

  /** get_parent_classes, with its loop; a node that is not a class
      raises TypeError. */
  method GetParentClasses(n: Node) returns (r: Result<seq<string>>)
    ensures n.ClassDef? ==> r == ParentClasses(n.bases)
    ensures !n.ClassDef? ==> r.Err? && r.exc.TypeError?
  {
    if !n.ClassDef? {
      return Err(TypeError("Node is not a ClassDef"));
    }
    var parents: seq<string> := [];
    var i := 0;
    assert n.bases[0..] == n.bases;
    assert Prepend([], ParentClasses(n.bases)) == ParentClasses(n.bases) by {
      if ParentClasses(n.bases).Ok? {
        assert [] + ParentClasses(n.bases).value == ParentClasses(n.bases).value;
      }
    }
    while i < |n.bases|
      invariant 0 <= i <= |n.bases|
      invariant Prepend(parents, ParentClasses(n.bases[i..])) == ParentClasses(n.bases)
    {
      var b := n.bases[i];
      ParentClassesStep(n.bases, i);
      if BadBase(b) {
        return Err(AttributeError("object has no attribute 'id'"));
      }
      var t := BaseText(b);
      if t.Some? {
        PrependPrepend(parents, [t.value], ParentClasses(n.bases[i + 1..]));
        parents := parents + [t.value];
      }
      i := i + 1;
    }
    assert n.bases[|n.bases|..] == [];
    assert parents + [] == parents;
    r := Ok(parents);
  }

  // get_function_name and get_parents

  /** What the two searches look for: get_function_name a function whose
      span holds the line, its last line included; get_parents a function
      or a class whose span holds the line, its last line excluded. */
  datatype Search = FunctionSearch | ParentSearch

  predicate Hit(search: Search, n: Node, line: int)
  {
    match search
    case FunctionSearch => n.FunctionDef? && n.lineno <= line <= n.endLineno
    case ParentSearch => (n.FunctionDef? || n.ClassDef?) && n.lineno <= line < n.endLineno
  }

  /** The first node from index `i` on, in walk order, that the search
      looks for. */
  function First(search: Search, walk: seq<Node>, line: int, i: nat): (r: Option<nat>)
    requires i <= |walk|
    ensures r.Some? ==> i <= r.value < |walk| && Hit(search, walk[r.value], line)
    ensures r.Some? ==> forall j :: i <= j < r.value ==> !Hit(search, walk[j], line)
    ensures r.None? ==> forall j :: i <= j < |walk| ==> !Hit(search, walk[j], line)
    decreases |walk| - i
  {
    if i == |walk| then None
    else if Hit(search, walk[i], line) then Some(i)
    else First(search, walk, line, i + 1)
  }

  /** A function's name, or its signature. */
  function NameOf(n: Node, withSignature: bool): string
    requires n.FunctionDef?
  {
    if withSignature then SignatureAsWritten(n) else n.name
  }

  /** get_function_name: the name (or signature) of the first function in
      walk order whose span holds the line, None when there is none. */
  function FunctionName(walk: seq<Node>, line: int, withSignature: bool): (r: Option<string>)
    ensures r.None? <==> forall i :: 0 <= i < |walk| ==> !Hit(FunctionSearch, walk[i], line)
  {
    match First(FunctionSearch, walk, line, 0)
    case Some(i) => Some(NameOf(walk[i], withSignature))
    case None => None
  }

  /** The name found is the one of the first function in walk order
      whose span holds the line. */
  lemma {:induction false} FunctionNameFirst(walk: seq<Node>, line: int, withSignature: bool, i: nat)
    requires i < |walk| && Hit(FunctionSearch, walk[i], line)
    requires forall j :: 0 <= j < i ==> !Hit(FunctionSearch, walk[j], line)
    ensures FunctionName(walk, line, withSignature) == Some(NameOf(walk[i], withSignature))
  {
    var k := First(FunctionSearch, walk, line, 0);
    assert k.Some? && !(k.value < i) && !(i < k.value);
  }

  /** get_function_name, with its loop over the walk. */
  method GetFunctionName(walk: seq<Node>, line: int, withSignature: bool) returns (r: Option<string>)
    ensures r == FunctionName(walk, line, withSignature)
  {
    var i := 0;
    while i < |walk|
      invariant 0 <= i <= |walk|
      invariant First(FunctionSearch, walk, line, i) == First(FunctionSearch, walk, line, 0)
    {
      var n := walk[i];
      if n.FunctionDef? && n.lineno <= line <= n.endLineno {
        if withSignature {
          var sig := GetFunctionSignature(n);
          return Some(sig.value);
        }
        return Some(n.name);
      }
      i := i + 1;
    }
    return None;
  }

  /** get_parents: "Function: name" or "Class: name" for the first
      function or class in walk order whose span holds the line before its
      last line, None when there is none. */
  function ParentLabel(walk: seq<Node>, line: int): (r: Option<string>)
    ensures r.None? <==> forall i :: 0 <= i < |walk| ==> !Hit(ParentSearch, walk[i], line)
  {
    match First(ParentSearch, walk, line, 0)
    case Some(i) => Some((if walk[i].FunctionDef? then "Function: " else "Class: ") + walk[i].name)
    case None => None
  }

  /** The label found is the one of the first function or class in walk
      order whose span holds the line before its last line. */
  lemma {:induction false} ParentLabelFirst(walk: seq<Node>, line: int, i: nat)
    requires i < |walk| && Hit(ParentSearch, walk[i], line)
    requires forall j :: 0 <= j < i ==> !Hit(ParentSearch, walk[j], line)
    ensures ParentLabel(walk, line) == Some((if walk[i].FunctionDef? then "Function: " else "Class: ") + walk[i].name)
  {
    var k := First(ParentSearch, walk, line, 0);
    assert k.Some? && !(k.value < i) && !(i < k.value);
  }

  /** get_parents, with its loop over the walk. */
  method GetParents(walk: seq<Node>, line: int) returns (r: Option<string>)
    ensures r == ParentLabel(walk, line)
  {
    var i := 0;
    while i < |walk|
      invariant 0 <= i <= |walk|
      invariant First(ParentSearch, walk, line, i) == First(ParentSearch, walk, line, 0)
    {
      var n := walk[i];
      if n.FunctionDef? && n.lineno <= line < n.endLineno {
        return Some("Function: " + n.name);
      }
      if n.ClassDef? && n.lineno <= line < n.endLineno {
        return Some("Class: " + n.name);
      }
      i := i + 1;
    }
    return None;
  }

  /** On the last line of a function, get_function_name finds the
      function but get_parents does not. */
  lemma {:induction false} LastLineOfFunction(f: Node)
    requires f.FunctionDef? && f.lineno < f.endLineno
    ensures FunctionName([f], f.endLineno, false) == Some(f.name)
    ensures ParentLabel([f], f.endLineno) == None
    ensures ParentLabel([f], f.endLineno - 1) == Some("Function: " + f.name)
  {
  }

  // get_list_of_parents

  /** An entry of get_list_of_parents. */
  datatype Parent = Parent(kind: string, name: string, lineno: int, endLineno: int)

  predicate Encloses(n: Node, line: int)
  {
    (n.FunctionDef? || n.ClassDef?) && n.lineno <= line <= n.endLineno
  }

  /** The entry of a function or a class: "def " and its signature (or
      name), or "class", its name and its bases; a class with a base the
      source cannot print raises. */
  function Entry(n: Node, withSignature: bool): (r: Result<Parent>)
    requires n.FunctionDef? || n.ClassDef?
    ensures r.Err? <==> n.ClassDef? && ParentClasses(n.bases).Err?
    ensures r.Ok? ==> r.value.lineno == n.lineno && r.value.endLineno == n.endLineno
    ensures r.Ok? ==> r.value.kind == (if n.FunctionDef? then "function" else "class")
  {
    if n.FunctionDef? then
      Ok(Parent("function", "def " + NameOf(n, withSignature), n.lineno, n.endLineno))
    else
      var bases :- ParentClasses(n.bases);
      Ok(Parent("class", "class " + n.name + "(" + Join(", ", bases) + ")", n.lineno, n.endLineno))
  }

  /** The functions and classes whose span holds the line, in walk order. */
  function Enclosing(walk: seq<Node>, line: int): (r: seq<Node>)
    ensures forall k :: 0 <= k < |r| ==> Encloses(r[k], line)
  {
    if walk == [] then []
    else (if Encloses(walk[0], line) then [walk[0]] else []) + Enclosing(walk[1..], line)
  }

  /** get_list_of_parents, as a function of the walk. */
  function ListOfParents(walk: seq<Node>, line: int, withSignature: bool): Result<seq<Parent>>
  {
    if walk == [] then Ok([])
    else if Encloses(walk[0], line) then
      var e :- Entry(walk[0], withSignature);
      var rest :- ListOfParents(walk[1..], line, withSignature);
      Ok([e] + rest)
    else ListOfParents(walk[1..], line, withSignature)
  }

  /** The list fails exactly when a class whose span holds the line has
      a base the source cannot print. */
  lemma {:induction false} ListOfParentsFails(walk: seq<Node>, line: int, withSignature: bool)
    ensures ListOfParents(walk, line, withSignature).Err? <==>
      exists i :: 0 <= i < |walk| && Encloses(walk[i], line) && Entry(walk[i], withSignature).Err?
  {
    if walk != [] {
      ListOfParentsFails(walk[1..], line, withSignature);
      assert forall i :: 1 <= i < |walk| ==> walk[1..][i - 1] == walk[i];
    }
  }

  /** The entries of a list of nodes, in order, up to the first that
      fails; nodes that are neither functions nor classes are skipped. */
  function EntriesOf(ns: seq<Node>, withSignature: bool): Result<seq<Parent>>
  {
    if ns == [] then Ok([])
    else if !(ns[0].FunctionDef? || ns[0].ClassDef?) then EntriesOf(ns[1..], withSignature)
    else
      var e :- Entry(ns[0], withSignature);
      var rest :- EntriesOf(ns[1..], withSignature);
      Ok([e] + rest)
  }

  /** get_list_of_parents is the entries of the enclosing nodes. */
  lemma {:induction false} ListOfParentsEntries(walk: seq<Node>, line: int, withSignature: bool)
    ensures ListOfParents(walk, line, withSignature) == EntriesOf(Enclosing(walk, line), withSignature)
  {
    if walk != [] {
      ListOfParentsEntries(walk[1..], line, withSignature);
      var ns := Enclosing(walk[1..], line);
      if Encloses(walk[0], line) {
        var all := [walk[0]] + ns;
        assert Enclosing(walk, line) == all;
        assert all[0] == walk[0] && all[1..] == ns;
      } else {
        assert Enclosing(walk, line) == [] + ns == ns;
      }
    }
  }

  lemma {:induction false} EntriesOfSpec(ns: seq<Node>, withSignature: bool)
    requires forall k :: 0 <= k < |ns| ==> ns[k].FunctionDef? || ns[k].ClassDef?
    requires EntriesOf(ns, withSignature).Ok?
    ensures var ps := EntriesOf(ns, withSignature).value;
      && |ps| == |ns|
      && forall k :: 0 <= k < |ps| ==> Entry(ns[k], withSignature) == Ok(ps[k])
  {
    if ns != [] {
      var tail := ns[1..];
      assert forall k :: 0 <= k < |tail| ==> tail[k] == ns[k + 1];
      EntriesOfCons(ns, withSignature);
      EntriesOfSpec(tail, withSignature);
      var e := Entry(ns[0], withSignature).value;
      var ps := EntriesOf(tail, withSignature).value;
      var all := [e] + ps;
      MatchesCons(ns, all, withSignature);
    }
  }

  /** Each node's entry is the entry at its place when that holds for the
      head and for every node of the tail. */
  lemma MatchesCons(ns: seq<Node>, all: seq<Parent>, withSignature: bool)
    requires |ns| == |all| > 0
    requires forall k :: 0 <= k < |ns| ==> ns[k].FunctionDef? || ns[k].ClassDef?
    requires Entry(ns[0], withSignature) == Ok(all[0])
    requires forall k :: 0 <= k < |ns| - 1 ==> Entry(ns[1..][k], withSignature) == Ok(all[1..][k])
    ensures forall k :: 0 <= k < |ns| ==> Entry(ns[k], withSignature) == Ok(all[k])
  {
    forall k | 0 < k < |ns| ensures Entry(ns[k], withSignature) == Ok(all[k]) {
      assert ns[k] == ns[1..][k - 1] && all[k] == all[1..][k - 1];
    }
  }

  /** A list headed by a function or class that yields its entries: the
      head's entry, then the tail's. */
  lemma EntriesOfCons(ns: seq<Node>, withSignature: bool)
    requires ns != [] && (ns[0].FunctionDef? || ns[0].ClassDef?)
    requires EntriesOf(ns, withSignature).Ok?
    ensures Entry(ns[0], withSignature).Ok? && EntriesOf(ns[1..], withSignature).Ok?
    ensures EntriesOf(ns, withSignature).value == [Entry(ns[0], withSignature).value] + EntriesOf(ns[1..], withSignature).value
  {
  }

  /** Otherwise every function and class whose span holds the line gets
      its entry, in walk order, and nothing else does. */
  lemma {:induction false} ListOfParentsSpec(walk: seq<Node>, line: int, withSignature: bool)
    requires ListOfParents(walk, line, withSignature).Ok?
    ensures var ps := ListOfParents(walk, line, withSignature).value;
      var ns := Enclosing(walk, line);
      && |ps| == |ns|
      && forall k :: 0 <= k < |ps| ==> Entry(ns[k], withSignature) == Ok(ps[k])
  {
    ListOfParentsEntries(walk, line, withSignature);
    EntriesOfSpec(Enclosing(walk, line), withSignature);
  }

  /** Each entry spans the line. */
  lemma {:induction false} ParentsSpanLine(walk: seq<Node>, line: int, withSignature: bool)
    requires ListOfParents(walk, line, withSignature).Ok?
    ensures var ps := ListOfParents(walk, line, withSignature).value;
      forall k :: 0 <= k < |ps| ==> ps[k].lineno <= line <= ps[k].endLineno
  {
    ListOfParentsSpec(walk, line, withSignature);
  }

  /** One node of the loop of get_list_of_parents. */
  lemma {:induction false} ListOfParentsStep(walk: seq<Node>, line: int, withSignature: bool, i: nat)
    requires i < |walk|
    ensures !Encloses(walk[i], line) ==>
      ListOfParents(walk[i..], line, withSignature) == ListOfParents(walk[i + 1..], line, withSignature)
    ensures Encloses(walk[i], line) && Entry(walk[i], withSignature).Err? ==>
      ListOfParents(walk[i..], line, withSignature) == Err(Entry(walk[i], withSignature).exc)
    ensures Encloses(walk[i], line) && Entry(walk[i], withSignature).Ok? ==>
      ListOfParents(walk[i..], line, withSignature)
      == Prepend([Entry(walk[i], withSignature).value], ListOfParents(walk[i + 1..], line, withSignature))
  {
    assert walk[i..][1..] == walk[i + 1..];
  }

  /** get_list_of_parents, with its loop over the walk. */
  method GetListOfParents(walk: seq<Node>, line: int, withSignature: bool) returns (r: Result<seq<Parent>>)
    ensures r == ListOfParents(walk, line, withSignature)
  {
    var parents: seq<Parent> := [];
    var i := 0;
    assert walk[0..] == walk;
    assert Prepend([], ListOfParents(walk, line, withSignature)) == ListOfParents(walk, line, withSignature) by {
      if ListOfParents(walk, line, withSignature).Ok? {
        assert [] + ListOfParents(walk, line, withSignature).value == ListOfParents(walk, line, withSignature).value;
      }
    }
    while i < |walk|
      invariant 0 <= i <= |walk|
      invariant Prepend(parents, ListOfParents(walk[i..], line, withSignature)) == ListOfParents(walk, line, withSignature)
    {
      var n := walk[i];
      ListOfParentsStep(walk, line, withSignature, i);
      if n.FunctionDef? && n.lineno <= line <= n.endLineno {
        var name := n.name;
        if withSignature {
          var sig := GetFunctionSignature(n);
          name := sig.value;
        }
        var p := Parent("function", "def " + name, n.lineno, n.endLineno);
        PrependPrepend(parents, [p], ListOfParents(walk[i + 1..], line, withSignature));
        parents := parents + [p];
      }
      if n.ClassDef? && n.lineno <= line <= n.endLineno {
        var bases := GetParentClasses(n);
        if bases.Err? {
          return Err(bases.exc);
        }
        var p := Parent("class", "class " + n.name + "(" + Join(", ", bases.value) + ")", n.lineno, n.endLineno);
        PrependPrepend(parents, [p], ListOfParents(walk[i + 1..], line, withSignature));
        parents := parents + [p];
      }
      i := i + 1;
    }
    assert walk[|walk|..] == [];
    assert parents + [] == parents;
    r := Ok(parents);
  }

  lemma {:induction false} ListOfParentsTake(walk: seq<Node>, line: int, withSignature: bool)
    requires walk != [] && Encloses(walk[0], line) && Entry(walk[0], withSignature).Ok?
    requires ListOfParents(walk[1..], line, withSignature).Ok?
    ensures ListOfParents(walk, line, withSignature)
      == Ok([Entry(walk[0], withSignature).value] + ListOfParents(walk[1..], line, withSignature).value)
  {
  }

  lemma {:induction false} ListOfParentsSkip(walk: seq<Node>, line: int, withSignature: bool)
    requires walk != [] && !Encloses(walk[0], line)
    ensures ListOfParents(walk, line, withSignature) == ListOfParents(walk[1..], line, withSignature)
  {
  }

  /** The functions and classes of the file the tests read, in walk order:
      test_function, test_function_2 and TestClass at the top, then
      inner_function and test_method. */
  function SampleWalk(): seq<Node>
  {
    [ FunctionDef("test_function", [], [], [], None, None, None, 2, 4),
      FunctionDef("test_function_2", [], [Arg("with_signature", Some("str"))], [], None, None, None, 6, 11),
      ClassDef("TestClass", [NameBase("ParentClass")], 13, 16),
      FunctionDef("inner_function", [], [Arg("arg1", None), Arg("arg2", None)], ["'default'"],
                  Some(Arg("args", None)), Some(Arg("kwargs", None)), None, 9, 10),
      FunctionDef("test_method", [], [Arg("self", None)], [], None, None, None, 14, 16) ]
  }

  /** test_function_2(with_signature: str) */
  lemma {:induction false} SampleSignature1()
    ensures SignatureAsWritten(SampleWalk()[1]) == "test_function_2(with_signature: str)"
  {
    var n := SampleWalk()[1];
    SampleNode1();
    SignatureAgrees(n);
    SignatureOfAnnotated(n);
    SampleSignature1Text();
  }

  /** The expected signature, as the name and the parameter list. */
  lemma SampleSignature1Text()
    ensures "test_function_2" + "(with_signature: str)" == "test_function_2(with_signature: str)"
  {
  }

  /** The second node of the sample file is test_function_2. */
  lemma SampleNode1()
    ensures SampleWalk()[1] == FunctionDef("test_function_2", [], [Arg("with_signature", Some("str"))], [], None, None, None, 6, 11)
  {
  }

  /** A function whose one parameter is annotated and has no default. */
  lemma SignatureOfAnnotated(n: Node)
    requires n.FunctionDef? && n.args == [Arg("with_signature", Some("str"))] && n.defaults == []
    requires n.vararg.None? && n.kwarg.None? && n.ret.None?
    ensures Signature(n) == n.name + "(with_signature: str)"
  {
    var d := AlignedDefaults(n.args, n.defaults);
    AlignedDefaultsSpec(n.args, n.defaults, 0);
    assert d == [None];
    var p := ParamTexts(n, d);
    assert ArgText(n.args[0]) == "with_signature: str";
    assert p == ["with_signature: str"];
    SignatureOfOne(n, d, p[0]);
  }

  /** The signature of a function with one parameter and no return
      annotation. */
  lemma SignatureOfOne(n: Node, d: seq<Option<string>>, param: string)
    requires n.FunctionDef? && |d| == |n.args| && ParamTexts(n, d) == [param] && n.ret.None?
    ensures SignatureWith(n, d) == n.name + "(" + param + ")"
  {
    assert Join(", ", [param]) == param;
  }

  /** The parameters of inner_function: only arg2 has a default, and
      *args and **kwargs follow. */
  lemma {:induction false} SampleParams3()
    ensures var n := SampleWalk()[3];
      ParamTexts(n, DefaultsAsWritten(n.args, n.defaults)) == ["arg1", "arg2='default'", "*args", "**kwargs"]
  {
    var n := SampleWalk()[3];
    var d := DefaultsAsWritten(n.args, n.defaults);
    assert d == [None, Some("'default'")];
    var a := ArgTexts(n.args, d);
    assert a[0] == "arg1" && a[1] == "arg2='default'";
    assert a == ["arg1", "arg2='default'"];
    assert "*" + ArgText(n.vararg.value) == "*args";
    assert "**" + ArgText(n.kwarg.value) == "**kwargs";
  }

  /** test_method(self) */
  lemma {:induction false} SampleSignature4()
    ensures SignatureAsWritten(SampleWalk()[4]) == "test_method(self)"
  {
    var n := SampleWalk()[4];
    SignatureAgrees(n);
    var d := AlignedDefaults(n.args, n.defaults);
    assert d == [None];
    assert ArgText(n.args[0]) == "self";
    assert ParamTexts(n, d) == ["self"];
  }

  /** Line 9 lies in inner_function, inside test_function_2: two function
      entries, the outer one first. */
  lemma {:induction false} InnerFunctionParents()
    ensures var w := SampleWalk();
      ListOfParents(w, 9, true) == Ok([
        Parent("function", "def " + SignatureAsWritten(w[1]), 6, 11),
        Parent("function", "def " + SignatureAsWritten(w[3]), 9, 10)])
  {
    var w := SampleWalk();
    assert w[4..] == [w[4]] && w[3..][1..] == w[4..] && w[2..][1..] == w[3..] && w[1..][1..] == w[2..];
    var e1 := Parent("function", "def " + SignatureAsWritten(w[1]), 6, 11);
    var e3 := Parent("function", "def " + SignatureAsWritten(w[3]), 9, 10);
    ListOfParentsSkip(w[4..], 9, true);
    assert ListOfParents(w[4..], 9, true) == Ok([]);
    ListOfParentsTake(w[3..], 9, true);
    assert Entry(w[3], true) == Ok(e3);
    assert [e3] + [] == [e3];
    assert ListOfParents(w[3..], 9, true) == Ok([e3]);
    ListOfParentsSkip(w[2..], 9, true);
    ListOfParentsTake(w[1..], 9, true);
    assert Entry(w[1], true) == Ok(e1);
    assert ListOfParents(w[2..], 9, true) == Ok([e3]);
    assert w[1..][0] == w[1];
    assert [e1] + [e3] == [e1, e3];
    ListOfParentsSkip(w, 9, true);
  }

  /** Line 15 lies in test_method, inside TestClass: the class entry, with
      its base, then the method. */
  lemma {:induction false} ClassMethodParents()
    ensures var w := SampleWalk();
      ListOfParents(w, 15, true) == Ok([
        Parent("class", "class TestClass(ParentClass)", 13, 16),
        Parent("function", "def " + SignatureAsWritten(w[4]), 14, 16)])
  {
    var w := SampleWalk();
    var e2 := Parent("class", "class TestClass(ParentClass)", 13, 16);
    var e4 := Parent("function", "def " + SignatureAsWritten(w[4]), 14, 16);
    SampleMethodEntry();
    SampleClassEntry();
    assert w[3..][1..] == w[4..] && w[2..][1..] == w[3..] && w[1..][1..] == w[2..];
    ListOfParentsSkip(w[3..], 15, true);
    ListOfParentsTake(w[2..], 15, true);
    assert w[2..][0] == w[2];
    assert [e2] + [e4] == [e2, e4];
    assert ListOfParents(w[2..], 15, true) == Ok([e2, e4]);
    ListOfParentsSkip(w[1..], 15, true);
    ListOfParentsSkip(w, 15, true);
  }

  /** The sample's walk from test_method on, at line 15: the method's entry
      alone. */
  lemma {:induction false} SampleMethodEntry()
    ensures var w := SampleWalk();
      ListOfParents(w[4..], 15, true) == Ok([Parent("function", "def " + SignatureAsWritten(w[4]), 14, 16)])
  {
    var w := SampleWalk();
    var e4 := Parent("function", "def " + SignatureAsWritten(w[4]), 14, 16);
    assert w[4..] == [w[4]];
    assert ListOfParents(w[4..][1..], 15, true) == Ok([]);
    ListOfParentsTake(w[4..], 15, true);
    assert Entry(w[4], true) == Ok(e4);
    assert [e4] + [] == [e4];
  }

  /** TestClass's entry names its one base. */
  lemma {:induction false} SampleClassEntry()
    ensures Entry(SampleWalk()[2], true) == Ok(Parent("class", "class TestClass(ParentClass)", 13, 16))
  {
    var w := SampleWalk();
    ParentClassesOfNames(["ParentClass"], 0);
    assert seq(1, i requires 0 <= i < 1 => NameBase(["ParentClass"][i])) + seq(0, _ => OtherBase) == w[2].bases;
    assert Join(", ", ["ParentClass"]) == "ParentClass";
    assert "class " + w[2].name + "(" + "ParentClass" + ")" == "class TestClass(ParentClass)";
    assert ParentClasses(w[2].bases) == Ok(["ParentClass"]);
  }

  // get_context_parents_compressed

  /** `"    " * level`. */
  function Indent(level: nat): (r: string)
    ensures |r| == 4 * level
    ensures forall i :: 0 <= i < |r| ==> r[i] == ' '
  {
    seq(4 * level, _ => ' ')
  }

  /** The header of a parent at a nesting level: its name and a colon,
      then an elided body line, one level deeper, when the parent does not
      start at the line; nothing for a parent whose span does not hold the
      line. */
  function Header(p: Parent, level: nat, line: int): string
  {
    if p.lineno <= line <= p.endLineno then
      Indent(level) + p.name + ":\n" + (if p.lineno != line then Indent(level + 1) + "...\n" else "")
    else ""
  }

  /** The headers the loop writes from `level` on: it stops at the first
      parent that starts after the top of the window. */
  function Headers(parents: seq<Parent>, line: int, top: int, level: nat): string
    decreases |parents|
  {
    if parents == [] || top < parents[0].lineno then ""
    else Header(parents[0], level, line) + Headers(parents[1..], line, top, level + 1)
  }

  /** The headers of all the parents, the i-th at level i. */
  function AllHeaders(parents: seq<Parent>, line: int, level: nat): string
    decreases |parents|
  {
    if parents == [] then "" else Header(parents[0], level, line) + AllHeaders(parents[1..], line, level + 1)
  }

  /** get_context_parents_compressed, for the parents of the line: the
      headers, the window of get_context, and "..." when the window ends
      before the end of the file. The window counts lines from 0 and the
      parents' spans from 1, as the parser does. */
  function Compressed(content: string, parents: seq<Parent>, line: int, n: int): string
  {
    var top := if line - n > 0 then line - n else 0;
    var eof := |Split(content, '\n')|;
    var bottom := if eof < line + n then eof else line + n;
    Headers(parents, line, top, 0) + GetContext(content, line, n) + (if line < bottom && bottom < eof then "..." else "")
  }

  /** No header is written for a parent after one that starts below the
      top of the window. */
  lemma {:induction false} HeadersStop(parents: seq<Parent>, line: int, top: int, level: nat, k: nat)
    requires k < |parents| && top < parents[k].lineno
    ensures Headers(parents, line, top, level) == Headers(parents[..k], line, top, level)
    decreases k
  {
    if k > 0 && top >= parents[0].lineno {
      HeadersStop(parents[1..], line, top, level + 1, k - 1);
      assert parents[..k][1..] == parents[1..][..k - 1];
    }
  }

  /** When every parent starts at or above the top of the window, all
      their headers are written. */
  lemma {:induction false} HeadersAll(parents: seq<Parent>, line: int, top: int, level: nat)
    requires forall k :: 0 <= k < |parents| ==> parents[k].lineno <= top
    ensures Headers(parents, line, top, level) == AllHeaders(parents, line, level)
    decreases |parents|
  {
    if parents != [] {
      HeadersAll(parents[1..], line, top, level + 1);
    }
  }

  /** With no context lines (the default), every parent of the line gets
      its header, and the window is the one line `line` of the file
      counted from 0, with no trailing "...". */
  lemma {:induction false} SingleLineCompressed(content: string, walk: seq<Node>, line: nat, withSignature: bool)
    requires ListOfParents(walk, line, withSignature).Ok?
    requires line < |Split(content, '\n')|
    ensures var ps := ListOfParents(walk, line, withSignature).value;
      Compressed(content, ps, line, 0) == AllHeaders(ps, line, 0) + Split(content, '\n')[line]
  {
    var ps := ListOfParents(walk, line, withSignature).value;
    ParentsSpanLine(walk, line, withSignature);
    HeadersAll(ps, line, line, 0);
    var lines := Split(content, '\n');
    assert lines[line..line + 1] == [lines[line]];
    assert GetApiMapping.ExtractContext(lines, line, 0) == PySeq.Slice(lines, line, line + 1);
    assert PySeq.Slice(lines, line, line + 1) == [lines[line]];
    assert GetContext(content, line, 0) == lines[line];
    assert Headers(ps, line, line, 0) == AllHeaders(ps, line, 0);
  }

  /** The trailing "..." is written exactly when there are context lines
      and the window stops before the end of the file. */
  lemma {:induction false} CompressedTail(content: string, parents: seq<Parent>, line: nat, n: nat)
    requires line < |Split(content, '\n')|
    ensures var eof := |Split(content, '\n')|;
      Compressed(content, parents, line, n)
      == Headers(parents, line, if line >= n then line - n else 0, 0) + GetContext(content, line, n)
         + (if 0 < n && line + n < eof then "..." else "")
  {
  }

  lemma {:induction false} ConcatAssoc3(a: string, b: string, c: string)
    ensures a + (b + c) == (a + b) + c
  {
  }

  /** One parent of the loop: its header, then the rest. */
  lemma {:induction false} HeadersStep(parents: seq<Parent>, line: int, top: int, level: nat)
    requires level < |parents| && parents[level].lineno <= top
    ensures Headers(parents[level..], line, top, level)
      == Header(parents[level], level, line) + Headers(parents[level + 1..], line, top, level + 1)
  {
    assert parents[level..][1..] == parents[level + 1..];
  }

  /** The loop of get_context_parents_compressed over the parents, each
      at the level of its place in the list. */
  method WriteHeaders(parents: seq<Parent>, line: int, top: int) returns (context: string)
    ensures context == Headers(parents, line, top, 0)
  {
    context := "";
    var level := 0;
    assert parents[0..] == parents;
    while level < |parents|
      invariant 0 <= level <= |parents|
      invariant context + Headers(parents[level..], line, top, level) == Headers(parents, line, top, 0)
    {
      var p := parents[level];
      if top < p.lineno {
        break;
      }
      HeadersStep(parents, line, top, level);
      var header := "";
      if p.lineno <= line <= p.endLineno {
        header := Indent(level) + p.name + ":\n";
        if p.lineno != line {
          header := header + Indent(level + 1) + "...\n";
        }
      }
      assert header == Header(p, level, line);
      ConcatAssoc3(context, header, Headers(parents[level + 1..], line, top, level + 1));
      context := context + header;
      level := level + 1;
    }
    assert Headers(parents[level..], line, top, level) == "";
  }

  /** get_context_parents_compressed: the parents of the line, their
      headers, the window and the trailing "...". */
  method GetContextParentsCompressed(content: string, walk: seq<Node>, line: int, withSignature: bool, n: int)
    returns (r: Result<string>)
    ensures ListOfParents(walk, line, withSignature).Err? ==> r == Err(ListOfParents(walk, line, withSignature).exc)
    ensures ListOfParents(walk, line, withSignature).Ok? ==>
      r == Ok(Compressed(content, ListOfParents(walk, line, withSignature).value, line, n))
  {
    var parents :- GetListOfParents(walk, line, withSignature);
    var top := if line - n > 0 then line - n else 0;
    var eof := |Split(content, '\n')|;
    var bottom := if eof < line + n then eof else line + n;
    var context := WriteHeaders(parents, line, top);
    context := context + GetContext(content, line, n);
    if line < bottom && bottom < eof {
      context := context + "...";
    } else {
      assert context + "" == context;
    }
    r := Ok(context);
  }
}
