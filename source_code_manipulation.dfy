/** generators/source_code_manipulation.py: finding `def` lines by text, and
    removing functions from a syntax tree. */
module SourceCodeManipulation {
  import opened PyStr

  /** A line whose stripped form starts with `def `. */
  predicate IsDefLine(line: string) { StartsWith(Strip(line), "def ") }

  /** `line.split("(")[0].split("def ")[1]`: the text between the first
      `def ` and the next `def ` of what precedes the first `(`. */
  function DefName(line: string): (name: string)
    requires IsDefLine(line)
  {
    var head := Before(line, "(");
    DefBeforeParen(line);
    Before(After(head, "def "), "def ")
  }

  /** The `def ` that opens a def line comes before any `(`, so the head
      before the first `(` always holds it and the `[1]` index never fails. */
  lemma {:induction false} DefBeforeParen(line: string)
    requires IsDefLine(line)
    ensures Contains(Before(line, "("), "def ")
  {
    var p := |line| - |LStrip(line)|;
    DefAfterIndent(line);
    NoParenBeforeDef(line, p);
    var k := Find(line, "(");
    if k >= 0 {
      assert line[k..][..1] == "(";
      assert line[k] == '(';
      assert k >= p + 4;
      var head := line[..k];
      SameFourAt(line, k, p);
      ContainsAt(head, "def ", p);
    } else {
      ContainsAt(line, "def ", p);
    }
  }

  /** Cutting a string after index `p + 4` keeps the four characters at `p`. */
  lemma SameFourAt(line: string, k: nat, p: nat)
    requires p + 4 <= k <= |line|
    ensures line[..k][p..][..4] == line[p..][..4]
  {
    var a, b := line[..k][p..][..4], line[p..][..4];
    forall i | 0 <= i < 4 ensures a[i] == b[i] {
      assert a[i] == line[p + i] && b[i] == line[p + i];
    }
  }

  /** Neither the indentation nor `def ` holds a `(`. */
  lemma {:induction false} NoParenBeforeDef(line: string, p: nat)
    requires p + 4 <= |line| && line[p..][..4] == "def "
    requires forall i :: 0 <= i < p ==> IsSpace(line[i])
    ensures forall i :: 0 <= i < p + 4 ==> line[i] != '('
  {
    forall i | 0 <= i < p + 4 ensures line[i] != '(' {
      if i >= p {
        assert line[i] == line[p..][..4][i - p];
      } else {
        assert IsSpace(line[i]);
      }
    }
  }

  /** A def line is indentation followed by `def `. */
  lemma {:induction false} DefAfterIndent(line: string)
    requires IsDefLine(line)
    ensures var p := |line| - |LStrip(line)|;
      p + 4 <= |line| && line[p..][..4] == "def "
  {
    var l := LStrip(line);
    LStripSuffix(line);
    RStripPrefix(l);
    assert StartsWith(l, "def ");
  }

  /** The names of the `def` lines of `lines`, in order. */
  function DefNames(lines: seq<string>): (names: seq<string>)
    ensures |names| <= |lines|
  {
    if lines == [] then []
    else (if IsDefLine(lines[0]) then [DefName(lines[0])] else []) + DefNames(lines[1..])
  }

  function KeepPrefixed(names: seq<string>, prefix: string): (r: seq<string>)
    ensures forall i :: 0 <= i < |r| ==> StartsWith(r[i], prefix)
    ensures forall n :: n in r <==> n in names && StartsWith(n, prefix)
  {
    if names == [] then []
    else (if StartsWith(names[0], prefix) then [names[0]] else []) + KeepPrefixed(names[1..], prefix)
  }

  /** get_function_names_starting_with_prefix. */
  function FunctionNamesWithPrefix(sourceCode: string, prefix: string): seq<string>
  {
    KeepPrefixed(DefNames(Split(sourceCode, '\n')), prefix)
  }

  /** A def line at any indentation yields its name, so nested functions and
      methods are listed too. */
  lemma {:induction false} IndentedDefName(indent: string, name: string, rest: string)
    requires forall i :: 0 <= i < |indent| ==> IsSpace(indent[i])
    requires !Contains(name, "def ") && '(' !in name
    ensures IsDefLine(indent + "def " + name + "(" + rest)
    ensures DefName(indent + "def " + name + "(" + rest) == name
  {
    var head := indent + "def " + name;
    var line := head + "(" + rest;
    IndentedIsDefLine(indent, name, rest);
    assert Before(line, "(") == head by {
      assert '(' !in head;
      ContainsChar(head, '(');
      FindAfterFree(head, rest, "(");
    }
    assert After(head, "def ") == name by {
      FindDefAt(indent, name);
    }
  }

  lemma {:induction false} IndentedIsDefLine(indent: string, name: string, rest: string)
    requires forall i :: 0 <= i < |indent| ==> IsSpace(indent[i])
    ensures IsDefLine(indent + "def " + name + "(" + rest)
  {
    var line := indent + "def " + name + "(" + rest;
    var l := "def " + name + "(" + rest;
    LStripIndent(indent, l);
    assert line == indent + l;
    RStripKeepsPrefix(l, 4 + |name|);
  }

  lemma {:induction false} LStripIndent(indent: string, s: string)
    requires forall i :: 0 <= i < |indent| ==> IsSpace(indent[i])
    requires s != [] && !IsSpace(s[0])
    ensures LStrip(indent + s) == s
    decreases |indent|
  {
    if indent != [] {
      assert (indent + s)[1..] == indent[1..] + s;
      LStripIndent(indent[1..], s);
    }
  }

  lemma {:induction false} RStripKeepsPrefix(l: string, k: nat)
    requires StartsWith(l, "def ")
    requires 4 <= k < |l| && !IsSpace(l[k])
    ensures StartsWith(RStrip(l), "def ")
  {
    var r := RStrip(l);
    RStripPrefix(l);
    assert k < |r|;
    assert r[..4] == l[..4];
  }

  /** The first `(` of `head + "(" + rest` is the one after `head`, when
      `head` holds none. */
  lemma {:induction false} FindAfterFree(head: string, rest: string, paren: string)
    requires paren == "("
    requires !Contains(head, paren)
    ensures Find(head + paren + rest, paren) == |head|
  {
    var s := head + paren + rest;
    assert s[|head|..][..1] == paren;
    forall j | 0 <= j < |head| ensures !StartsWith(s[j..], paren) {
      assert s[j..][..1] == head[j..][..1];
    }
  }

  lemma {:induction false} FindDefAt(indent: string, name: string)
    requires forall i :: 0 <= i < |indent| ==> IsSpace(indent[i])
    ensures Find(indent + "def " + name, "def ") == |indent|
  {
    var s := indent + "def " + name;
    assert s[|indent|..][..4] == "def ";
    forall j | 0 <= j < |indent| ensures !StartsWith(s[j..], "def ") {
      assert s[j] == indent[j];
    }
  }

  lemma {:induction false} NoMatchBefore(s: string, sep: string)
    requires sep != [] && !Contains(s, sep)
    ensures Before(s, sep) == s
  {
  }

  /** A syntax tree, abstracted: function definitions with their name, and
      every other node, each with the nodes nested in it. */
  datatype Node =
    | FunctionDef(name: string, body: seq<Node>)
    | Other(kind: string, body: seq<Node>)

  /** `FunctionRemover(names).visit`: every function definition whose name is
      listed is dropped from the list that holds it, at any depth; every other
      node is kept, with the same removal applied inside it. */
  function Remove(n: Node, names: set<string>): Node
  {
    match n
    case FunctionDef(f, body) => FunctionDef(f, RemoveAll(body, names))
    case Other(k, body) => Other(k, RemoveAll(body, names))
  }

  function RemoveAll(nodes: seq<Node>, names: set<string>): (r: seq<Node>)
    ensures |r| <= |nodes|
  {
    if nodes == [] then []
    else
      var head := nodes[0];
      var rest := RemoveAll(nodes[1..], names);
      if head.FunctionDef? && head.name in names then rest
      else [Remove(head, names)] + rest
  }

  /** A listed function defined anywhere in the tree. */
  predicate Defines(n: Node, names: set<string>)
  {
    (n.FunctionDef? && n.name in names) || DefinesIn(n.body, names)
  }

  predicate DefinesIn(nodes: seq<Node>, names: set<string>)
  {
    exists i :: 0 <= i < |nodes| && Defines(nodes[i], names)
  }

  /** After the rewrite no listed function remains, at any depth. */
  lemma {:induction false} RemovedEverywhere(nodes: seq<Node>, names: set<string>)
    ensures !DefinesIn(RemoveAll(nodes, names), names)
    decreases nodes
  {
    if nodes != [] {
      RemovedEverywhere(nodes[1..], names);
      var head := nodes[0];
      if !(head.FunctionDef? && head.name in names) {
        RemovedEverywhere(head.body, names);
        var r := RemoveAll(nodes, names);
        assert r == [Remove(head, names)] + RemoveAll(nodes[1..], names);
        forall i | 0 <= i < |r| ensures !Defines(r[i], names) {
          if i > 0 { assert r[i] == RemoveAll(nodes[1..], names)[i - 1]; }
        }
      }
    }
  }

  /** A tree that defines no listed function comes back unchanged. */
  lemma {:induction false} NothingToRemove(nodes: seq<Node>, names: set<string>)
    requires !DefinesIn(nodes, names)
    ensures RemoveAll(nodes, names) == nodes
    decreases nodes
  {
    if nodes != [] {
      assert !Defines(nodes[0], names);
      assert !DefinesIn(nodes[1..], names) by {
        forall i | 0 <= i < |nodes[1..]| ensures !Defines(nodes[1..][i], names) {
          assert nodes[1..][i] == nodes[i + 1];
        }
      }
      NothingToRemove(nodes[1..], names);
      NothingToRemove(nodes[0].body, names);
      assert nodes == [nodes[0]] + nodes[1..];
    }
  }

  /** Removing twice removes nothing more. */
  lemma {:induction false} RemoveIdempotent(nodes: seq<Node>, names: set<string>)
    ensures RemoveAll(RemoveAll(nodes, names), names) == RemoveAll(nodes, names)
  {
    RemovedEverywhere(nodes, names);
    NothingToRemove(RemoveAll(nodes, names), names);
  }
}
