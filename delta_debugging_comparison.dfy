/** qite/delta_debugging_comparison.py: finding where two provenance chains
    part, replaying both chains on a candidate and comparing the verdict of
    the equivalence checker with the original one. */
module DeltaDebuggingComparison {
  import opened Py
  import opened PyStr
  import PyPath
  import Qcec

  /** One step of a provenance chain (a metadata record). */
  datatype ProvNode = ProvNode(inputQasm: string, outputQasm: string, platform: string)

  /** The files a chain produced. */
  function Outputs(tree: seq<ProvNode>): set<string>
  {
    if tree == [] then {} else {tree[0].outputQasm} + Outputs(tree[1..])
  }

  /** A file is among the outputs exactly when some node produced it. */
  lemma {:induction false} OutputsSpec(tree: seq<ProvNode>)
    ensures forall o :: o in Outputs(tree) <==> exists i :: 0 <= i < |tree| && tree[i].outputQasm == o
  {
    if tree != [] {
      OutputsSpec(tree[1..]);
      forall o ensures o in Outputs(tree) <==> exists i :: 0 <= i < |tree| && tree[i].outputQasm == o {
        if o in Outputs(tree[1..]) {
          var i :| 0 <= i < |tree[1..]| && tree[1..][i].outputQasm == o;
          assert tree[i + 1].outputQasm == o;
        }
        if exists i :: 0 <= i < |tree| && tree[i].outputQasm == o {
          var i :| 0 <= i < |tree| && tree[i].outputQasm == o;
          if i > 0 { assert tree[1..][i - 1].outputQasm == o; }
        }
      }
    }
  }

  /** The first node of `tree` whose output is in `outs`. */
  function FirstOutputIn(tree: seq<ProvNode>, outs: set<string>): (r: Option<nat>)
    ensures r.Some? ==> r.value < |tree| && tree[r.value].outputQasm in outs
    ensures r.Some? ==> forall j :: 0 <= j < r.value ==> tree[j].outputQasm !in outs
    ensures r.None? ==> forall j :: 0 <= j < |tree| ==> tree[j].outputQasm !in outs
  {
    if tree == [] then None
    else if tree[0].outputQasm in outs then Some(0)
    else match FirstOutputIn(tree[1..], outs)
      case None => None
      case Some(k) => Some(k + 1)
  }

  /** find_common_ancestor: with one chain empty (a generated program), the
      other chain's first node; with both empty, `tree2[0]` fails; otherwise
      the first node of the second chain that produced a file the first chain
      also produced, or nothing (`{}`). */
  function CommonAncestor(tree1: seq<ProvNode>, tree2: seq<ProvNode>): (r: Result<Option<ProvNode>>)
    ensures tree1 == [] && tree2 == [] <==> r.Err?
    ensures tree1 == [] && tree2 != [] ==> r == Ok(Some(tree2[0]))
    ensures tree1 != [] && tree2 == [] ==> r == Ok(Some(tree1[0]))
  {
    if tree1 == [] then (if tree2 == [] then Err(IndexError("list index out of range")) else Ok(Some(tree2[0])))
    else if tree2 == [] then Ok(Some(tree1[0]))
    else match FirstOutputIn(tree2, Outputs(tree1))
      case None => Ok(None)
      case Some(k) => Ok(Some(tree2[k]))
  }

  /** With both chains non-empty the ancestor is a node of the second chain
      whose output the first chain also produced, and no earlier node of the
      second chain is one; there is none exactly when the chains share no
      output. */
  lemma {:induction false} CommonAncestorShared(tree1: seq<ProvNode>, tree2: seq<ProvNode>)
    requires tree1 != [] && tree2 != []
    ensures var r := CommonAncestor(tree1, tree2);
      && r.Ok?
      && (r.value.None? <==> forall j, i :: 0 <= j < |tree2| && 0 <= i < |tree1| ==> tree2[j].outputQasm != tree1[i].outputQasm)
      && (r.value.Some? ==> r.value.value in tree2 && exists i :: 0 <= i < |tree1| && tree1[i].outputQasm == r.value.value.outputQasm)
  {
    var outs := Outputs(tree1);
    OutputsSpec(tree1);
    var k := FirstOutputIn(tree2, outs);
    if k.None? {
      forall j, i | 0 <= j < |tree2| && 0 <= i < |tree1| ensures tree2[j].outputQasm != tree1[i].outputQasm {
        assert tree1[i].outputQasm in outs;
      }
    } else {
      assert tree2[k.value].outputQasm in outs;
    }
  }

  /** find_common_ancestor, as the source writes it: the outputs of the
      first chain collected into a set, then a scan of the second. */
  method FindCommonAncestor(tree1: seq<ProvNode>, tree2: seq<ProvNode>) returns (r: Result<Option<ProvNode>>)
    ensures r == CommonAncestor(tree1, tree2)
  {
    if |tree1| == 0 {
      if |tree2| == 0 { return Err(IndexError("list index out of range")); }
      return Ok(Some(tree2[0]));
    }
    if |tree2| == 0 {
      return Ok(Some(tree1[0]));
    }
    var set1: set<string> := {};
    for i := 0 to |tree1|
      invariant set1 == Outputs(tree1[..i])
    {
      OutputsAppend(tree1[..i], tree1[i]);
      assert tree1[..i + 1] == tree1[..i] + [tree1[i]];
      set1 := set1 + {tree1[i].outputQasm};
    }
    assert tree1[..|tree1|] == tree1;
    for j := 0 to |tree2|
      invariant forall l :: 0 <= l < j ==> tree2[l].outputQasm !in set1
    {
      if tree2[j].outputQasm in set1 {
        FirstOutputAt(tree2, set1, j);
        return Ok(Some(tree2[j]));
      }
    }
    return Ok(None);
  }

  lemma {:induction false} OutputsAppend(tree: seq<ProvNode>, n: ProvNode)
    ensures Outputs(tree + [n]) == Outputs(tree) + {n.outputQasm}
  {
    var t := tree + [n];
    OutputsSpec(t);
    OutputsSpec(tree);
    forall o ensures o in Outputs(t) <==> o in Outputs(tree) + {n.outputQasm} {
      if o in Outputs(t) {
        var i :| 0 <= i < |t| && t[i].outputQasm == o;
        if i < |tree| { assert tree[i] == t[i]; }
      }
      if o in Outputs(tree) {
        var i :| 0 <= i < |tree| && tree[i].outputQasm == o;
        assert t[i] == tree[i];
      }
      if o == n.outputQasm { assert t[|tree|] == n; }
    }
  }

  lemma {:induction false} FirstOutputAt(tree: seq<ProvNode>, outs: set<string>, j: nat)
    requires j < |tree| && tree[j].outputQasm in outs
    requires forall l :: 0 <= l < j ==> tree[l].outputQasm !in outs
    ensures FirstOutputIn(tree, outs) == Some(j)
  {
  }

  /** The suffix of `tree` from its first node reading `inputQasm`, or []. */
  function FromFirstInput(tree: seq<ProvNode>, inputQasm: string): (r: seq<ProvNode>)
    ensures |r| <= |tree|
    ensures r != [] ==> r[0].inputQasm == inputQasm
  {
    if tree == [] then []
    else if tree[0].inputQasm == inputQasm then tree
    else FromFirstInput(tree[1..], inputQasm)
  }

  /** What is dropped before the collected suffix holds no node reading
      `inputQasm`, and the suffix is the rest of the chain. */
  lemma {:induction false} FromFirstInputSkips(tree: seq<ProvNode>, inputQasm: string)
    ensures var r := FromFirstInput(tree, inputQasm);
      && r == tree[|tree| - |r|..]
      && forall j :: 0 <= j < |tree| - |r| ==> tree[j].inputQasm != inputQasm
    decreases |tree|
  {
    if tree != [] && tree[0].inputQasm != inputQasm {
      FromFirstInputSkips(tree[1..], inputQasm);
      var r := FromFirstInput(tree, inputQasm);
      assert tree[1..][|tree| - 1 - |r|..] == tree[|tree| - |r|..];
      forall j | 1 <= j < |tree| - |r| ensures tree[j].inputQasm != inputQasm {
        assert tree[1..][j - 1] == tree[j];
      }
    }
  }

  /** get_nodes_from_ancestor: a flag that turns on at the first node with
      the ancestor's input, and every node from there on collected. */
  method GetNodesFromAncestor(tree: seq<ProvNode>, ancestor: ProvNode) returns (nodes: seq<ProvNode>)
    ensures nodes == FromFirstInput(tree, ancestor.inputQasm)
  {
    nodes := [];
    var startCollecting := false;
    ghost var start := 0;
    for i := 0 to |tree|
      invariant !startCollecting ==> nodes == [] && forall j :: 0 <= j < i ==> tree[j].inputQasm != ancestor.inputQasm
      invariant startCollecting ==> start < i && nodes == tree[start..i]
      invariant startCollecting ==> FromFirstInput(tree, ancestor.inputQasm) == tree[start..]
    {
      if tree[i].inputQasm == ancestor.inputQasm {
        if !startCollecting {
          FromFirstInputAt(tree, ancestor.inputQasm, i);
          start := i;
        }
        startCollecting := true;
      }
      if startCollecting {
        SliceExtend(tree, start, i);
        nodes := nodes + [tree[i]];
      }
    }
    if !startCollecting {
      FromFirstInputNone(tree, ancestor.inputQasm);
    }
  }

  lemma {:induction false} SliceExtend<T>(s: seq<T>, a: nat, b: nat)
    requires a <= b < |s|
    ensures s[a..b + 1] == s[a..b] + [s[b]]
  {
  }

  lemma {:induction false} FromFirstInputAt(tree: seq<ProvNode>, inputQasm: string, i: nat)
    requires i < |tree| && tree[i].inputQasm == inputQasm
    requires forall j :: 0 <= j < i ==> tree[j].inputQasm != inputQasm
    ensures FromFirstInput(tree, inputQasm) == tree[i..]
    decreases i
  {
    if i > 0 {
      FromFirstInputAt(tree[1..], inputQasm, i - 1);
      assert tree[1..][i - 1..] == tree[i..];
    }
  }

  lemma {:induction false} FromFirstInputNone(tree: seq<ProvNode>, inputQasm: string)
    requires forall j :: 0 <= j < |tree| ==> tree[j].inputQasm != inputQasm
    ensures FromFirstInput(tree, inputQasm) == []
    decreases |tree|
  {
    if tree != [] {
      FromFirstInputNone(tree[1..], inputQasm);
    }
  }

  /** The file name write_tree_to_disk gives node `idx` (counting from 0). */
  function NodeFileName(folder: string, treeName: string, idx: nat): string
  {
    PyPath.Join(folder, treeName + "_node" + NatToString(idx + 1) + ".json")
  }

  /** The names of the first `n` node files. */
  function NodeFileNames(folder: string, treeName: string, n: nat): (r: seq<string>)
    ensures |r| == n
  {
    if n == 0 then [] else NodeFileNames(folder, treeName, n - 1) + [NodeFileName(folder, treeName, n - 1)]
  }

  lemma {:induction false} NodeFileNamesAt(folder: string, treeName: string, n: nat, i: nat)
    requires i < n
    ensures NodeFileNames(folder, treeName, n)[i] == NodeFileName(folder, treeName, i)
    decreases n
  {
    if i < n - 1 {
      NodeFileNamesAt(folder, treeName, n - 1, i);
    }
  }

  /** Two nodes of one chain never share a file. */
  lemma {:induction false} NodeFileNamesDistinct(folder: string, treeName: string, a: nat, b: nat)
    requires a != b
    ensures NodeFileName(folder, treeName, a) != NodeFileName(folder, treeName, b)
  {
    var sa, sb := NatToString(a + 1), NatToString(b + 1);
    var pre := folder + "/" + treeName + "_node";
    var na, nb := pre + sa + ".json", pre + sb + ".json";
    assert NodeFileName(folder, treeName, a) == na;
    assert NodeFileName(folder, treeName, b) == nb;
    assert sa != sb;
    DiffersInMiddle(pre, sa, sb, ".json");
  }

  /** Strings with a common prefix and suffix differ when their middles do. */
  lemma DiffersInMiddle(pre: string, sa: string, sb: string, suf: string)
    requires sa != sb
    ensures pre + sa + suf != pre + sb + suf
  {
    var na, nb := pre + sa + suf, pre + sb + suf;
    if |sa| == |sb| {
      var k :| 0 <= k < |sa| && sa[k] != sb[k];
      assert na[|pre| + k] == sa[k];
      assert nb[|pre| + k] == sb[k];
    }
  }

  /** What one write put on disk: the path and the node dumped there. */
  datatype Write = Write(path: string, node: ProvNode)

  /** The writes made when node `i` goes to `names[i]`, in order. */
  function WritesFor(names: seq<string>, tree: seq<ProvNode>): (w: seq<Write>)
    requires |names| == |tree|
    ensures |w| == |tree|
  {
    if tree == [] then []
    else WritesFor(names[..|names| - 1], tree[..|tree| - 1]) + [Write(names[|names| - 1], tree[|tree| - 1])]
  }

  lemma {:induction false} WritesForAt(names: seq<string>, tree: seq<ProvNode>, i: nat)
    requires |names| == |tree| && i < |tree|
    ensures WritesFor(names, tree)[i] == Write(names[i], tree[i])
    decreases |tree|
  {
    var n := |tree| - 1;
    if i < n {
      WritesForAt(names[..n], tree[..n], i);
    }
  }

  /** The temporary folder the comparison works in, as the list of the
      writes made to it. */
  class Sandbox {
    var writes: seq<Write>
    const tmpdir: string

    constructor (tmpdir: string)
      ensures this.tmpdir == tmpdir && writes == []
    {
      this.tmpdir := tmpdir;
      writes := [];
    }

    /** write_tree_to_disk: node `idx` dumped to `{tree_name}_node{idx+1}.json`,
        and the list of those names, in order. */
    method WriteTreeToDisk(tree: seq<ProvNode>, treeName: string) returns (filenames: seq<string>)
      modifies this
      ensures filenames == NodeFileNames(tmpdir, treeName, |tree|)
      ensures writes == old(writes) + WritesFor(filenames, tree)
    {
      filenames := [];
      for idx := 0 to |tree|
        invariant filenames == NodeFileNames(tmpdir, treeName, idx)
        invariant writes == old(writes) + WritesFor(filenames, tree[..idx])
      {
        var outputPath := NodeFileName(tmpdir, treeName, idx);
        assert (filenames + [outputPath])[..idx] == filenames;
        assert tree[..idx + 1][..idx] == tree[..idx];
        writes := writes + [Write(outputPath, tree[idx])];
        filenames := filenames + [outputPath];
      }
      assert tree[..|tree|] == tree;
    }
  }

  /** Each node of the chain is written, in order, to a file of its own. */
  lemma {:induction false} WrittenTreeFiles(folder: string, tree: seq<ProvNode>, treeName: string, filenames: seq<string>)
    requires filenames == NodeFileNames(folder, treeName, |tree|)
    ensures forall i :: 0 <= i < |tree| ==> filenames[i] == NodeFileName(folder, treeName, i)
    ensures forall i :: 0 <= i < |tree| ==> WritesFor(filenames, tree)[i] == Write(filenames[i], tree[i])
    ensures forall i, j :: 0 <= i < j < |tree| ==> WritesFor(filenames, tree)[i].path != WritesFor(filenames, tree)[j].path
  {
    forall i | 0 <= i < |tree| ensures WritesFor(filenames, tree)[i] == Write(filenames[i], tree[i]) {
      WritesForAt(filenames, tree, i);
    }
    forall i | 0 <= i < |tree| ensures filenames[i] == NodeFileName(folder, treeName, i) {
      NodeFileNamesAt(folder, treeName, |tree|, i);
    }
    forall i, j | 0 <= i < j < |tree| ensures filenames[i] != filenames[j] {
      NodeFileNamesDistinct(folder, treeName, i, j);
    }
  }

  /** The two files the checker compares: the last output of each chain, or
      for an empty chain the first input of the other one; with both chains
      empty the lookup fails. */
  function ComparedFiles(tree1: seq<ProvNode>, tree2: seq<ProvNode>): (r: Result<(string, string)>)
    ensures r.Err? <==> tree1 == [] && tree2 == []
    ensures tree1 != [] && tree2 != [] ==>
      r == Ok((PyPath.Name(tree1[|tree1| - 1].outputQasm), PyPath.Name(tree2[|tree2| - 1].outputQasm)))
  {
    if tree1 == [] && tree2 == [] then Err(IndexError("list index out of range"))
    else
      var q1 := if tree1 == [] then tree2[0].inputQasm else tree1[|tree1| - 1].outputQasm;
      var q2 := if tree2 == [] then tree1[0].inputQasm else tree2[|tree2| - 1].outputQasm;
      Ok((PyPath.Name(q1), PyPath.Name(q2)))
  }

  /** The inner repro_func: `replays` holds what replaying each chain raised
      (if anything), `verdict` what the checker returned or raised. `true`
      ("not reproduced") as soon as a replay raises; otherwise `false`
      exactly when the recomputed verdict equals the original one. */
  function ReproFunc(replays: seq<Option<Exception>>, verdict: Result<Qcec.Equivalence>, originalResult: string): (notReproduced: bool)
    ensures (exists i :: 0 <= i < |replays| && replays[i].Some?) ==> notReproduced
    ensures (forall i :: 0 <= i < |replays| ==> replays[i].None?) ==>
      (notReproduced <==> Qcec.VerdictText(verdict) != originalResult)
  {
    if replays == [] then Qcec.VerdictText(verdict) != originalResult
    else if replays[0].Some? then true
    else
      assert forall i :: 1 <= i < |replays| ==> replays[1..][i - 1] == replays[i];
      ReproFunc(replays[1..], verdict, originalResult)
  }

  /** A checker failure reproduces only an original verdict that is itself
      an error text. */
  lemma {:induction false} CheckerErrorVerdict(e: Exception, originalResult: string)
    requires !StartsWith(originalResult, "error: ")
    ensures ReproFunc([None, None], Err(e), originalResult)
  {
    var s := Qcec.VerdictText(Err(e));
  }

  /** The number of runs that reproduced the failure. */
  function CountReproduced(outcomes: seq<bool>): (n: nat)
    ensures n <= |outcomes|
  {
    if outcomes == [] then 0 else (if outcomes[0] then 0 else 1) + CountReproduced(outcomes[1..])
  }

  lemma {:induction false} CountAllReproduced(outcomes: seq<bool>)
    ensures CountReproduced(outcomes) == |outcomes| <==> forall i :: 0 <= i < |outcomes| ==> !outcomes[i]
    decreases |outcomes|
  {
    if outcomes != [] {
      CountAllReproduced(outcomes[1..]);
      assert forall i :: 1 <= i < |outcomes| ==> outcomes[1..][i - 1] == outcomes[i];
    }
  }

  const ReproRuns: nat := 10

  /** The reproducibility gate: the ten preliminary runs (each the outcome
      of one repro_func call) must all reproduce, or the `assert` fails with
      an AssertionError before any minimisation. */
  method ReproducibilityGate(outcomes: seq<bool>) returns (r: Result<nat>)
    requires |outcomes| == ReproRuns
    ensures r.Ok? <==> forall i :: 0 <= i < |outcomes| ==> !outcomes[i]
    ensures r.Err? ==> r.exc == AssertionError
    ensures r.Ok? ==> r.value == ReproRuns
  {
    var nSuccRepros := 0;
    for i := 0 to |outcomes|
      invariant nSuccRepros == CountReproduced(outcomes[..i])
    {
      CountAppend(outcomes[..i], outcomes[i]);
      assert outcomes[..i + 1] == outcomes[..i] + [outcomes[i]];
      nSuccRepros := nSuccRepros + (if !outcomes[i] then 1 else 0);
    }
    assert outcomes[..|outcomes|] == outcomes;
    CountAllReproduced(outcomes);
    if nSuccRepros != ReproRuns {
      return Err(AssertionError);
    }
    return Ok(nSuccRepros);
  }

  /** The gate on replays that always raise, as the chain replay of
      qite/qite_replay.py does when it reaches a processor without a round
      number: each preliminary run has a chain replay that raised, so each
      reports "not reproduced" and the gate raises AssertionError. */
  method GateWithRaisingReplays(runs: seq<seq<Option<Exception>>>, verdicts: seq<Result<Qcec.Equivalence>>,
                                originalResult: string) returns (r: Result<nat>)
    requires |runs| == ReproRuns && |verdicts| == ReproRuns
    requires forall k :: 0 <= k < |runs| ==> exists i :: 0 <= i < |runs[k]| && runs[k][i].Some?
    ensures r == Err(AssertionError)
  {
    var outcomes := seq(ReproRuns, k requires 0 <= k < ReproRuns => ReproFunc(runs[k], verdicts[k], originalResult));
    assert outcomes[0];
    r := ReproducibilityGate(outcomes);
  }

  lemma {:induction false} CountAppend(outcomes: seq<bool>, b: bool)
    ensures CountReproduced(outcomes + [b]) == CountReproduced(outcomes) + (if b then 0 else 1)
    decreases |outcomes|
  {
    if outcomes == [] {
      assert [b][1..] == [];
    } else {
      assert (outcomes + [b])[1..] == outcomes[1..] + [b];
      CountAppend(outcomes[1..], b);
    }
  }
}
