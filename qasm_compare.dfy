/** validate/functions_qasm_compare.py: the acceptance rule the oracle
    functions apply to the equivalence checker's verdict on two QASM files. */
module QasmCompare {
  import opened Py
  import opened PyStr
  import Qcec

  /** The verdict texts under which two circuits count as the same. */
  predicate AcceptedText(t: string)
  {
    t == "equivalent" || t == "equivalent_up_to_global_phase"
  }

  const NotEquivalent: string := "The circuits are not equivalent: "

  function NotEquivalentMessage(pathA: string, pathB: string): string
  {
    NotEquivalent + pathA + ", " + pathB
  }

  /** compare_qasm_via_qcec: `verdict` is what the checker returned for the
      two files, or what it raised. The function returns normally (`Ok(())`)
      exactly when the verdict is full equivalence or equivalence up to a
      global phase; every other verdict raises a ValueError naming both
      files, and an exception of the checker passes through unchanged. */
  function CompareQasm(pathA: string, pathB: string, verdict: Result<Qcec.Equivalence>): (r: Result<()>)
    ensures r.Ok? <==> verdict.Ok? && verdict.value in {Qcec.Equivalent, Qcec.EquivalentUpToGlobalPhase}
    ensures verdict.Err? ==> r == Err(verdict.exc)
    ensures verdict.Ok? && r.Err? ==> r.exc.ValueError?
  {
    match verdict
    case Err(x) => Err(x)
    case Ok(e) =>
      if AcceptedText(Qcec.Text(e)) then Ok(())
      else Err(ValueError(NotEquivalentMessage(pathA, pathB)))
  }

  /** A rejected verdict's message names both files, the first before the
      second. */
  lemma {:induction false} RejectionNamesBothFiles(pathA: string, pathB: string, verdict: Result<Qcec.Equivalence>)
    requires verdict.Ok? && CompareQasm(pathA, pathB, verdict).Err?
    ensures var m := Message(CompareQasm(pathA, pathB, verdict).exc);
      && StartsWith(m, NotEquivalent)
      && StartsWith(m[|NotEquivalent|..], pathA) && Contains(m, pathA)
      && StartsWith(m[|NotEquivalent| + |pathA| + 2..], pathB) && Contains(m, pathB)
  {
    var m := NotEquivalentMessage(pathA, pathB);
    var a, b := |NotEquivalent|, |NotEquivalent| + |pathA| + 2;
    assert m[..a] == NotEquivalent;
    assert m[a..][..|pathA|] == pathA;
    assert m[b..] == pathB;
    ContainsAt(m, pathA, a);
    ContainsAt(m, pathB, b);
  }
}
