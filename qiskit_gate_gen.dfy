/** The stand-alone random gate generator: a fixed gate list and the loop
    that fills a list of statements from it. */
module QiskitGateGen {
  import opened Py
  import opened QiskitGates
  import QiskitCodeGen

  /** The gate list `create_random_gate` picks from, in four runs. */
  const GatePool: seq<GateClass> :=
    [Barrier, Ccx, Ccz, Cp, Cx, Crx, Cry, Crz, Cs, Csdg, Cswap, Csx]
    + [Cu, Cy, Cz, Dcx, Ecr, H, Id, Iswap, Mcp, Mcrx, Mcry, Mcrz]
    + [Mcx, Ms, P, R, Rcccx, Rccx, Rv, Rx, Rxx, Ry, Ryy, Rz]
    + [Rzx, Rzz, S, Sdg, Swap, Sx, Sxdg, T, Tdg, X, Y, Z]

  /** The classes the list leaves out. */
  predicate Excluded(g: GateClass)
  {
    g.Delay? || g.Initialize? || g.Measure? || g.Pauli? || g.PrepareState? || g.Reset? || g.Store? || g.U? || g.Unit?
  }

  /** None of Delay, Initialize, Measure, Pauli, PrepareState, Reset,
      Store, U and Unit is in the list. */
  lemma {:induction false} PoolExcludes()
    ensures forall i :: 0 <= i < |GatePool| ==> !Excluded(GatePool[i])
  {
  }

  /** `generate_qiskit_code`: the loop over the fixed list, as in the
      program generator, at most `attempts` tries. */
  method GenerateCode(circ: string, qreg: string, creg: string, maxQubits: int, maxBits: int, n: int, attempts: nat)
    returns (sts: seq<Statement>, tries: nat, ghost gates: seq<GateClass>)
    ensures |sts| <= Cap(n) && |sts| <= tries <= attempts
    ensures |sts| < Cap(n) ==> tries == attempts
    ensures |gates| == |sts|
    ensures forall i :: 0 <= i < |sts| ==> QiskitCodeGen.FromPool(sts[i], gates[i], GatePool, circ, qreg, creg, maxQubits, maxBits)
  {
    sts, tries, gates := QiskitCodeGen.FillStatements(GatePool, circ, qreg, creg, maxQubits, maxBits, n, attempts);
  }
}
