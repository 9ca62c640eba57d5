/** The first OpenQASM 2 generator: the same line buffer as the current
    one, over a fixed pool of four gates, always with a classical
    register, and with the final measurement iff asked for. */
module LegacyQasmCodeGen {
  import opened Py
  import opened PyStr
  import QiskitGates
  import opened QasmGates
  import opened QasmCodeGen

  /** `[H(), CX(), RX(), U3()]`: no parameter is rounded. */
  const LegacyGates: seq<QasmGate> :=
    [QasmGate("h", 1, 0, false), QasmGate("cx", 2, 0, false), QasmGate("rx", 1, 1, false), QasmGate("u3", 1, 3, false)]

  /** The pool is well formed, and each of its gates is the gate of the
      same name in the current generator's gate map. */
  lemma {:induction false} LegacyPool()
    ensures |LegacyGates| == 4 && PoolWellFormed(LegacyGates)
    ensures "h" in GateMap && GateMap["h"] == LegacyGates[0]
    ensures "cx" in GateMap && GateMap["cx"] == LegacyGates[1]
    ensures "rx" in GateMap && GateMap["rx"] == LegacyGates[2]
    ensures "u3" in GateMap && GateMap["u3"] == LegacyGates[3]
  {
    assert Word("h") && Word("cx") && Word("rx") && Word("u3");
    FirstGeneratorEntries();
  }

  /** Every gate of the pool fits iff the register has two qubits or more
      (the two-qubit `cx` is the largest). */
  lemma {:induction false} LegacyFit(numQubits: int)
    ensures AllFit(LegacyGates, numQubits) <==> numQubits >= 2
  {
    if AllFit(LegacyGates, numQubits) {
      assert LegacyGates[1].numQubits <= QiskitGates.Cap(numQubits);
    }
  }

  /** `QASMCodeGenerator(num_qubits, seed)`: the fixed pool, a classical
      register, an empty buffer. */
  method NewLegacyGenerator(numQubits: int) returns (gen: QasmCodeGenerator)
    ensures fresh(gen) && gen.Valid() && gen.qasmCode == []
    ensures gen.gates == LegacyGates && gen.numQubits == numQubits && !gen.onlyQregs
  {
    LegacyPool();
    gen := new QasmCodeGenerator(numQubits, LegacyGates, false);
  }

  /** A fresh generator's `generate_random_qasm(num_gates, final_measure)`
      followed by `get_qasm_code()`: on two qubits or more it succeeds,
      and the program splits into the two header lines, `qreg` and
      `creg`, one line per gate and the measurement iff asked for. Only a
      draw of a gate larger than the register fails. */
  method GenerateLegacyQasm(numQubits: int, numGates: int, finalMeasure: bool)
    returns (code: string, r: Result<()>, ghost drawn: seq<Drawn>)
    ensures DrawnFrom(drawn, LegacyGates, numQubits)
    ensures numQubits >= 2 ==> r.Ok?
    ensures r.Err? ==> r.exc == ValueError(SampleTooLarge) && numQubits < 2
    ensures r.Ok? ==> && |drawn| == QiskitGates.Cap(numGates)
                      && Split(code, '\n') == ProgramLines(numQubits, false, drawn, finalMeasure)
                      && |Split(code, '\n')| == 4 + QiskitGates.Cap(numGates) + (if finalMeasure then 1 else 0)
  {
    var gen := NewLegacyGenerator(numQubits);
    r, drawn := gen.GenerateRandomQasm(numGates, finalMeasure);
    code := gen.QasmCode();
    LegacyFit(numQubits);
    if r.Ok? {
      assert gen.qasmCode == ProgramLines(numQubits, false, drawn, finalMeasure);
      ProgramReadsBack(numQubits, false, drawn, finalMeasure, LegacyGates);
    }
  }
}
