/** The random Qiskit program generator: a gate pool chosen by name, the
    loop that fills a program with statements of random gates, the text
    of a program file, and the numbering of the files a run writes. */
module QiskitCodeGen {
  import opened Py
  import opened PyStr
  import opened QiskitGates
  import opened Numbering

  // ---------------------------------------------------------------------
  // The gate pool

  /** `GATE_MAP` of the program generator: the classes of the gate module
      without Delay, Initialize, Measure, Ms, Pauli, PrepareState, Reset,
      Store, U and Unit. */
  const CodeGenMap: map<string, GateClass> := map[
    "barrier" := Barrier, "ccx" := Ccx, "ccz" := Ccz, "cp" := Cp, "cx" := Cx,
    "crx" := Crx, "cry" := Cry, "crz" := Crz, "cs" := Cs, "csdg" := Csdg,
    "cswap" := Cswap, "csx" := Csx, "cu" := Cu, "cy" := Cy, "cz" := Cz,
    "dcx" := Dcx, "ecr" := Ecr, "h" := H, "id" := Id, "iswap" := Iswap,
    "mcp" := Mcp, "mcrx" := Mcrx, "mcry" := Mcry, "mcrz" := Mcrz, "mcx" := Mcx,
    "p" := P, "r" := R, "rcccx" := Rcccx, "rccx" := Rccx, "rv" := Rv,
    "rx" := Rx, "rxx" := Rxx, "ry" := Ry, "ryy" := Ryy, "rz" := Rz,
    "rzx" := Rzx, "rzz" := Rzz, "s" := S, "sdg" := Sdg, "swap" := Swap,
    "sx" := Sx, "sxdg" := Sxdg, "t" := T, "tdg" := Tdg, "x" := X,
    "y" := Y, "z" := Z]

  /** `list(GATE_MAP.values())`, in the order the dict lists them. */
  const AllGates: seq<GateClass> := [
    Barrier, Ccx, Ccz, Cp, Cx, Crx, Cry, Crz, Cs, Csdg, Cswap, Csx, Cu, Cy, Cz,
    Dcx, Ecr, H, Id, Iswap, Mcp, Mcrx, Mcry, Mcrz, Mcx, P, R, Rcccx, Rccx, Rv,
    Rx, Rxx, Ry, Ryy, Rz, Rzx, Rzz, S, Sdg, Swap, Sx, Sxdg, T, Tdg, X, Y, Z]

  /** `[GATE_MAP[g] for g in gate_set] if gate_set else
      list(GATE_MAP.values())`: no gate set, or an empty one, means every
      gate. */
  function Pool(gateSet: Option<seq<string>>): Result<seq<GateClass>>
  {
    if gateSet.Some? && gateSet.value != [] then Lookup(CodeGenMap, gateSet.value) else Ok(AllGates)
  }

  /** The pool is never empty, so `random.choice` always has a gate to
      pick; it fails iff a name of the gate set is not in the map. */
  lemma {:induction false} PoolSpec(gateSet: Option<seq<string>>)
    ensures Pool(gateSet).Ok? ==> Pool(gateSet).value != []
    ensures Pool(gateSet).Err? <==> gateSet.Some? && exists i :: 0 <= i < |gateSet.value| && gateSet.value[i] !in CodeGenMap
  {
    if gateSet.Some? && gateSet.value != [] {
      LookupSpec(CodeGenMap, gateSet.value);
    }
  }

  // ---------------------------------------------------------------------
  // Statements

  /** A statement drawn by gate class `g` of the pool: the class fits the
      registers with the list length it drew, and drew the statement. */
  ghost predicate FromPool(st: Statement, g: GateClass, pool: seq<GateClass>, circ: string, qreg: string, creg: string,
                           maxQubits: int, maxBits: int)
  {
    && g in pool
    && Fits(TemplateOf(g), st.count, maxQubits, maxBits)
    && WellDrawn(st, TemplateOf(g), maxQubits, maxBits, circ, qreg, creg)
  }

  /** The `while len(statements) < num_statements` loop of
      `generate_qiskit_code` over a gate pool: each try picks a gate at
      random, instantiates it, and keeps the statement unless the gate
      raised ValueError. The loop stops once it has `n` statements or
      after `attempts` tries. */
  method FillStatements(pool: seq<GateClass>, circ: string, qreg: string, creg: string,
                        maxQubits: int, maxBits: int, n: int, attempts: nat)
    returns (sts: seq<Statement>, tries: nat, ghost gates: seq<GateClass>)
    requires pool != []
    ensures |sts| <= Cap(n) && |sts| <= tries <= attempts
    ensures |sts| < Cap(n) ==> tries == attempts
    ensures |gates| == |sts|
    ensures forall i :: 0 <= i < |sts| ==> FromPool(sts[i], gates[i], pool, circ, qreg, creg, maxQubits, maxBits)
  {
    sts, tries, gates := [], 0, [];
    while |sts| < n && tries < attempts
      invariant |sts| <= Cap(n) && |sts| <= tries <= attempts
      invariant |gates| == |sts|
      invariant forall i :: 0 <= i < |sts| ==> FromPool(sts[i], gates[i], pool, circ, qreg, creg, maxQubits, maxBits)
      decreases attempts - tries
    {
      var k :| 0 <= k < |pool|;
      var g := pool[k];
      var count, st := Instantiate(TemplateOf(g), circ, qreg, creg, maxQubits, maxBits);
      if st.Ok? {
        sts, gates := sts + [st.value], gates + [g];
      }
      tries := tries + 1;
    }
  }

  /** A slot among the first `k` counts toward what they draw. */
  lemma {:induction false} NeededAtLeast(slots: seq<Slot>, k: nat, count: nat, j: nat)
    requires j < k <= |slots|
    ensures QubitsNeeded(slots, k, count) >= SlotQubits(slots[j], count)
    decreases k
  {
    if j < k - 1 {
      NeededAtLeast(slots, k - 1, count, j);
    }
  }

  /** Every gate class draws at least one qubit, so none fits a register
      of no qubits. */
  lemma {:induction false} NeedsQubit(g: GateClass, count: nat, maxQubits: int, maxBits: int)
    requires TemplateOf(g).lo <= count && maxQubits <= 0
    ensures !Fits(TemplateOf(g), count, maxQubits, maxBits)
  {
    NeededSome(TemplateOf(g).slots, count);
  }

  /** Slots with a single qubit, or with a list of at least one, draw a
      qubit. */
  lemma {:induction false} NeededSome(slots: seq<Slot>, count: nat)
    requires Qubit in slots || (1 <= count && (Qubits(false) in slots || Qubits(true) in slots))
    ensures QubitsNeeded(slots, |slots|, count) >= 1
  {
    var j :| 0 <= j < |slots| && (slots[j] == Qubit || (slots[j].Qubits? && 1 <= count));
    NeededAtLeast(slots, |slots|, count, j);
  }

  /** With no qubits, no try ever yields a statement: the source's loop,
      which retries without bound, never ends when it needs one. */
  lemma {:induction false} EmptyRegisterYieldsNothing(sts: seq<Statement>, gates: seq<GateClass>, pool: seq<GateClass>,
                                   circ: string, qreg: string, creg: string, maxQubits: int, maxBits: int)
    requires maxQubits <= 0 && |gates| == |sts|
    requires forall i :: 0 <= i < |sts| ==> FromPool(sts[i], gates[i], pool, circ, qreg, creg, maxQubits, maxBits)
    ensures sts == []
  {
    if sts != [] {
      NeedsQubit(gates[0], sts[0].count, maxQubits, maxBits);
    }
  }

  /** `generate_qiskit_code`: with no statements asked for, it picks no
      gate and so raises nothing; otherwise an unknown gate name raises
      KeyError at the first try, and every statement comes from a gate of
      the pool. */
  method GenerateCode(circ: string, qreg: string, creg: string, maxQubits: int, maxBits: int, n: int,
                      gateSet: Option<seq<string>>, attempts: nat)
    returns (r: Result<seq<Statement>>, tries: nat, ghost gates: seq<GateClass>)
    ensures r.Err? <==> n > 0 && Pool(gateSet).Err?
    ensures r.Err? ==> r.exc == Pool(gateSet).exc
    ensures r.Ok? && n <= 0 ==> r.value == []
    ensures r.Ok? && n > 0 ==> && |r.value| <= n && |r.value| <= tries <= attempts
                               && (|r.value| < n ==> tries == attempts)
                               && |gates| == |r.value|
                               && forall i :: 0 <= i < |r.value| ==>
                                    FromPool(r.value[i], gates[i], Pool(gateSet).value, circ, qreg, creg, maxQubits, maxBits)
  {
    if n <= 0 {
      return Ok([]), 0, [];
    }
    var pool := Pool(gateSet);
    if pool.Err? {
      return Err(pool.exc), 0, [];
    }
    PoolSpec(gateSet);
    var sts;
    sts, tries, gates := FillStatements(pool.value, circ, qreg, creg, maxQubits, maxBits, n, attempts);
    r := Ok(sts);
  }

  // ---------------------------------------------------------------------
  // Program files

  const ImportLine := "from qiskit import QuantumRegister, ClassicalRegister, QuantumCircuit"
  const CircuitLine := "qc = QuantumCircuit(qr, cr)"
  const QuantumCircuitLine := "qc = QuantumCircuit(qr)"
  const MeasureLine := "qc.measure(qr, cr)"

  function QregLine(numQubits: int): string
  {
    "qr = QuantumRegister(" + IntToString(numQubits) + ", 'qr')"
  }

  function CregLine(numQubits: int): string
  {
    "cr = ClassicalRegister(" + IntToString(numQubits) + ", 'cr')"
  }

  /** The declarations a program starts with, one per line: the import,
      the quantum register, the classical register unless only quantum
      registers are asked for, and the circuit. */
  function HeaderLines(numQubits: int, onlyQregs: bool): seq<string>
  {
    [ImportLine, QregLine(numQubits)] + (if onlyQregs then [QuantumCircuitLine] else [CregLine(numQubits), CircuitLine])
  }

  /** Each line written with its newline. */
  function Terminated(lines: seq<string>): string
  {
    if lines == [] then "" else lines[0] + "\n" + Terminated(lines[1..])
  }

  /** The final measurement, when asked for and the circuit has a
      classical register. */
  function Footer(finalMeasure: bool, onlyQregs: bool): string
  {
    if finalMeasure && !onlyQregs then "\n" + MeasureLine + "\n" else ""
  }

  /** What `generate_qiskit_programs` writes to a program file: the
      declarations, the statements one per line, and the footer. */
  function ProgramText(numQubits: int, statements: seq<string>, finalMeasure: bool, onlyQregs: bool): string
  {
    Terminated(HeaderLines(numQubits, onlyQregs)) + Join("\n", statements) + Footer(finalMeasure, onlyQregs)
  }

  /** The lines of a program: the declarations (the classical register
      among them iff not only quantum registers are asked for), one line
      per statement (a single empty line when there is none), then the
      measurement and an empty last line iff a measurement is asked for
      and there is a classical register. */
  function Lines(numQubits: int, statements: seq<string>, finalMeasure: bool, onlyQregs: bool): seq<string>
  {
    HeaderLines(numQubits, onlyQregs)
    + (if statements == [] then [""] else statements)
    + (if finalMeasure && !onlyQregs then [MeasureLine, ""] else [])
  }

  lemma {:induction false} JoinCons(sep: string, x: string, rest: seq<string>)
    requires rest != []
    ensures Join(sep, [x] + rest) == x + sep + Join(sep, rest)
  {
    assert ([x] + rest)[1..] == rest;
  }

  /** Joining two runs of parts puts one separator between them. */
  lemma {:induction false} JoinAppend(sep: string, a: seq<string>, b: seq<string>)
    requires a != [] && b != []
    ensures Join(sep, a + b) == Join(sep, a) + sep + Join(sep, b)
    decreases |a|
  {
    if |a| == 1 {
      JoinCons(sep, a[0], b);
      assert a + b == [a[0]] + b;
    } else {
      var rest := a[1..];
      JoinAppend(sep, rest, b);
      JoinCons(sep, a[0], rest + b);
      JoinCons(sep, a[0], rest);
      assert a + b == [a[0]] + (rest + b);
      assert a == [a[0]] + rest;
    }
  }

  /** The shape of a program, whatever its declaration lines say. */
  lemma {:induction false} JoinLayout(head: seq<string>, statements: seq<string>, last: string, measure: bool)
    requires head != []
    ensures Join("\n", head + (if statements == [] then [""] else statements) + (if measure then [last, ""] else []))
         == Join("\n", head) + "\n" + Join("\n", statements) + (if measure then "\n" + last + "\n" else "")
  {
    var nl := "\n";
    var body := if statements == [] then [""] else statements;
    var foot := if measure then [last, ""] else [];
    assert Join(nl, body) == Join(nl, statements) by {
      if statements == [] {
        assert body == [""];
      }
    }
    if measure {
      JoinCons(nl, last, [""]);
      assert Join(nl, foot) == last + nl;
      JoinAppend(nl, head + body, foot);
    } else {
      assert head + body + foot == head + body;
    }
    JoinAppend(nl, head, body);
  }

  /** Lines written each with its newline are the lines joined by
      newlines, and one more newline. */
  lemma {:induction false} TerminatedJoin(lines: seq<string>)
    requires lines != []
    ensures Terminated(lines) == Join("\n", lines) + "\n"
    decreases |lines|
  {
    if |lines| > 1 {
      TerminatedJoin(lines[1..]);
      JoinCons("\n", lines[0], lines[1..]);
      assert lines == [lines[0]] + lines[1..];
    }
  }

  /** The text of a program is its lines joined by newlines. */
  lemma {:induction false} ProgramLines(numQubits: int, statements: seq<string>, finalMeasure: bool, onlyQregs: bool)
    ensures ProgramText(numQubits, statements, finalMeasure, onlyQregs)
         == Join("\n", Lines(numQubits, statements, finalMeasure, onlyQregs))
  {
    var head := HeaderLines(numQubits, onlyQregs);
    JoinLayout(head, statements, MeasureLine, finalMeasure && !onlyQregs);
    TerminatedJoin(head);
  }

  // ---------------------------------------------------------------------
  // A run of the generator

  /** The text of each statement. */
  function Texts(sts: seq<Statement>): (r: seq<string>)
    ensures |r| == |sts|
  {
    seq(|sts|, i requires 0 <= i < |sts| => sts[i].text)
  }

  /** The program numbered `index`: its stem is the number padded to
      seven digits, `_` and the suffix. */
  function Made(index: int, suffix: string, code: seq<Statement>, numQubits: int, finalMeasure: bool, onlyQregs: bool): Program
  {
    Program(ZFill(index, 7) + "_" + suffix, ProgramText(numQubits, Texts(code), finalMeasure, onlyQregs))
  }

  /** Programs made in a row, numbered from `start` on. */
  function MadeFrom(start: int, suffixes: seq<string>, codes: seq<seq<Statement>>,
                    numQubits: int, finalMeasure: bool, onlyQregs: bool): (r: seq<Program>)
    requires |suffixes| == |codes|
    ensures |r| == |suffixes|
  {
    seq(|suffixes|, k requires 0 <= k < |suffixes| => Made(start + k, suffixes[k], codes[k], numQubits, finalMeasure, onlyQregs))
  }

  /** The stems of programs made in a row are the names from the first
      index on. */
  lemma {:induction false} StemsOfMade(start: int, suffixes: seq<string>, codes: seq<seq<Statement>>,
                    numQubits: int, finalMeasure: bool, onlyQregs: bool)
    requires |suffixes| == |codes|
    ensures Stems(MadeFrom(start, suffixes, codes, numQubits, finalMeasure, onlyQregs)) == Names(start, suffixes)
  {
  }

  /** A run's stems continue the folder's numbering. */
  lemma {:induction false} NumberOn(stems: seq<string>, latest: nat, ps: seq<Program>, suffixes: seq<string>)
    requires LatestIndex(stems) == Ok(latest)
    requires Stems(ps) == Names(latest + 1, suffixes)
    ensures LatestIndex(stems + Stems(ps)) == Ok(latest + |ps|)
  {
    ContinueNumbering(stems, latest, suffixes);
  }

  /** The statements of one program, as `generate_qiskit_programs`
      asks for them: circuit `qc`, registers `qr` and `cr`, as many
      clbits as qubits. */
  method ProgramCode(numQubits: int, numGates: int, gateSet: Option<seq<string>>, attempts: nat)
    returns (r: Result<seq<Statement>>)
    ensures r.Err? <==> numGates > 0 && Pool(gateSet).Err?
    ensures r.Err? ==> r.exc == Pool(gateSet).exc
    ensures r.Ok? ==> |r.value| <= Cap(numGates)
  {
    var tries;
    ghost var gates;
    r, tries, gates := GenerateCode("qc", "qr", "cr", numQubits, numQubits, numGates, gateSet, attempts);
  }

  /** The loop of `generate_qiskit_programs`: programs numbered from
      `start` on, each with the statements the gate loop drew. */
  method WritePrograms(start: int, numQubits: int, numGates: int, finalMeasure: bool,
                       numPrograms: int, onlyQregs: bool, gateSet: Option<seq<string>>, attempts: nat)
    returns (r: Result<seq<Program>>, ghost suffixes: seq<string>, ghost codes: seq<seq<Statement>>)
    ensures r.Err? <==> numPrograms > 0 && numGates > 0 && Pool(gateSet).Err?
    ensures r.Err? ==> r.exc == Pool(gateSet).exc
    ensures r.Ok? ==> && |r.value| == Cap(numPrograms) == |suffixes| == |codes|
                      && (forall k :: 0 <= k < |r.value| ==> IsHexSuffix(suffixes[k]) && |codes[k]| <= Cap(numGates))
                      && r.value == MadeFrom(start, suffixes, codes, numQubits, finalMeasure, onlyQregs)
  {
    var drawnSuffixes: seq<string> := [];
    var drawnCodes: seq<seq<Statement>> := [];
    var i := 0;
    while i < numPrograms
      invariant 0 <= i <= Cap(numPrograms)
      invariant |drawnSuffixes| == i == |drawnCodes|
      invariant forall k :: 0 <= k < i ==> IsHexSuffix(drawnSuffixes[k]) && |drawnCodes[k]| <= Cap(numGates)
      invariant i > 0 ==> !(numGates > 0 && Pool(gateSet).Err?)
    {
      var code := ProgramCode(numQubits, numGates, gateSet, attempts);
      if code.Err? {
        return Err(code.exc), drawnSuffixes, drawnCodes;
      }
      var suffix := RandomSuffix();
      drawnSuffixes, drawnCodes := drawnSuffixes + [suffix], drawnCodes + [code.value];
      i := i + 1;
    }
    suffixes, codes := drawnSuffixes, drawnCodes;
    r := Ok(MadeFrom(start, drawnSuffixes, drawnCodes, numQubits, finalMeasure, onlyQregs));
  }

  /** `generate_qiskit_programs`: the programs a run writes, given the
      stems of the `.py` files already in the output folder. A stem that
      does not start with a number raises ValueError before anything is
      written; an unknown gate name raises KeyError at the first program.
      Otherwise the run writes `numPrograms` programs, numbered on from
      the latest index, whose texts hold the statements the gate loop
      drew; a later run over the same folder numbers on from the last of
      them. */
  method GeneratePrograms(stems: seq<string>, numQubits: int, numGates: int, finalMeasure: bool,
                          numPrograms: int, onlyQregs: bool, gateSet: Option<seq<string>>, attempts: nat)
    returns (r: Result<seq<Program>>, ghost suffixes: seq<string>, ghost codes: seq<seq<Statement>>)
    ensures LatestIndex(stems).Err? ==> r == Err(LatestIndex(stems).exc)
    ensures LatestIndex(stems).Ok? ==> (r.Err? <==> numPrograms > 0 && numGates > 0 && Pool(gateSet).Err?)
    ensures LatestIndex(stems).Ok? && r.Err? ==> r.exc == Pool(gateSet).exc
    ensures r.Ok? ==> && |r.value| == Cap(numPrograms) == |suffixes| == |codes|
                      && (forall i :: 0 <= i < |suffixes| ==> IsHexSuffix(suffixes[i]) && |codes[i]| <= Cap(numGates))
                      && r.value == MadeFrom(LatestIndex(stems).value + 1, suffixes, codes, numQubits, finalMeasure, onlyQregs)
    ensures r.Ok? && LatestIndex(stems).value >= 0 ==>
              LatestIndex(stems + Stems(r.value)) == Ok(LatestIndex(stems).value + |r.value|)
  {
    var latest := LatestIndex(stems);
    if latest.Err? {
      return Err(latest.exc), [], [];
    }
    var start := latest.value + 1;
    r, suffixes, codes := WritePrograms(start, numQubits, numGates, finalMeasure, numPrograms, onlyQregs, gateSet, attempts);
    if r.Ok? && latest.value >= 0 {
      MadeNumberOn(stems, latest.value, r.value, suffixes, codes, numQubits, finalMeasure, onlyQregs);
    }
  }

  /** The programs made after the folder's latest index continue its
      numbering. */
  lemma MadeNumberOn(stems: seq<string>, latest: nat, ps: seq<Program>, suffixes: seq<string>, codes: seq<seq<Statement>>,
                     numQubits: int, finalMeasure: bool, onlyQregs: bool)
    requires LatestIndex(stems) == Ok(latest) && |suffixes| == |codes|
    requires ps == MadeFrom(latest + 1, suffixes, codes, numQubits, finalMeasure, onlyQregs)
    ensures LatestIndex(stems + Stems(ps)) == Ok(latest + |ps|)
  {
    StemsOfMade(latest + 1, suffixes, codes, numQubits, finalMeasure, onlyQregs);
    NumberOn(stems, latest, ps, suffixes);
  }
}
