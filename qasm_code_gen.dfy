/** The random OpenQASM 2 program generator: a buffer of lines that the
    generator fills with a header, the register declarations, random gate
    lines and an optional final measurement, and the run that writes
    numbered `.qasm` files continuing the numbering of the output folder. */
module QasmCodeGen {
  import opened Py
  import opened PyStr
  import QiskitGates
  import opened QasmGates
  import opened Numbering

  const HeaderLines: seq<string> := ["OPENQASM 2.0;", "include \"qelib1.inc\";"]
  const MeasureLine := "measure q -> c;"

  /** `qreg q[n];` and, unless only quantum registers are asked for,
      `creg c[n];`. */
  function RegisterLines(numQubits: int, onlyQregs: bool): seq<string>
  {
    ["qreg q[" + IntToString(numQubits) + "];"]
      + (if onlyQregs then [] else ["creg c[" + IntToString(numQubits) + "];"])
  }

  /** The final measurement, iff asked for and there is a classical
      register to measure into. */
  function MeasureLines(finalMeasure: bool, onlyQregs: bool): seq<string>
  {
    if finalMeasure && !onlyQregs then [MeasureLine] else []
  }

  /** A gate drawn by `add_random_gate` and what its `to_qasm` drew. */
  datatype Drawn = Drawn(gate: QasmGate, draw: Draw)

  /** The gate lines of the drawn gates, on register `q`. */
  function GateLines(drawn: seq<Drawn>): (r: seq<string>)
    ensures |r| == |drawn|
  {
    seq(|drawn|, i requires 0 <= i < |drawn| => Line(drawn[i].gate, "q", drawn[i].draw))
  }

  /** The lines of one program. */
  function ProgramLines(numQubits: int, onlyQregs: bool, drawn: seq<Drawn>, finalMeasure: bool): seq<string>
  {
    HeaderLines + RegisterLines(numQubits, onlyQregs) + GateLines(drawn) + MeasureLines(finalMeasure, onlyQregs)
  }

  /** The lines a generator appends after what its buffer held. */
  lemma {:induction false} AppendProgramLines(before: seq<string>, numQubits: int, onlyQregs: bool, drawn: seq<Drawn>, finalMeasure: bool)
    ensures before + HeaderLines + RegisterLines(numQubits, onlyQregs) + GateLines(drawn) + MeasureLines(finalMeasure, onlyQregs)
            == before + ProgramLines(numQubits, onlyQregs, drawn, finalMeasure)
  {
    ConcatAssoc(before, HeaderLines, RegisterLines(numQubits, onlyQregs), GateLines(drawn), MeasureLines(finalMeasure, onlyQregs));
  }

  lemma ConcatAssoc<T>(a: seq<T>, b: seq<T>, c: seq<T>, d: seq<T>, e: seq<T>)
    ensures a + b + c + d + e == a + (b + c + d + e)
  {
  }

  /** Gates drawn from `gates`, each with a draw `to_qasm` can make on a
      register of `numQubits` qubits. */
  predicate DrawnFrom(drawn: seq<Drawn>, gates: seq<QasmGate>, numQubits: int)
  {
    forall i :: 0 <= i < |drawn| ==> drawn[i].gate in gates && IsDraw(drawn[i].gate, numQubits, drawn[i].draw)
  }

  /** Every gate of the pool is well formed. */
  predicate PoolWellFormed(gates: seq<QasmGate>)
  {
    forall i :: 0 <= i < |gates| ==> WellFormed(gates[i])
  }

  /** Every gate of the pool fits a register of `numQubits` qubits. */
  predicate AllFit(gates: seq<QasmGate>, numQubits: int)
  {
    forall i :: 0 <= i < |gates| ==> gates[i].numQubits <= QiskitGates.Cap(numQubits)
  }

  /** `[GATE_MAP[g] for g in gate_set] if gate_set else
      list(GATE_MAP.values())`. */
  function Pool(gateSet: Option<seq<string>>): Result<seq<QasmGate>>
  {
    if gateSet.Some? && gateSet.value != [] then Lookup(GateMap, gateSet.value) else Ok(AllGates)
  }

  /** The pool is the named gates in order, or all of them when no names
      are given; a name the map lacks raises KeyError; every gate of the
      pool is well formed and the pool is never empty. */
  lemma {:induction false} PoolSpec(gateSet: Option<seq<string>>)
    ensures Pool(gateSet).Err? <==> gateSet.Some? && exists i :: 0 <= i < |gateSet.value| && gateSet.value[i] !in GateMap
    ensures Pool(gateSet).Err? ==> exists i :: 0 <= i < |gateSet.value| && Pool(gateSet).exc == KeyError(gateSet.value[i])
    ensures Pool(gateSet).Ok? && gateSet.Some? && gateSet.value != [] ==>
              && |Pool(gateSet).value| == |gateSet.value|
              && forall i :: 0 <= i < |gateSet.value| ==> Pool(gateSet).value[i] == GateMap[gateSet.value[i]]
    ensures Pool(gateSet).Ok? && (gateSet.None? || gateSet.value == []) ==> Pool(gateSet).value == AllGates
    ensures Pool(gateSet).Ok? ==> Pool(gateSet).value != [] && PoolWellFormed(Pool(gateSet).value)
  {
    AllGatesWellFormed();
    if gateSet.Some? && gateSet.value != [] {
      LookupSpec(GateMap, gateSet.value);
      if Pool(gateSet).Ok? {
        MapWellFormed();
        forall i | 0 <= i < |Pool(gateSet).value| ensures WellFormed(Pool(gateSet).value[i]) {
          assert gateSet.value[i] in GateMap;
        }
      }
    }
  }

  /** Every gate of the map is one of the listed gates. */
  lemma {:induction false} MapWellFormed()
    ensures forall k :: k in GateMap ==> WellFormed(GateMap[k])
  {
    AllGatesWellFormed();
    forall k | k in GateMap ensures WellFormed(GateMap[k]) {
      assert GateMap[k] in AllGates;
    }
  }

  // ---------------------------------------------------------------------
  // The generator

  /** `QASMCodeGenerator`: the size of the register, whether classical
      registers are left out, the gate pool, and the buffer of lines. */
  class QasmCodeGenerator {
    const numQubits: int
    const onlyQregs: bool
    const gates: seq<QasmGate>
    var qasmCode: seq<string>

    /** The pool a generator draws from is non-empty and well formed. */
    predicate Valid()
    {
      gates != [] && PoolWellFormed(gates)
    }

    constructor(numQubits: int, gates: seq<QasmGate>, onlyQregs: bool)
      ensures this.numQubits == numQubits && this.gates == gates && this.onlyQregs == onlyQregs
      ensures qasmCode == []
    {
      this.numQubits := numQubits;
      this.gates := gates;
      this.onlyQregs := onlyQregs;
      qasmCode := [];
    }

    /** `reset_memory()`: an empty buffer. */
    method ResetMemory()
      modifies this
      ensures qasmCode == []
    {
      qasmCode := [];
    }

    /** `generate_header()`. */
    method GenerateHeader()
      modifies this
      ensures qasmCode == old(qasmCode) + HeaderLines
    {
      qasmCode := qasmCode + HeaderLines;
    }

    /** `generate_registers()`. */
    method GenerateRegisters()
      modifies this
      ensures qasmCode == old(qasmCode) + RegisterLines(numQubits, onlyQregs)
    {
      qasmCode := qasmCode + ["qreg q[" + IntToString(numQubits) + "];"];
      if !onlyQregs {
        qasmCode := qasmCode + ["creg c[" + IntToString(numQubits) + "];"];
      }
    }

    /** `add_gate(gate)`: the line of a random draw on register `q` is
        appended; a gate on more qubits than the register has raises
        ValueError and appends nothing. */
    method AddGate(g: QasmGate) returns (r: Result<()>, d: Draw)
      modifies this
      ensures r.Err? <==> g.numQubits > QiskitGates.Cap(numQubits)
      ensures r.Err? ==> r.exc == ValueError(SampleTooLarge) && qasmCode == old(qasmCode)
      ensures r.Ok? ==> IsDraw(g, numQubits, d) && qasmCode == old(qasmCode) + [Line(g, "q", d)]
    {
      d := Draw([], []);
      if g.numQubits <= QiskitGates.Cap(numQubits) {
        DrawExists(g, numQubits);
        d :| IsDraw(g, numQubits, d);
      }
      var line := ToQasm(g, "q", numQubits, d);
      if line.Err? {
        return Err(line.exc), d;
      }
      qasmCode := qasmCode + [line.value];
      r := Ok(());
    }

    /** `add_random_gate()`: a gate chosen at random from the pool. */
    method AddRandomGate() returns (r: Result<()>, ghost drawn: Drawn)
      requires Valid()
      modifies this
      ensures drawn.gate in gates
      ensures r.Err? <==> drawn.gate.numQubits > QiskitGates.Cap(numQubits)
      ensures r.Err? ==> r.exc == ValueError(SampleTooLarge) && qasmCode == old(qasmCode)
      ensures r.Ok? ==> IsDraw(drawn.gate, numQubits, drawn.draw) && qasmCode == old(qasmCode) + GateLines([drawn])
    {
      var k :| 0 <= k < |gates|;
      var d;
      r, d := AddGate(gates[k]);
      drawn := Drawn(gates[k], d);
    }

    /** `generate_random_qasm(num_gates, final_measure)`: appends, without
        clearing the buffer, the header, the registers, `num_gates` random
        gate lines and the final measurement. A gate too large for the
        register raises ValueError, which leaves the lines appended so
        far; it cannot happen when every gate of the pool fits. */
    method GenerateRandomQasm(numGates: int, finalMeasure: bool) returns (r: Result<()>, ghost drawn: seq<Drawn>)
      requires Valid()
      modifies this
      ensures DrawnFrom(drawn, gates, numQubits)
      ensures r.Ok? ==> |drawn| == QiskitGates.Cap(numGates)
      ensures r.Ok? ==> qasmCode == old(qasmCode) + ProgramLines(numQubits, onlyQregs, drawn, finalMeasure)
      ensures r.Err? ==> && |drawn| < QiskitGates.Cap(numGates) && r.exc == ValueError(SampleTooLarge)
                         && (exists i :: 0 <= i < |gates| && gates[i].numQubits > QiskitGates.Cap(numQubits))
                         && qasmCode == old(qasmCode) + HeaderLines + RegisterLines(numQubits, onlyQregs) + GateLines(drawn)
      ensures AllFit(gates, numQubits) ==> r.Ok?
    {
      GenerateHeader();
      GenerateRegisters();
      ghost var start := qasmCode;
      assert start == old(qasmCode) + HeaderLines + RegisterLines(numQubits, onlyQregs);
      drawn := [];
      var i := 0;
      while i < numGates
        invariant 0 <= i <= QiskitGates.Cap(numGates) && |drawn| == i
        invariant DrawnFrom(drawn, gates, numQubits)
        invariant qasmCode == start + GateLines(drawn)
      {
        var res, one := AddRandomGate();
        if res.Err? {
          return Err(res.exc), drawn;
        }
        assert GateLines(drawn + [one]) == GateLines(drawn) + GateLines([one]);
        drawn := drawn + [one];
        i := i + 1;
      }
      if finalMeasure && !onlyQregs {
        qasmCode := qasmCode + [MeasureLine];
      }
      assert qasmCode == start + GateLines(drawn) + MeasureLines(finalMeasure, onlyQregs);
      AppendProgramLines(old(qasmCode), numQubits, onlyQregs, drawn, finalMeasure);
      r := Ok(());
    }

    /** `get_qasm_code()`: the buffer joined with newlines. */
    function QasmCode(): (code: string)
      reads this
      ensures |qasmCode| == 1 ==> code == qasmCode[0]
    {
      Join("\n", qasmCode)
    }
  }

  /** `QASMCodeGenerator(num_qubits, seed, gate_set, only_qregs)`: a
      generator over the pool the gate names select, with an empty
      buffer; an unknown name raises KeyError. */
  method NewGenerator(numQubits: int, gateSet: Option<seq<string>>, onlyQregs: bool)
    returns (r: Result<QasmCodeGenerator>)
    ensures r.Err? <==> Pool(gateSet).Err?
    ensures r.Err? ==> r.exc == Pool(gateSet).exc
    ensures r.Ok? ==> && fresh(r.value) && r.value.Valid() && r.value.qasmCode == []
                      && r.value.gates == Pool(gateSet).value
                      && r.value.numQubits == numQubits && r.value.onlyQregs == onlyQregs
  {
    var pool := Pool(gateSet);
    if pool.Err? {
      return Err(pool.exc);
    }
    PoolSpec(gateSet);
    var gen := new QasmCodeGenerator(numQubits, pool.value, onlyQregs);
    r := Ok(gen);
  }

  // ---------------------------------------------------------------------
  // Program lines

  lemma {:induction false} NoNewlineInDigits(s: string)
    requires IsDigits(s)
    ensures '\n' !in s
  {
    assert forall i :: 0 <= i < |s| ==> IsDigit(s[i]);
  }

  lemma {:induction false} NoNewlineInNumber(n: int)
    ensures '\n' !in IntToString(n)
  {
    if n >= 0 {
      NoNewlineInDigits(NatToString(n));
    } else {
      NoNewlineInDigits(NatToString(-n));
    }
  }

  /** No line holds a newline. */
  predicate NoNewlines(lines: seq<string>)
  {
    forall i :: 0 <= i < |lines| ==> '\n' !in lines[i]
  }

  lemma {:induction false} NoNewlinesAppend(a: seq<string>, b: seq<string>)
    requires NoNewlines(a) && NoNewlines(b)
    ensures NoNewlines(a + b)
  {
    forall i | 0 <= i < |a + b| ensures '\n' !in (a + b)[i] {
      if i >= |a| {
        assert (a + b)[i] == b[i - |a|];
      }
    }
  }

  lemma {:induction false} FixedLinesPlain(finalMeasure: bool, onlyQregs: bool)
    ensures NoNewlines(HeaderLines) && NoNewlines(MeasureLines(finalMeasure, onlyQregs))
  {
  }

  lemma {:induction false} RegisterLinesPlain(numQubits: int, onlyQregs: bool)
    ensures NoNewlines(RegisterLines(numQubits, onlyQregs))
  {
    NoNewlineInNumber(numQubits);
  }

  lemma {:induction false} GateLinesPlain(numQubits: int, drawn: seq<Drawn>, gates: seq<QasmGate>)
    requires DrawnFrom(drawn, gates, numQubits) && PoolWellFormed(gates)
    ensures NoNewlines(GateLines(drawn))
  {
    forall i | 0 <= i < |drawn| ensures '\n' !in GateLines(drawn)[i] {
      var g := drawn[i].gate;
      assert g in gates;
      LineReadsBack(g, "q", numQubits, drawn[i].draw);
    }
  }

  /** No line of a program holds a newline. */
  lemma {:induction false} LinesPlain(numQubits: int, onlyQregs: bool, drawn: seq<Drawn>, finalMeasure: bool, gates: seq<QasmGate>)
    requires DrawnFrom(drawn, gates, numQubits) && PoolWellFormed(gates)
    ensures NoNewlines(ProgramLines(numQubits, onlyQregs, drawn, finalMeasure))
  {
    FixedLinesPlain(finalMeasure, onlyQregs);
    RegisterLinesPlain(numQubits, onlyQregs);
    GateLinesPlain(numQubits, drawn, gates);
    var regs := RegisterLines(numQubits, onlyQregs);
    NoNewlinesAppend(HeaderLines, regs);
    NoNewlinesAppend(HeaderLines + regs, GateLines(drawn));
    NoNewlinesAppend(HeaderLines + regs + GateLines(drawn), MeasureLines(finalMeasure, onlyQregs));
  }

  /** A generated program, split at newlines, gives back its lines: two
      header lines, one or two register lines, one line per gate and the
      measurement iff asked for with a classical register. */
  lemma {:induction false} ProgramReadsBack(numQubits: int, onlyQregs: bool, drawn: seq<Drawn>, finalMeasure: bool, gates: seq<QasmGate>)
    requires DrawnFrom(drawn, gates, numQubits) && PoolWellFormed(gates)
    ensures Split(Join("\n", ProgramLines(numQubits, onlyQregs, drawn, finalMeasure)), '\n')
            == ProgramLines(numQubits, onlyQregs, drawn, finalMeasure)
    ensures |ProgramLines(numQubits, onlyQregs, drawn, finalMeasure)|
            == 3 + (if onlyQregs then 0 else 1) + |drawn| + (if finalMeasure && !onlyQregs then 1 else 0)
  {
    LinesPlain(numQubits, onlyQregs, drawn, finalMeasure, gates);
    SplitJoin(ProgramLines(numQubits, onlyQregs, drawn, finalMeasure), '\n');
  }

  /** Each gate line of a program names a gate of the pool and reads back
      as that gate on exactly its number of distinct qubits of `q`, each
      below the register size. */
  lemma {:induction false} GateLineReadsBack(numQubits: int, drawn: seq<Drawn>, gates: seq<QasmGate>, i: nat)
    requires DrawnFrom(drawn, gates, numQubits) && PoolWellFormed(gates) && i < |drawn|
    ensures var line := GateLines(drawn)[i];
            && NameOf(line) == drawn[i].gate.name
            && OperandsOf(line) == QiskitGates.Refs("q", drawn[i].draw.qubits)
            && |OperandsOf(line)| == drawn[i].gate.numQubits
            && QiskitGates.Distinct(drawn[i].draw.qubits)
            && (forall j :: 0 <= j < |drawn[i].draw.qubits| ==> 0 <= drawn[i].draw.qubits[j] < numQubits)
            && ParamsOf(line) == drawn[i].draw.params
            && |ParamsOf(line)| == drawn[i].gate.numParams
  {
    assert drawn[i].gate in gates;
    LineReadsBack(drawn[i].gate, "q", numQubits, drawn[i].draw);
  }

  // ---------------------------------------------------------------------
  // The run

  /** The names of the listed extensions, one extension after the
      other. */
  function Flatten(exts: seq<seq<string>>): (r: seq<string>)
    decreases |exts|
  {
    if exts == [] then [] else Flatten(exts[..|exts| - 1]) + exts[|exts| - 1]
  }

  /** The latest index over the files of several extensions: the largest
      first token of their names, and never below 0. */
  function LatestOver(exts: seq<seq<string>>): Result<int>
  {
    var r := LatestIndex(Flatten(exts));
    if r.Err? then r else Ok(Max(0, r.value))
  }

  /** The latest index is never negative; it fails iff some name does
      not start with an integer; otherwise no name's number exceeds it,
      and it is 0 or the number of some name. */
  lemma {:induction false} LatestOverSpec(exts: seq<seq<string>>)
    ensures LatestOver(exts).Err? <==> exists i :: 0 <= i < |Flatten(exts)| && TokenNumber(Flatten(exts)[i]).Err?
    ensures LatestOver(exts).Ok? ==>
              && LatestOver(exts).value >= 0
              && (forall i :: 0 <= i < |Flatten(exts)| ==> TokenNumber(Flatten(exts)[i]).value <= LatestOver(exts).value)
              && (LatestOver(exts).value == 0 || exists i :: 0 <= i < |Flatten(exts)| && TokenNumber(Flatten(exts)[i]) == LatestOver(exts))
  {
    var f := Flatten(exts);
    var r := LatestIndex(f);
    LatestIndexSpec(f);
    assert LatestOver(exts) == if r.Err? then r else Ok(Max(0, r.value));
    if r.Ok? && r.value > 0 {
      assert LatestOver(exts) == r;
      var i :| 0 <= i < |f| && TokenNumber(f[i]) == r;
    }
  }

  /** One more extension's names. */
  lemma {:induction false} LatestOverStep(exts: seq<seq<string>>, i: nat, latest: int)
    requires i < |exts| && LatestOver(exts[..i]) == Ok(latest) && exts[i] != []
    ensures LatestOver(exts[..i + 1]) == if LatestIndex(exts[i]).Err? then LatestIndex(exts[i])
                                         else Ok(Max(latest, LatestIndex(exts[i]).value))
  {
    var prev := Flatten(exts[..i]);
    assert exts[..i + 1][..i] == exts[..i];
    assert Flatten(exts[..i + 1]) == prev + exts[i];
    ApplyAppend(TokenNumber, prev, exts[i]);
    LatestConcat(Numbers(prev), Numbers(exts[i]));
  }

  /** `get_latest_index(output_dir, extensions)`: starting from 0, for
      each extension with files, the maximum with the largest first token
      of their names; a name that does not start with an integer
      raises. */
  method GetLatestIndex(exts: seq<seq<string>>) returns (r: Result<int>)
    ensures r == LatestOver(exts)
  {
    var latest := 0;
    var i := 0;
    while i < |exts|
      invariant 0 <= i <= |exts|
      invariant LatestOver(exts[..i]) == Ok(latest)
    {
      if exts[i] != [] {
        LatestOverStep(exts, i, latest);
        var indices := LatestIndex(exts[i]);
        if indices.Err? {
          assert exts[..i + 1] + exts[i + 1..] == exts;
          LatestOverErr(exts[..i + 1], exts[i + 1..]);
          return indices;
        }
        latest := Max(latest, indices.value);
      } else {
        assert exts[..i + 1][..i] == exts[..i];
        assert Flatten(exts[..i + 1]) == Flatten(exts[..i]) + exts[i];
        assert Flatten(exts[..i + 1]) == Flatten(exts[..i]);
      }
      i := i + 1;
    }
    assert exts[..i] == exts;
    r := Ok(latest);
  }

  /** Names after a failing one do not change the failure. */
  lemma {:induction false} LatestOverErr(done: seq<seq<string>>, rest: seq<seq<string>>)
    requires LatestOver(done).Err?
    ensures LatestOver(done + rest) == LatestOver(done)
    decreases |rest|
  {
    if rest != [] {
      var init := rest[..|rest| - 1];
      LatestOverErr(done, init);
      assert (done + rest)[..|done + rest| - 1] == done + init;
      assert (done + rest)[|done + rest| - 1] == rest[|rest| - 1];
      assert Flatten(done + rest) == Flatten(done + init) + rest[|rest| - 1];
      var a, b := Flatten(done + init), rest[|rest| - 1];
      ApplyAppend(TokenNumber, a, b);
      assert Numbers(Flatten(done + rest)) == Numbers(a) + Numbers(b);
      assert LatestIndex(a).Err?;
      assert Numbers(a) != [];
      LatestConcat(Numbers(a), Numbers(b));
      assert LatestIndex(Flatten(done + rest)) == LatestIndex(a);
    } else {
      assert done + rest == done;
    }
  }

  /** A run over `.py` and `.qasm` names that numbers new `.qasm` files
      from the latest index plus one leaves the latest index at the
      number of its last file, so the next run goes on from there. */
  lemma {:induction false} ContinueQasmNumbering(py: seq<string>, qasm: seq<string>, latest: nat, suffixes: seq<string>)
    requires LatestOver([py, qasm]) == Ok(latest)
    ensures LatestOver([py, qasm + Names(latest + 1, suffixes)]) == Ok(latest + |suffixes|)
  {
    FlattenPair(py, qasm);
    FlattenPair(py, qasm + Names(latest + 1, suffixes));
    assert py + (qasm + Names(latest + 1, suffixes)) == (py + qasm) + Names(latest + 1, suffixes);
    var m := LatestIndex(py + qasm).value;
    ContinueNumberingAbove(py + qasm, m, latest, suffixes);
  }

  lemma {:induction false} FlattenPair(a: seq<string>, b: seq<string>)
    ensures Flatten([a, b]) == a + b
  {
    assert [a, b][..1] == [a];
    assert [a][..0] == [];
    assert Flatten([a]) == Flatten([]) + a;
  }

  /** The text of a generated program. */
  function ProgramText(numQubits: int, onlyQregs: bool, drawn: seq<Drawn>, finalMeasure: bool): string
  {
    Join("\n", ProgramLines(numQubits, onlyQregs, drawn, finalMeasure))
  }

  /** The programs of a run, each with its suffix and the gates drawn for
      it. */
  predicate Generated(texts: seq<string>, suffixes: seq<string>, runs: seq<seq<Drawn>>,
                      gates: seq<QasmGate>, numQubits: int, numGates: int, onlyQregs: bool, finalMeasure: bool)
  {
    && |texts| == |suffixes| == |runs|
    && forall k :: 0 <= k < |texts| ==>
         && IsHexSuffix(suffixes[k]) && |runs[k]| == QiskitGates.Cap(numGates)
         && DrawnFrom(runs[k], gates, numQubits)
         && texts[k] == ProgramText(numQubits, onlyQregs, runs[k], finalMeasure)
  }

  /** The loop of `generate_qasm_programs`: per program, generate into
      the empty buffer, take the code, reset the buffer, draw a suffix.
      A gate too large for the register stops the run with the programs
      written so far. */
  method WritePrograms(gen: QasmCodeGenerator, numGates: int, finalMeasure: bool, numPrograms: int)
    returns (texts: seq<string>, suffixes: seq<string>, r: Result<()>, ghost runs: seq<seq<Drawn>>)
    requires gen.Valid() && gen.qasmCode == []
    modifies gen
    ensures Generated(texts, suffixes, runs, gen.gates, gen.numQubits, numGates, gen.onlyQregs, finalMeasure)
    ensures |texts| <= QiskitGates.Cap(numPrograms)
    ensures r.Ok? ==> |texts| == QiskitGates.Cap(numPrograms)
    ensures r.Err? ==> r.exc == ValueError(SampleTooLarge) && !AllFit(gen.gates, gen.numQubits)
    ensures AllFit(gen.gates, gen.numQubits) ==> r.Ok?
  {
    texts, suffixes, runs := [], [], [];
    var i := 0;
    while i < numPrograms
      invariant 0 <= i <= QiskitGates.Cap(numPrograms) && |texts| == i
      invariant gen.qasmCode == []
      invariant Generated(texts, suffixes, runs, gen.gates, gen.numQubits, numGates, gen.onlyQregs, finalMeasure)
    {
      var res, drawn := gen.GenerateRandomQasm(numGates, finalMeasure);
      if res.Err? {
        return texts, suffixes, Err(res.exc), runs;
      }
      assert gen.qasmCode == ProgramLines(gen.numQubits, gen.onlyQregs, drawn, finalMeasure);
      var code := gen.QasmCode();
      gen.ResetMemory();
      var suffix := RandomSuffix();
      texts, suffixes, runs := texts + [code], suffixes + [suffix], runs + [drawn];
      i := i + 1;
    }
    r := Ok(());
  }

  /** What a run that got past the generator and the latest index
      leaves: programs numbered on from `latest`, each the text of gates
      drawn from the pool, all of them unless a gate did not fit, and the
      folder's latest index at the number of the last file written. */
  predicate RunOutcome(written: seq<Program>, r: Result<()>, suffixes: seq<string>, texts: seq<string>,
                       runs: seq<seq<Drawn>>, gates: seq<QasmGate>, numQubits: int, numGates: int,
                       onlyQregs: bool, finalMeasure: bool, numPrograms: int,
                       pyStems: seq<string>, qasmStems: seq<string>, latest: int)
  {
    && latest >= 0
    && Generated(texts, suffixes, runs, gates, numQubits, numGates, onlyQregs, finalMeasure)
    && written == Files(latest + 1, suffixes, texts)
    && Tally(written, r, gates, numQubits, numPrograms, pyStems, qasmStems, latest)
  }

  /** How many files a run wrote, why it stopped, and where it left the
      folder's numbering. */
  predicate Tally(written: seq<Program>, r: Result<()>, gates: seq<QasmGate>, numQubits: int, numPrograms: int,
                  pyStems: seq<string>, qasmStems: seq<string>, latest: int)
  {
    && |written| <= QiskitGates.Cap(numPrograms)
    && (r.Ok? ==> |written| == QiskitGates.Cap(numPrograms))
    && (r.Err? ==> r.exc == ValueError(SampleTooLarge) && !AllFit(gates, numQubits))
    && (AllFit(gates, numQubits) ==> r.Ok?)
    && LatestOver([pyStems, qasmStems + Stems(written)]) == Ok(latest + |written|)
  }

  /** The files of a run from the latest index on. */
  method RunFrom(gen: QasmCodeGenerator, latest: nat, pyStems: seq<string>, qasmStems: seq<string>,
                 numGates: int, finalMeasure: bool, numPrograms: int)
    returns (written: seq<Program>, r: Result<()>, suffixes: seq<string>, ghost texts: seq<string>, ghost runs: seq<seq<Drawn>>)
    requires gen.Valid() && gen.qasmCode == [] && LatestOver([pyStems, qasmStems]) == Ok(latest)
    modifies gen
    ensures RunOutcome(written, r, suffixes, texts, runs, gen.gates, gen.numQubits, numGates, gen.onlyQregs,
                       finalMeasure, numPrograms, pyStems, qasmStems, latest)
  {
    var codes;
    codes, suffixes, r, runs := WritePrograms(gen, numGates, finalMeasure, numPrograms);
    texts := codes;
    written := Files(latest + 1, suffixes, codes);
    TallyOfFiles(r, suffixes, texts, gen.gates, gen.numQubits, numPrograms, pyStems, qasmStems, latest);
  }

  lemma {:induction false} TallyOfFiles(r: Result<()>, suffixes: seq<string>, texts: seq<string>,
                                        gates: seq<QasmGate>, numQubits: int, numPrograms: int,
                                        pyStems: seq<string>, qasmStems: seq<string>, latest: nat)
    requires LatestOver([pyStems, qasmStems]) == Ok(latest) && |suffixes| == |texts|
    requires |texts| <= QiskitGates.Cap(numPrograms)
    requires r.Ok? ==> |texts| == QiskitGates.Cap(numPrograms)
    requires r.Err? ==> r.exc == ValueError(SampleTooLarge) && !AllFit(gates, numQubits)
    requires AllFit(gates, numQubits) ==> r.Ok?
    ensures Tally(Files(latest + 1, suffixes, texts), r, gates, numQubits, numPrograms, pyStems, qasmStems, latest)
  {
    FilesContinueNumbering(pyStems, qasmStems, latest, suffixes, texts);
  }

  /** The files numbered on from the latest index continue the numbering. */
  lemma {:induction false} FilesContinueNumbering(pyStems: seq<string>, qasmStems: seq<string>, latest: nat,
                                                  suffixes: seq<string>, texts: seq<string>)
    requires LatestOver([pyStems, qasmStems]) == Ok(latest) && |suffixes| == |texts|
    ensures LatestOver([pyStems, qasmStems + Stems(Files(latest + 1, suffixes, texts))]) == Ok(latest + |suffixes|)
  {
    StemsOfFiles(latest + 1, suffixes, texts);
    ContinueQasmNumbering(pyStems, qasmStems, latest, suffixes);
  }

  /** `generate_qasm_programs`: a generator over the selected gates (an
      unknown name raises KeyError before anything is read), the latest
      index over the `.py` and `.qasm` names of the folder (a name without
      a leading integer raises), then one `.qasm` file per program,
      numbered on from that index and padded to seven digits. A gate too
      large for the register stops the run after the files written so
      far; when every gate fits, all programs are written. */
  method GeneratePrograms(pyStems: seq<string>, qasmStems: seq<string>, numQubits: int, numGates: int,
                          finalMeasure: bool, numPrograms: int, onlyQregs: bool, gateSet: Option<seq<string>>)
    returns (written: seq<Program>, r: Result<()>, suffixes: seq<string>, ghost texts: seq<string>, ghost runs: seq<seq<Drawn>>)
    ensures Pool(gateSet).Err? ==> written == [] && r == Err(Pool(gateSet).exc)
    ensures Pool(gateSet).Ok? && LatestOver([pyStems, qasmStems]).Err? ==>
              written == [] && r == Err(LatestOver([pyStems, qasmStems]).exc)
    ensures Pool(gateSet).Ok? && LatestOver([pyStems, qasmStems]).Ok? ==>
              RunOutcome(written, r, suffixes, texts, runs, Pool(gateSet).value, numQubits, numGates, onlyQregs,
                         finalMeasure, numPrograms, pyStems, qasmStems, LatestOver([pyStems, qasmStems]).value)
  {
    var made := NewGenerator(numQubits, gateSet, onlyQregs);
    if made.Err? {
      return [], Err(made.exc), [], [], [];
    }
    var latest := GetLatestIndex([pyStems, qasmStems]);
    if latest.Err? {
      return [], Err(latest.exc), [], [], [];
    }
    LatestOverSpec([pyStems, qasmStems]);
    written, r, suffixes, texts, runs := RunFrom(made.value, latest.value, pyStems, qasmStems, numGates, finalMeasure, numPrograms);
  }
}
