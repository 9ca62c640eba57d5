/** OpenQASM 2 gate lines: each gate of the QASM generator by its name,
    its number of qubits and of angle parameters, and the line such as
    `cu3(0.5,1.2,3.0) q[2],q[0];` that `to_qasm` formats from the qubits
    it samples and the angles it draws. */
module QasmGates {
  import opened Py
  import opened PyStr
  import opened QiskitGates

  /** A gate: its QASM name, how many distinct qubits it acts on, how many
      angles it takes, and whether the angles are rounded up to whole
      numbers (`u0`). */
  datatype QasmGate = QasmGate(name: string, numQubits: nat, numParams: nat, rounded: bool)

  /** What `to_qasm` draws: the qubit indices `random.sample` returns and
      the text of each angle. */
  datatype Draw = Draw(qubits: seq<int>, params: seq<string>)

  /** The message `random.sample` raises with when asked for more values
      than the population holds. */
  const SampleTooLarge := "Sample larger than population or is negative"

  /** The text of an angle: `str` of a float in [0, 2π), or of a whole
      number when the gate rounds. */
  predicate ParamText(g: QasmGate, p: string)
  {
    if g.rounded then IsDigits(p)
    else p != [] && forall i :: 0 <= i < |p| ==> NumeralChar(p[i])
  }

  /** A character of `str` of a float: a digit, the point, an exponent
      mark or its sign. */
  predicate NumeralChar(c: char)
  {
    IsDigit(c) || c == '.' || c == 'e' || c == '-'
  }

  /** A draw `to_qasm` can make for `g` on a register of `circuitSize`
      qubits: `num_qubits` distinct indices below the size, and one angle
      per parameter. */
  predicate IsDraw(g: QasmGate, circuitSize: int, d: Draw)
  {
    && |d.qubits| == g.numQubits && Distinct(d.qubits)
    && (forall i :: 0 <= i < |d.qubits| ==> 0 <= d.qubits[i] < circuitSize)
    && |d.params| == g.numParams
    && (forall i :: 0 <= i < |d.params| ==> ParamText(g, d.params[i]))
  }

  /** `list(range(k))`. */
  function Iota(k: nat): (r: seq<int>)
    ensures |r| == k
  {
    seq(k, i requires 0 <= i < k => i)
  }

  /** A draw exists whenever the register is large enough. */
  lemma {:induction false} DrawExists(g: QasmGate, circuitSize: int)
    requires g.numQubits <= Cap(circuitSize)
    ensures IsDraw(g, circuitSize, Draw(Iota(g.numQubits), seq(g.numParams, _ => "0")))
  {
  }

  /** `f"{name}({p1,...}) {q[a],...};"`, or without the parentheses for a
      gate without parameters. */
  function Line(g: QasmGate, qreg: string, d: Draw): string
  {
    var operands := Join(",", Refs(qreg, d.qubits));
    if g.numParams > 0 then g.name + "(" + Join(",", d.params) + ") " + operands + ";"
    else g.name + " " + operands + ";"
  }

  /** `Gate.to_qasm(qreg_name, circuit_size)`: sampling more qubits than
      the register has raises ValueError; otherwise the line of the
      draw. */
  function ToQasm(g: QasmGate, qreg: string, circuitSize: int, d: Draw): (r: Result<string>)
    ensures r.Err? <==> g.numQubits > Cap(circuitSize)
    ensures r.Err? ==> r.exc == ValueError(SampleTooLarge)
  {
    if g.numQubits > Cap(circuitSize) then Err(ValueError(SampleTooLarge))
    else Ok(Line(g, qreg, d))
  }

  // ---------------------------------------------------------------------
  // Reading a gate line back

  /** Text that holds none of the characters a gate line is split at. */
  predicate Word(s: string)
  {
    forall i :: 0 <= i < |s| ==> s[i] != ' ' && s[i] != ',' && s[i] != '(' && s[i] != '\n'
  }

  /** The gate name: the line up to the first space and the first `(`. */
  function NameOf(line: string): string
  {
    Split(Split(line, ' ')[0], '(')[0]
  }

  /** The operands: the text after the space, without the final `;`,
      split at commas. */
  function OperandsOf(line: string): seq<string>
  {
    var fields := Split(line, ' ');
    var last := fields[|fields| - 1];
    if last == [] then [] else Split(last[..|last| - 1], ',')
  }

  /** The angles: the text between `(` and the final `)` of the part
      before the space, split at commas; none without parentheses. */
  function ParamsOf(line: string): seq<string>
  {
    var parts := Split(Split(line, ' ')[0], '(');
    if |parts| < 2 || parts[1] == [] then []
    else Split(parts[1][..|parts[1]| - 1], ',')
  }

  lemma {:induction false} WordOfDigits(s: string)
    requires IsDigits(s)
    ensures Word(s)
  {
    forall i | 0 <= i < |s| ensures s[i] != ' ' && s[i] != ',' && s[i] != '(' && s[i] != '\n' {
      assert IsDigit(s[i]);
    }
  }

  /** A register reference `q[i]` for a non-negative index holds no
      separator when the register name holds none. */
  lemma {:induction false} RefWord(qreg: string, i: int)
    requires Word(qreg) && i >= 0
    ensures Word(Ref(qreg, i))
  {
    var n := IntToString(i);
    assert n == NatToString(i);
    WordOfDigits(n);
    assert Ref(qreg, i) == qreg + "[" + n + "]";
  }

  /** Joining words with a separator that is not a space keeps out
      spaces, `(` and newlines. */
  lemma {:induction false} JoinWords(parts: seq<string>, sep: char, c: char)
    requires forall i :: 0 <= i < |parts| ==> c !in parts[i]
    requires sep != c
    ensures c !in Join([sep], parts)
    decreases |parts|
  {
    if |parts| > 1 {
      JoinWords(parts[1..], sep, c);
    }
  }

  lemma {:induction false} SplitWord(s: string, sep: char)
    requires sep !in s
    ensures Split(s, sep) == [s]
  {
    NoSepNotFound(s, sep);
  }

  /** The operand text of a draw: no space, `(` or newline, and its
      references read back at the commas. */
  lemma {:induction false} OperandsWords(qreg: string, qubits: seq<int>)
    requires Word(qreg) && |qubits| >= 1
    requires forall i :: 0 <= i < |qubits| ==> qubits[i] >= 0
    ensures var t := Join(",", Refs(qreg, qubits));
            ' ' !in t && '(' !in t && '\n' !in t && Split(t, ',') == Refs(qreg, qubits)
  {
    var refs := Refs(qreg, qubits);
    forall i | 0 <= i < |refs| ensures Word(refs[i]) {
      RefWord(qreg, qubits[i]);
    }
    assert forall i :: 0 <= i < |refs| ==> ' ' !in refs[i] && '(' !in refs[i] && '\n' !in refs[i] && ',' !in refs[i];
    JoinWords(refs, ',', ' ');
    JoinWords(refs, ',', '(');
    JoinWords(refs, ',', '\n');
    SplitJoin(refs, ',');
  }

  /** The angle text of a draw likewise. */
  lemma {:induction false} ParamsWords(g: QasmGate, params: seq<string>)
    requires |params| >= 1 && forall i :: 0 <= i < |params| ==> ParamText(g, params[i])
    ensures var t := Join(",", params);
            ' ' !in t && '(' !in t && '\n' !in t && Split(t, ',') == params
  {
    forall i | 0 <= i < |params| ensures Word(params[i]) {
      var p := params[i];
      if g.rounded {
        WordOfDigits(p);
      } else {
        forall j | 0 <= j < |p| ensures p[j] != ' ' && p[j] != ',' && p[j] != '(' && p[j] != '\n' {
          assert NumeralChar(p[j]);
        }
      }
    }
    assert forall i :: 0 <= i < |params| ==> ' ' !in params[i] && '(' !in params[i] && '\n' !in params[i] && ',' !in params[i];
    JoinWords(params, ',', ' ');
    JoinWords(params, ',', '(');
    JoinWords(params, ',', '\n');
    SplitJoin(params, ',');
  }

  /** A line with angles splits into its name, angles and operands. */
  lemma {:induction false} ShapeWithParams(name: string, ps: string, ops: string)
    requires ' ' !in name && '(' !in name && ' ' !in ps && '(' !in ps && ' ' !in ops
    ensures var line := name + "(" + ps + ") " + ops + ";";
            && NameOf(line) == name && ParamsOf(line) == Split(ps, ',') && OperandsOf(line) == Split(ops, ',')
  {
    var line := name + "(" + ps + ") " + ops + ";";
    var head := name + "(" + ps + ")";
    var tail := ops + ";";
    var inner := ps + ")";
    assert line == head + [' '] + tail;
    assert head == name + ['('] + inner;
    SplitTwo(head, tail, ' ');
    SplitTwo(name, inner, '(');
    assert tail[..|tail| - 1] == ops;
    assert inner[..|inner| - 1] == ps;
  }

  /** Two pieces without the separator, joined by it, split back. */
  lemma {:induction false} SplitTwo(x: string, y: string, sep: char)
    requires sep !in x && sep !in y
    ensures Split(x + [sep] + y, sep) == [x, y]
  {
    SplitCons(x, y, sep);
    SplitWord(y, sep);
  }

  /** A line without angles splits into its name and operands. */
  lemma {:induction false} ShapeWithoutParams(name: string, ops: string)
    requires ' ' !in name && '(' !in name && ' ' !in ops
    ensures var line := name + " " + ops + ";";
            && NameOf(line) == name && ParamsOf(line) == [] && OperandsOf(line) == Split(ops, ',')
  {
    var line := name + " " + ops + ";";
    var tail := ops + ";";
    assert line == name + [' '] + tail;
    SplitCons(name, tail, ' ');
    SplitWord(tail, ' ');
    assert tail[..|tail| - 1] == ops;
    SplitWord(name, '(');
  }

  /** A line of a valid draw reads back: its name is the gate's, its
      operands are the sampled qubits of the register in the sampled
      order, and its angles are those drawn, one per parameter. */
  lemma {:induction false} LineReadsBack(g: QasmGate, qreg: string, circuitSize: int, d: Draw)
    requires IsDraw(g, circuitSize, d) && g.numQubits >= 1
    requires Word(g.name) && Word(qreg)
    ensures NameOf(Line(g, qreg, d)) == g.name
    ensures OperandsOf(Line(g, qreg, d)) == Refs(qreg, d.qubits)
    ensures |OperandsOf(Line(g, qreg, d))| == g.numQubits
    ensures ParamsOf(Line(g, qreg, d)) == d.params
    ensures '\n' !in Line(g, qreg, d)
  {
    var operands := Join(",", Refs(qreg, d.qubits));
    OperandsWords(qreg, d.qubits);
    assert ' ' !in g.name && '(' !in g.name && '\n' !in g.name;
    if g.numParams > 0 {
      var ps := Join(",", d.params);
      assert Line(g, qreg, d) == g.name + "(" + ps + ") " + operands + ";";
      ParamsWords(g, d.params);
      ShapeWithParams(g.name, ps, operands);
      NoNewlineWithParams(g.name, ps, operands);
    } else {
      assert Line(g, qreg, d) == g.name + " " + operands + ";";
      ShapeWithoutParams(g.name, operands);
      NoNewlineWithoutParams(g.name, operands);
    }
  }

  lemma {:induction false} NoNewlineWithParams(name: string, ps: string, ops: string)
    requires '\n' !in name && '\n' !in ps && '\n' !in ops
    ensures '\n' !in name + "(" + ps + ") " + ops + ";"
  {
  }

  lemma {:induction false} NoNewlineWithoutParams(name: string, ops: string)
    requires '\n' !in name && '\n' !in ops
    ensures '\n' !in name + " " + ops + ";"
  {
  }

  // ---------------------------------------------------------------------
  // The gates

  /** `list(GATE_MAP.values())`, in the order the dict lists them, in
      runs of twelve. */
  const AllGates: seq<QasmGate> := Gates1 + Gates2 + Gates3 + Gates4

  const Gates1: seq<QasmGate> :=
    [ QasmGate("u3", 1, 3, false), QasmGate("u2", 1, 2, false), QasmGate("u1", 1, 1, false)
    , QasmGate("cx", 2, 0, false), QasmGate("id", 1, 0, false), QasmGate("u0", 1, 1, true)
    , QasmGate("u", 1, 3, false), QasmGate("p", 1, 1, false), QasmGate("x", 1, 0, false)
    , QasmGate("y", 1, 0, false), QasmGate("z", 1, 0, false), QasmGate("h", 1, 0, false) ]
  const Gates2: seq<QasmGate> :=
    [ QasmGate("s", 1, 0, false), QasmGate("sdg", 1, 0, false), QasmGate("t", 1, 0, false)
      , QasmGate("tdg", 1, 0, false), QasmGate("rx", 1, 1, false), QasmGate("ry", 1, 1, false)
      , QasmGate("rz", 1, 1, false), QasmGate("sx", 1, 0, false), QasmGate("sxdg", 1, 0, false)
      , QasmGate("cz", 2, 0, false), QasmGate("cy", 2, 0, false), QasmGate("swap", 2, 0, false) ]
  const Gates3: seq<QasmGate> :=
    [ QasmGate("ch", 2, 0, false), QasmGate("ccx", 3, 0, false), QasmGate("cswap", 3, 0, false)
      , QasmGate("crx", 2, 1, false), QasmGate("cry", 2, 1, false), QasmGate("crz", 2, 1, false)
      , QasmGate("cu1", 2, 1, false), QasmGate("cp", 2, 1, false), QasmGate("cu3", 2, 3, false)
      , QasmGate("csx", 2, 0, false), QasmGate("cu", 2, 4, false), QasmGate("rxx", 2, 1, false) ]
  const Gates4: seq<QasmGate> :=
    [ QasmGate("rzz", 2, 1, false), QasmGate("rccx", 3, 0, false), QasmGate("rc3x", 4, 0, false)
      , QasmGate("c3x", 4, 0, false), QasmGate("c3sqrtx", 4, 0, false), QasmGate("c4x", 5, 0, false) ]

  /** `GATE_MAP`: each gate under its own name. */
  const GateMap: map<string, QasmGate> := map[
    "u3" := Gates1[0], "u2" := Gates1[1], "u1" := Gates1[2], "cx" := Gates1[3],
    "id" := Gates1[4], "u0" := Gates1[5], "u" := Gates1[6], "p" := Gates1[7],
    "x" := Gates1[8], "y" := Gates1[9], "z" := Gates1[10], "h" := Gates1[11],
    "s" := Gates2[0], "sdg" := Gates2[1], "t" := Gates2[2], "tdg" := Gates2[3],
    "rx" := Gates2[4], "ry" := Gates2[5], "rz" := Gates2[6], "sx" := Gates2[7],
    "sxdg" := Gates2[8], "cz" := Gates2[9], "cy" := Gates2[10], "swap" := Gates2[11],
    "ch" := Gates3[0], "ccx" := Gates3[1], "cswap" := Gates3[2], "crx" := Gates3[3],
    "cry" := Gates3[4], "crz" := Gates3[5], "cu1" := Gates3[6], "cp" := Gates3[7],
    "cu3" := Gates3[8], "csx" := Gates3[9], "cu" := Gates3[10], "rxx" := Gates3[11],
    "rzz" := Gates4[0], "rccx" := Gates4[1], "rc3x" := Gates4[2], "c3x" := Gates4[3],
    "c3sqrtx" := Gates4[4], "c4x" := Gates4[5]]

  /** A gate the generator can emit: a plain name, at least one and at
      most five qubits. */
  predicate WellFormed(g: QasmGate)
  {
    Word(g.name) && 1 <= g.numQubits <= 5
  }

  /** A gate name: lower-case letters and digits. */
  predicate Lowercase(n: string)
  {
    forall j :: 0 <= j < |n| ==> 'a' <= n[j] <= 'z' || '0' <= n[j] <= '9'
  }

  lemma {:induction false} LowercaseWord(n: string)
    requires Lowercase(n)
    ensures Word(n)
  {
  }

  predicate AllWellFormed(gates: seq<QasmGate>)
  {
    forall i :: 0 <= i < |gates| ==> Lowercase(gates[i].name) && 1 <= gates[i].numQubits <= 5
  }

  lemma {:induction false} Gates1WellFormed() ensures AllWellFormed(Gates1) { }
  lemma {:induction false} Gates2WellFormed() ensures AllWellFormed(Gates2) { }
  lemma {:induction false} Gates3WellFormed() ensures AllWellFormed(Gates3) { }
  lemma {:induction false} Gates4WellFormed() ensures AllWellFormed(Gates4) { }

  /** Every gate of the map is well formed, so a register of five qubits
      fits any of them. */
  lemma {:induction false} AllGatesWellFormed()
    ensures |AllGates| == 42
    ensures forall i :: 0 <= i < |AllGates| ==> WellFormed(AllGates[i])
  {
    Gates1WellFormed();
    Gates2WellFormed();
    Gates3WellFormed();
    Gates4WellFormed();
    assert AllWellFormed(AllGates);
    forall i | 0 <= i < |AllGates| ensures WellFormed(AllGates[i]) {
      LowercaseWord(AllGates[i].name);
    }
  }

  /** The arities the map fixes, e.g. cx 2, ccx 3, c3x 4 and c4x 5. */
  lemma {:induction false} Arities()
    ensures "cx" in GateMap && GateMap["cx"].numQubits == 2
    ensures "ccx" in GateMap && GateMap["ccx"].numQubits == 3
    ensures "c3x" in GateMap && GateMap["c3x"].numQubits == 4
    ensures "c4x" in GateMap && GateMap["c4x"].numQubits == 5
    ensures "cu" in GateMap && GateMap["cu"].numParams == 4
  {
  }

  /** The four gates of the first generator, as the map holds them. */
  lemma {:induction false} FirstGeneratorEntries()
    ensures "u3" in GateMap && GateMap["u3"] == QasmGate("u3", 1, 3, false)
    ensures "h" in GateMap && GateMap["h"] == QasmGate("h", 1, 0, false)
    ensures "cx" in GateMap && GateMap["cx"] == QasmGate("cx", 2, 0, false)
    ensures "rx" in GateMap && GateMap["rx"] == QasmGate("rx", 1, 1, false)
  {
    U3Entry();
  }

  /** `u3`, the first key, is not written over by a later one. */
  lemma {:induction false} U3Entry()
    ensures "u3" in GateMap && GateMap["u3"] == QasmGate("u3", 1, 3, false)
  {
    assert GateMap["u3"] == Gates1[0];
  }
}
