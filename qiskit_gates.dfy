/** The random Qiskit statement generator: a sampler of distinct register
    indices, each gate class as a template of argument slots, and the
    instantiation of one gate into a statement such as
    `qc.cx(qr[2], qr[0])`. Angles and other random values are drawn as
    text; the model constrains only the register indices. */
module QiskitGates {
  import opened Py
  import opened PyStr

  // ---------------------------------------------------------------------
  // The sampler

  /** `set(range(n))`. */
  function Range(n: int): set<int>
    decreases if n < 0 then 0 else n
  {
    if n <= 0 then {} else Range(n - 1) + {n - 1}
  }

  lemma {:induction false} RangeMember(n: int, x: int)
    ensures x in Range(n) <==> 0 <= x < n
    decreases if n < 0 then 0 else n
  {
    if n > 0 {
      RangeMember(n - 1, x);
    }
  }

  /** `len(range(n))`. */
  function Cap(n: int): nat
  {
    if n < 0 then 0 else n
  }

  lemma {:induction false} RangeSize(n: int)
    ensures |Range(n)| == Cap(n)
    decreases Cap(n)
  {
    if n > 0 {
      RangeSize(n - 1);
      RangeMember(n - 1, n - 1);
    }
  }

  predicate Distinct(s: seq<int>)
  {
    forall i, j :: 0 <= i < j < |s| ==> s[i] != s[j]
  }

  /** `set(s)`. */
  function Elements(s: seq<int>): set<int>
    decreases |s|
  {
    if s == [] then {} else Elements(s[..|s| - 1]) + {s[|s| - 1]}
  }

  lemma {:induction false} ElementsMember(s: seq<int>, x: int)
    ensures x in Elements(s) <==> x in s
    decreases |s|
  {
    if s != [] {
      ElementsMember(s[..|s| - 1], x);
      assert s == s[..|s| - 1] + [s[|s| - 1]];
    }
  }

  lemma {:induction false} ElementsSnoc(s: seq<int>, x: int)
    ensures Elements(s + [x]) == Elements(s) + {x}
  {
    assert (s + [x])[..|s|] == s;
  }

  lemma {:induction false} DistinctSize(s: seq<int>)
    requires Distinct(s)
    ensures |Elements(s)| == |s|
    decreases |s|
  {
    if s != [] {
      var init := s[..|s| - 1];
      assert Distinct(init);
      DistinctSize(init);
      ElementsMember(init, s[|s| - 1]);
      assert s[|s| - 1] !in init by {
        forall i | 0 <= i < |init| ensures init[i] != s[|s| - 1] {
          assert s[i] != s[|s| - 1];
        }
      }
    }
  }

  /** The sampler's two sets partition the first `n` indices, and the
      sampled ones, drawn in the order `drawn`, are exactly those indices
      no longer available. */
  lemma {:induction false} Remaining(available: set<int>, sampled: set<int>, n: int, drawn: seq<int>)
    requires available + sampled == Range(n) && available !! sampled
    requires sampled == Elements(drawn) && Distinct(drawn)
    ensures |available| + |drawn| == Cap(n)
  {
    RangeSize(n);
    DistinctSize(drawn);
  }

  /** Between two resets at most `max_value` values are sampled. */
  lemma {:induction false} SampledBound(available: set<int>, sampled: set<int>, n: int)
    requires available + sampled == Range(n) && available !! sampled
    ensures |sampled| <= Cap(n)
    ensures available == {} <==> |sampled| == Cap(n)
  {
    RangeSize(n);
    assert |available + sampled| == |available| + |sampled|;
  }

  const ExhaustedMessage := "No more distinct values available to sample."

  /** Draws indices below `maxValue` without repetition until it is reset. */
  class DistinctSampler {
    const maxValue: int
    var available: set<int>
    var sampled: set<int>

    /** `available ∪ sampled = {0..maxValue-1}`, and the two are disjoint. */
    ghost predicate Valid()
      reads this
    {
      available + sampled == Range(maxValue) && available !! sampled
    }

    constructor(maxValue: int)
      ensures this.maxValue == maxValue
      ensures available == Range(maxValue) && sampled == {}
      ensures Valid()
    {
      this.maxValue := maxValue;
      available := Range(maxValue);
      sampled := {};
    }

    /** `sample()`: an available value, chosen at random from the listed
        ones, moves to the sampled set; an exhausted sampler raises ValueError. */
    method Sample() returns (r: Result<int>)
      requires Valid()
      modifies this
      ensures Valid()
      ensures old(available) == {} ==> r == Err(ValueError(ExhaustedMessage)) && unchanged(this)
      ensures old(available) != {} ==> && r.Ok? && r.value in old(available)
                                       && available == old(available) - {r.value}
                                       && sampled == old(sampled) + {r.value}
    {
      if available == {} {
        return Err(ValueError(ExhaustedMessage));
      }
      var values := GetRemaining();
      assert values != [];
      var k :| 0 <= k < |values|;
      var v := values[k];
      ElementsMember(values, v);
      available := available - {v};
      sampled := sampled + {v};
      return Ok(v);
    }

    /** `reset()`: back to the state the constructor leaves. */
    method Reset()
      modifies this
      ensures available == Range(maxValue) && sampled == {}
      ensures Valid()
    {
      available := Range(maxValue);
      sampled := {};
    }

    /** `get_remaining()`: the available values, each once; small
        integers hash to themselves, so `list` of such a set lists them in
        ascending order. */
    method GetRemaining() returns (r: seq<int>)
      requires Valid()
      ensures Elements(r) == available && Distinct(r)
      ensures forall k :: 0 < k < |r| ==> r[k - 1] < r[k]
    {
      r := [];
      var i := 0;
      while i < maxValue
        invariant 0 <= i && (maxValue >= 0 ==> i <= maxValue)
        invariant Elements(r) == available * Range(i) && Distinct(r)
        invariant forall k :: 0 <= k < |r| ==> r[k] < i
        invariant forall k :: 0 < k < |r| ==> r[k - 1] < r[k]
      {
        if i in available {
          ElementsMember(r, i);
          MoveOne({i}, r, i);
          r := r + [i];
        }
        i := i + 1;
      }
      forall x | x in available ensures x in Range(i) {
        RangeMember(maxValue, x);
        RangeMember(i, x);
      }
    }
  }

  /** Moving one element from the rest to the listed ones keeps the list
      free of repetitions and the two together unchanged. */
  lemma {:induction false} MoveOne(rest: set<int>, r: seq<int>, v: int)
    requires v in rest && rest !! Elements(r) && Distinct(r)
    ensures (rest - {v}) + Elements(r + [v]) == rest + Elements(r)
    ensures (rest - {v}) !! Elements(r + [v])
    ensures Distinct(r + [v])
  {
    assert Elements([v]) == {v} by { assert [v][..0] == []; }
    DistinctAppend(r, [v]);
  }

  // ---------------------------------------------------------------------
  // Gate templates

  /** One argument of a gate statement. */
  datatype Slot =
    | Value                   // a random value, drawn as text: an angle, a duration, a word
    | Fixed(text: string)     // a constant argument
    | Qubit                   // `qr[i]`, i drawn from the gate's qubit sampler
    | Clbit                   // `cr[j]`, j drawn from the gate's clbit sampler
    | Qubits(bracketed: bool) // `count` drawn qubits joined by ", ", in `[...]` when bracketed

  /** A gate class: the circuit method it calls, its arguments, and the
      range `randint(lo, hi)` draws the length of its qubit list from
      (0..0 for a class without one). */
  datatype Template = Template(name: string, slots: seq<Slot>, lo: nat, hi: nat)

  /** The gate classes. */
  datatype GateClass =
    | Barrier | Ccx | Ccz | Cp | Cx | Crx | Cry | Crz | Cs | Csdg | Cswap | Csx | Cu
    | Cy | Cz | Dcx | Delay | Ecr | H | Id | Initialize | Iswap | Mcp | Mcrx | Mcry
    | Mcrz | Mcx | Measure | Ms | P | Pauli | PrepareState | R | Rcccx | Rccx | Reset
    | Rv | Rx | Rxx | Ry | Ryy | Rz | Rzx | Rzz | S | Sdg | Store | Swap | Sx | Sxdg
    | T | Tdg | U | Unit | X | Y | Z

  function Fixed2(name: string): Template { Template(name, [Qubit, Qubit], 0, 0) }
  function Fixed1(name: string): Template { Template(name, [Qubit], 0, 0) }
  function Rotation1(name: string): Template { Template(name, [Value, Qubit], 0, 0) }
  function Rotation2(name: string): Template { Template(name, [Value, Qubit, Qubit], 0, 0) }
  function MultiControlled(name: string): Template { Template(name, [Value, Qubits(true), Qubit], 1, 3) }

  /** What `instantiate` of each class emits. */
  function TemplateOf(g: GateClass): (t: Template)
    ensures t.lo <= t.hi
    ensures Qubit in t.slots || (1 <= t.lo && (Qubits(false) in t.slots || Qubits(true) in t.slots))
  {
    match g
    case Barrier => Template("barrier", [Qubits(false)], 1, 5)
    case Ccx => Template("ccx", [Qubit, Qubit, Qubit], 0, 0)
    case Ccz => Template("ccz", [Qubit, Qubit, Qubit], 0, 0)
    case Cp => Rotation2("cp")
    case Cx => Fixed2("cx")
    case Crx => Rotation2("crx")
    case Cry => Rotation2("cry")
    case Crz => Rotation2("crz")
    case Cs => Fixed2("cs")
    case Csdg => Fixed2("csdg")
    case Cswap => Template("cswap", [Qubit, Qubit, Qubit], 0, 0)
    case Csx => Fixed2("csx")
    case Cu => Template("cu", [Value, Value, Value, Value, Qubit, Qubit], 0, 0)
    case Cy => Fixed2("cy")
    case Cz => Fixed2("cz")
    case Dcx => Fixed2("dcx")
    case Delay => Template("delay", [Value, Qubit, Fixed("unit='dt'")], 0, 0)
    case Ecr => Fixed2("ecr")
    case H => Fixed1("h")
    case Id => Fixed1("id")
    case Initialize => Template("initialize", [Value, Qubit], 0, 0)
    case Iswap => Fixed2("iswap")
    case Mcp => MultiControlled("mcp")
    case Mcrx => MultiControlled("mcrx")
    case Mcry => MultiControlled("mcry")
    case Mcrz => MultiControlled("mcrz")
    case Mcx => Template("mcx", [Qubits(true), Qubit], 1, 3)
    case Measure => Template("measure", [Qubit, Clbit], 0, 0)
    case Ms => Template("ms", [Value, Qubits(true)], 1, 3)
    case P => Rotation1("p")
    case Pauli => Template("pauli", [Value, Qubits(false)], 1, 3)
    case PrepareState => Template("prepare_state", [Value, Qubit], 0, 0)
    case R => Template("r", [Value, Value, Qubit], 0, 0)
    case Rcccx => Template("rcccx", [Qubit, Qubit, Qubit, Qubit], 0, 0)
    case Rccx => Template("rccx", [Qubit, Qubit, Qubit], 0, 0)
    case Reset => Fixed1("reset")
    case Rv => Template("rv", [Value, Value, Value, Qubit], 0, 0)
    case Rx => Rotation1("rx")
    case Rxx => Rotation2("rxx")
    case Ry => Rotation1("ry")
    case Ryy => Rotation2("ryy")
    case Rz => Rotation1("rz")
    case Rzx => Rotation2("rzx")
    case Rzz => Rotation2("rzz")
    case S => Fixed1("s")
    case Sdg => Fixed1("sdg")
    case Store => Template("store", [Value, Qubits(false)], 1, 3)
    case Swap => Fixed2("swap")
    case Sx => Fixed1("sx")
    case Sxdg => Fixed1("sxdg")
    case T => Fixed1("t")
    case Tdg => Fixed1("tdg")
    case U => Template("u", [Value, Value, Value, Qubit], 0, 0)
    case Unit => Template("unitary", [Fixed("obj"), Qubit], 0, 0)
    case X => Fixed1("x")
    case Y => Fixed1("y")
    case Z => Fixed1("z")
  }

  /** `GATE_MAP` of this generator: every class except Initialize,
      Measure, Ms, Pauli, PrepareState, Reset, Store, U and Unit. */
  const GateMap: map<string, GateClass> := map[
    "barrier" := Barrier, "ccx" := Ccx, "ccz" := Ccz, "cp" := Cp, "cx" := Cx,
    "crx" := Crx, "cry" := Cry, "crz" := Crz, "cs" := Cs, "csdg" := Csdg,
    "cswap" := Cswap, "csx" := Csx, "cu" := Cu, "cy" := Cy, "cz" := Cz,
    "dcx" := Dcx, "ecr" := Ecr, "h" := H, "id" := Id, "iswap" := Iswap,
    "mcp" := Mcp, "mcrx" := Mcrx, "mcry" := Mcry, "mcrz" := Mcrz, "mcx" := Mcx,
    "p" := P, "r" := R, "rcccx" := Rcccx, "rccx" := Rccx, "rv" := Rv,
    "rx" := Rx, "rxx" := Rxx, "ry" := Ry, "ryy" := Ryy, "rz" := Rz,
    "rzx" := Rzx, "rzz" := Rzz, "s" := S, "sdg" := Sdg, "swap" := Swap,
    "sx" := Sx, "sxdg" := Sxdg, "t" := T, "tdg" := Tdg, "x" := X,
    "y" := Y, "z" := Z, "delay" := Delay]


  // ---------------------------------------------------------------------
  // Instantiation

  /** How many qubits, clbits and random values a slot draws, for a qubit
      list of `count`. */
  function SlotQubits(s: Slot, count: nat): nat
  {
    match s
    case Qubit => 1
    case Qubits(_) => count
    case _ => 0
  }

  function SlotClbits(s: Slot): nat { if s.Clbit? then 1 else 0 }

  function SlotValues(s: Slot): nat { if s.Value? then 1 else 0 }

  /** What the first `k` slots draw. */
  function QubitsNeeded(slots: seq<Slot>, k: nat, count: nat): nat
    requires k <= |slots|
  {
    if k == 0 then 0 else QubitsNeeded(slots, k - 1, count) + SlotQubits(slots[k - 1], count)
  }

  function ClbitsNeeded(slots: seq<Slot>, k: nat): nat
    requires k <= |slots|
  {
    if k == 0 then 0 else ClbitsNeeded(slots, k - 1) + SlotClbits(slots[k - 1])
  }

  function ValuesNeeded(slots: seq<Slot>, k: nat): nat
    requires k <= |slots|
  {
    if k == 0 then 0 else ValuesNeeded(slots, k - 1) + SlotValues(slots[k - 1])
  }

  /** The first `k` slots never need more than all of them. */
  lemma {:induction false} NeededPrefix(slots: seq<Slot>, k: nat, count: nat)
    requires k <= |slots|
    ensures QubitsNeeded(slots, k, count) <= QubitsNeeded(slots, |slots|, count)
    ensures ClbitsNeeded(slots, k) <= ClbitsNeeded(slots, |slots|)
    decreases |slots| - k
  {
    if k < |slots| {
      NeededPrefix(slots, k + 1, count);
    }
  }

  /** The values, qubit indices and clbit indices a statement drew, in
      the order it drew them. */
  datatype Draws = Draws(values: seq<string>, qubits: seq<int>, clbits: seq<int>)

  /** `d` holds exactly what the first `k` slots draw. */
  predicate Sized(slots: seq<Slot>, k: nat, count: nat, d: Draws)
    requires k <= |slots|
  {
    && |d.values| == ValuesNeeded(slots, k)
    && |d.qubits| == QubitsNeeded(slots, k, count)
    && |d.clbits| == ClbitsNeeded(slots, k)
  }

  /** `d` holds exactly what slot `s` draws. */
  predicate SlotSized(s: Slot, count: nat, d: Draws)
  {
    |d.values| == SlotValues(s) && |d.qubits| == SlotQubits(s, count) && |d.clbits| == SlotClbits(s)
  }

  /** `reg[i]`. */
  function Ref(reg: string, i: int): string
  {
    reg + "[" + IntToString(i) + "]"
  }

  function Refs(reg: string, s: seq<int>): (r: seq<string>)
    ensures |r| == |s|
  {
    seq(|s|, k requires 0 <= k < |s| => Ref(reg, s[k]))
  }

  /** The text of one slot from exactly the draws it made. */
  function SlotText(s: Slot, count: nat, d: Draws, qreg: string, creg: string): string
    requires SlotSized(s, count, d)
  {
    match s
    case Value => d.values[0]
    case Fixed(t) => t
    case Qubit => Ref(qreg, d.qubits[0])
    case Clbit => Ref(creg, d.clbits[0])
    case Qubits(b) =>
      var run := Join(", ", Refs(qreg, d.qubits));
      if b then "[" + run + "]" else run
  }

  /** The arguments of the first `k` slots, each slot taking its draws in
      turn. */
  function Args(slots: seq<Slot>, k: nat, count: nat, d: Draws, qreg: string, creg: string): (r: seq<string>)
    requires k <= |slots| && Sized(slots, k, count, d)
    ensures |r| == k
  {
    if k == 0 then []
    else
      var last := slots[k - 1];
      var nv := |d.values| - SlotValues(last);
      var nq := |d.qubits| - SlotQubits(last, count);
      var nc := |d.clbits| - SlotClbits(last);
      Args(slots, k - 1, count, Draws(d.values[..nv], d.qubits[..nq], d.clbits[..nc]), qreg, creg)
        + [SlotText(last, count, Draws(d.values[nv..], d.qubits[nq..], d.clbits[nc..]), qreg, creg)]
  }

  /** A generated statement: its text, the list length drawn, and its
      draws. */
  datatype Statement = Statement(text: string, count: nat, draws: Draws)

  /** `f"{circuit_var}.{name}({args})"`. */
  function Text(t: Template, count: nat, d: Draws, circ: string, qreg: string, creg: string): string
    requires Sized(t.slots, |t.slots|, count, d)
  {
    circ + "." + t.name + "(" + Join(", ", Args(t.slots, |t.slots|, count, d, qreg, creg)) + ")"
  }

  /** A gate of template `t` with a list of `count` instantiates under
      the given register sizes. */
  predicate Fits(t: Template, count: nat, maxQubits: int, maxBits: int)
  {
    QubitsNeeded(t.slots, |t.slots|, count) <= Cap(maxQubits) && ClbitsNeeded(t.slots, |t.slots|) <= Cap(maxBits)
  }

  /** What an instantiated statement is: its text is the template over
      its draws, and its register indices are pairwise distinct and in
      range. */
  predicate WellDrawn(st: Statement, t: Template, maxQubits: int, maxBits: int, circ: string, qreg: string, creg: string)
  {
    && t.lo <= st.count <= t.hi
    && Sized(t.slots, |t.slots|, st.count, st.draws)
    && Distinct(st.draws.qubits) && Elements(st.draws.qubits) <= Range(maxQubits)
    && Distinct(st.draws.clbits) && Elements(st.draws.clbits) <= Range(maxBits)
    && st.text == Text(t, st.count, st.draws, circ, qreg, creg)
  }

  /** Draws `count` indices from a sampler, one after the other. */
  method DrawIndices(count: nat, qs: DistinctSampler) returns (r: Result<seq<int>>)
    requires qs.Valid()
    modifies qs
    ensures qs.Valid()
    ensures r.Err? <==> count > |old(qs.available)|
    ensures r.Err? ==> r.exc == ValueError(ExhaustedMessage)
    ensures r.Ok? ==> && |r.value| == count
                      && Distinct(r.value) && Elements(r.value) <= old(qs.available)
                      && qs.available == old(qs.available) - Elements(r.value)
                      && qs.sampled == old(qs.sampled) + Elements(r.value)
  {
    ghost var a0, s0 := qs.available, qs.sampled;
    var drawn: seq<int> := [];
    var k := 0;
    assert Elements(drawn) == {};
    while k < count
      invariant 0 <= k <= count && |drawn| == k
      invariant qs.Valid()
      invariant Distinct(drawn) && Elements(drawn) <= a0
      invariant qs.available == a0 - Elements(drawn)
      invariant qs.sampled == s0 + Elements(drawn)
    {
      var i := qs.Sample();
      if i.Err? {
        Exhausted(a0, drawn);
        return Err(i.exc);
      }
      TakeOne(a0, s0, drawn, i.value);
      drawn := drawn + [i.value];
      k := k + 1;
    }
    DistinctSize(drawn);
    assert |a0 - Elements(drawn)| == |a0| - |drawn|;
    return Ok(drawn);
  }

  /** Once every value that was available is drawn, more were drawn than
      were available. */
  lemma {:induction false} Exhausted(a0: set<int>, drawn: seq<int>)
    requires Distinct(drawn) && a0 - Elements(drawn) == {}
    ensures |a0| <= |drawn|
  {
    DistinctSize(drawn);
    assert a0 <= Elements(drawn);
  }

  /** Drawing one more available value. */
  lemma {:induction false} TakeOne(a0: set<int>, s0: set<int>, drawn: seq<int>, v: int)
    requires Distinct(drawn) && Elements(drawn) <= a0 && v in a0 - Elements(drawn)
    ensures Distinct(drawn + [v]) && Elements(drawn + [v]) <= a0
    ensures (a0 - Elements(drawn)) - {v} == a0 - Elements(drawn + [v])
    ensures (s0 + Elements(drawn)) + {v} == s0 + Elements(drawn + [v])
  {
    MoveOne({v}, drawn, v);
    ElementsSnoc(drawn, v);
  }

  /** Draws one slot's values and indices from the gate's samplers. */
  method DrawSlot(s: Slot, count: nat, qs: DistinctSampler, cs: DistinctSampler) returns (r: Result<Draws>)
    requires qs.Valid() && cs.Valid() && qs != cs
    modifies qs, cs
    ensures qs.Valid() && cs.Valid()
    ensures r.Err? <==> SlotQubits(s, count) > |old(qs.available)| || SlotClbits(s) > |old(cs.available)|
    ensures r.Err? ==> r.exc == ValueError(ExhaustedMessage)
    ensures r.Ok? ==> && SlotSized(s, count, r.value)
                      && Distinct(r.value.qubits) && Elements(r.value.qubits) <= old(qs.available)
                      && Distinct(r.value.clbits)
                      && qs.available == old(qs.available) - Elements(r.value.qubits)
                      && qs.sampled == old(qs.sampled) + Elements(r.value.qubits)
                      && Elements(r.value.clbits) <= old(cs.available)
                      && cs.available == old(cs.available) - Elements(r.value.clbits)
                      && cs.sampled == old(cs.sampled) + Elements(r.value.clbits)
  {
    assert [s][..0] == [];
    var q := DrawIndices(SlotQubits(s, count), qs);
    if q.Err? {
      return Err(q.exc);
    }
    var c := DrawIndices(SlotClbits(s), cs);
    if c.Err? {
      return Err(c.exc);
    }
    var values: seq<string> := [];
    if s.Value? {
      var v: string := *;
      values := [v];
    }
    return Ok(Draws(values, q.value, c.value));
  }

  lemma DistinctAppend(a: seq<int>, b: seq<int>)
    requires Distinct(a) && Distinct(b) && Elements(a) !! Elements(b)
    ensures Distinct(a + b) && Elements(a + b) == Elements(a) + Elements(b)
  {
    ElementsConcat(a, b);
    var c := a + b;
    forall i, j | 0 <= i < j < |c| ensures c[i] != c[j] {
      if i < |a| <= j {
        ElementsMember(a, c[i]);
        ElementsMember(b, c[j]);
        assert c[i] == a[i] && c[j] == b[j - |a|];
      } else if |a| <= i {
        assert c[i] == b[i - |a|] && c[j] == b[j - |a|];
      }
    }
  }

  lemma {:induction false} ElementsConcat(a: seq<int>, b: seq<int>)
    ensures Elements(a + b) == Elements(a) + Elements(b)
    decreases |b|
  {
    if b != [] {
      var init, x := b[..|b| - 1], b[|b| - 1];
      ElementsConcat(a, init);
      assert a + b == (a + init) + [x];
      assert b == init + [x];
      ElementsSnoc(a + init, x);
      ElementsSnoc(init, x);
    } else {
      assert a + b == a;
    }
  }

  /** One more slot, with the draws it made appended to the earlier ones,
      adds its own text as one more argument. */
  lemma {:induction false} ArgsSnoc(slots: seq<Slot>, k: nat, count: nat, d: Draws, e: Draws, qreg: string, creg: string)
    requires k < |slots| && Sized(slots, k, count, d) && SlotSized(slots[k], count, e)
    ensures Sized(slots, k + 1, count, Draws(d.values + e.values, d.qubits + e.qubits, d.clbits + e.clbits))
    ensures Args(slots, k + 1, count, Draws(d.values + e.values, d.qubits + e.qubits, d.clbits + e.clbits), qreg, creg)
         == Args(slots, k, count, d, qreg, creg) + [SlotText(slots[k], count, e, qreg, creg)]
  {
    var f := Draws(d.values + e.values, d.qubits + e.qubits, d.clbits + e.clbits);
    assert f.values[..|d.values|] == d.values && f.values[|d.values|..] == e.values;
    assert f.qubits[..|d.qubits|] == d.qubits && f.qubits[|d.qubits|..] == e.qubits;
    assert f.clbits[..|d.clbits|] == d.clbits && f.clbits[|d.clbits|..] == e.clbits;
  }

  /** A slot that needs more than is left of a register: the template
      does not fit the registers. */
  lemma {:induction false} ExhaustedNotFits(t: Template, k: nat, count: nat, d: Draws, qLeft: nat, cLeft: nat,
                                            maxQubits: int, maxBits: int)
    requires k < |t.slots| && Sized(t.slots, k, count, d)
    requires qLeft + |d.qubits| == Cap(maxQubits) && cLeft + |d.clbits| == Cap(maxBits)
    requires SlotQubits(t.slots[k], count) > qLeft || SlotClbits(t.slots[k]) > cLeft
    ensures !Fits(t, count, maxQubits, maxBits)
  {
    NeededPrefix(t.slots, k + 1, count);
  }

  /** Draws the arguments of a template in order from two samplers that
      start with nothing sampled; it stops at the first exhausted one. */
  method DrawArgs(t: Template, count: nat, qs: DistinctSampler, cs: DistinctSampler, qreg: string, creg: string)
    returns (r: Result<(Draws, seq<string>)>)
    requires qs != cs && qs.Valid() && cs.Valid() && qs.sampled == {} && cs.sampled == {}
    modifies qs, cs
    ensures r.Ok? <==> Fits(t, count, qs.maxValue, cs.maxValue)
    ensures r.Err? ==> r.exc == ValueError(ExhaustedMessage)
    ensures r.Ok? ==> && Sized(t.slots, |t.slots|, count, r.value.0)
                      && Distinct(r.value.0.qubits) && Elements(r.value.0.qubits) <= Range(qs.maxValue)
                      && Distinct(r.value.0.clbits) && Elements(r.value.0.clbits) <= Range(cs.maxValue)
                      && r.value.1 == Args(t.slots, |t.slots|, count, r.value.0, qreg, creg)
  {
    var d := Draws([], [], []);
    var args: seq<string> := [];
    var k := 0;
    assert Elements([]) == {};
    while k < |t.slots|
      invariant 0 <= k <= |t.slots|
      invariant qs.Valid() && cs.Valid()
      invariant Sized(t.slots, k, count, d)
      invariant qs.sampled == Elements(d.qubits) && Distinct(d.qubits)
      invariant cs.sampled == Elements(d.clbits) && Distinct(d.clbits)
      invariant args == Args(t.slots, k, count, d, qreg, creg)
    {
      var next := DrawStep(t, k, count, qs, cs, d, args, qreg, creg);
      if next.Err? {
        return Err(next.exc);
      }
      d, args := next.value.0, next.value.1;
      k := k + 1;
    }
    DrawnFits(t, count, d, qs.available, qs.sampled, qs.maxValue, cs.available, cs.sampled, cs.maxValue);
    return Ok((d, args));
  }

  /** Draws for every slot, taken from two valid samplers, fit them and
      stay in their ranges. */
  lemma DrawnFits(t: Template, count: nat, d: Draws, qa: set<int>, qsampled: set<int>, maxQubits: int,
                  ca: set<int>, csampled: set<int>, maxBits: int)
    requires Sized(t.slots, |t.slots|, count, d)
    requires qa + qsampled == Range(maxQubits) && qa !! qsampled && qsampled == Elements(d.qubits) && Distinct(d.qubits)
    requires ca + csampled == Range(maxBits) && ca !! csampled && csampled == Elements(d.clbits) && Distinct(d.clbits)
    ensures Fits(t, count, maxQubits, maxBits)
    ensures Elements(d.qubits) <= Range(maxQubits) && Elements(d.clbits) <= Range(maxBits)
  {
    Remaining(qa, qsampled, maxQubits, d.qubits);
    Remaining(ca, csampled, maxBits, d.clbits);
  }

  /** Slot `k` of the template drawn after the first `k`: its draws are
      appended to the earlier ones and its text to the arguments, or an
      exhausted sampler shows that the template does not fit. */
  method DrawStep(t: Template, k: nat, count: nat, qs: DistinctSampler, cs: DistinctSampler,
                  d: Draws, args: seq<string>, qreg: string, creg: string)
    returns (r: Result<(Draws, seq<string>)>)
    requires qs != cs && qs.Valid() && cs.Valid()
    requires k < |t.slots| && Sized(t.slots, k, count, d)
    requires qs.sampled == Elements(d.qubits) && Distinct(d.qubits)
    requires cs.sampled == Elements(d.clbits) && Distinct(d.clbits)
    requires args == Args(t.slots, k, count, d, qreg, creg)
    modifies qs, cs
    ensures qs.Valid() && cs.Valid()
    ensures r.Err? ==> r.exc == ValueError(ExhaustedMessage) && !Fits(t, count, qs.maxValue, cs.maxValue)
    ensures r.Ok? ==> && Sized(t.slots, k + 1, count, r.value.0)
                      && qs.sampled == Elements(r.value.0.qubits) && Distinct(r.value.0.qubits)
                      && cs.sampled == Elements(r.value.0.clbits) && Distinct(r.value.0.clbits)
                      && r.value.1 == Args(t.slots, k + 1, count, r.value.0, qreg, creg)
  {
    ghost var qa := qs.available;
    ghost var ca := cs.available;
    Remaining(qa, qs.sampled, qs.maxValue, d.qubits);
    Remaining(ca, cs.sampled, cs.maxValue, d.clbits);
    var next := DrawSlot(t.slots[k], count, qs, cs);
    if next.Err? {
      ExhaustedNotFits(t, k, count, d, |qa|, |ca|, qs.maxValue, cs.maxValue);
      return Err(next.exc);
    }
    var e := next.value;
    DistinctAppend(d.qubits, e.qubits);
    DistinctAppend(d.clbits, e.clbits);
    ArgsSnoc(t.slots, k, count, d, e, qreg, creg);
    var d' := Draws(d.values + e.values, d.qubits + e.qubits, d.clbits + e.clbits);
    return Ok((d', args + [SlotText(t.slots[k], count, e, qreg, creg)]));
  }

  /** `gate_class(...).instantiate()`: a fresh gate with fresh samplers
      draws its list length, then its arguments in order; it raises
      ValueError exactly when the registers are too small for what it
      draws. */
  method Instantiate(t: Template, circ: string, qreg: string, creg: string, maxQubits: int, maxBits: int)
    returns (count: nat, r: Result<Statement>)
    requires t.lo <= t.hi
    ensures t.lo <= count <= t.hi
    ensures r.Ok? <==> Fits(t, count, maxQubits, maxBits)
    ensures r.Err? ==> r.exc == ValueError(ExhaustedMessage)
    ensures r.Ok? ==> r.value.count == count && WellDrawn(r.value, t, maxQubits, maxBits, circ, qreg, creg)
  {
    count :| t.lo <= count <= t.hi;
    var qs := new DistinctSampler(maxQubits);
    var cs := new DistinctSampler(maxBits);
    var drawn := DrawArgs(t, count, qs, cs, qreg, creg);
    if drawn.Err? {
      return count, Err(drawn.exc);
    }
    var (d, args) := drawn.value;
    r := Ok(Statement(circ + "." + t.name + "(" + Join(", ", args) + ")", count, d));
  }

  /** A barrier draws `count` qubits, so it fails exactly when `count`
      exceeds the register. */
  lemma {:induction false} BarrierFits(count: nat, maxQubits: int, maxBits: int)
    ensures Fits(TemplateOf(Barrier), count, maxQubits, maxBits) <==> count <= Cap(maxQubits)
  {
    var slots := TemplateOf(Barrier).slots;
    assert slots == [Qubits(false)];
    assert QubitsNeeded(slots, 1, count) == count;
  }
}
