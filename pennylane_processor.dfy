/** qite/processors/pennylane_processor.py, PennyLaneExporter.
    _export_to_qasm_with_pennylane: before PennyLane writes a decomposed
    circuit as QASM, its operations get an identity on every wire up to the
    highest one (so that the wire order survives the export), and its
    mid-circuit measurements become expectation values of PauliZ on the
    measured wires. The decomposition and the QASM writer are PennyLane's
    and are not modelled: the result here is the script handed to
    `to_openqasm`. */
module PennylaneProcessor {
  const MidMeasure := "MidMeasureMP"
  const Identity := "Identity"

  /** An operation of a PennyLane quantum script: its name and wires. */
  datatype Op = Op(name: string, wires: seq<nat>)

  /** `QuantumScript(ops, [expval(PauliZ(w)) for w in measured])`, with
      the `measure_all` flag `to_openqasm` is called with. */
  datatype Script = Script(ops: seq<Op>, measured: set<nat>, measureAll: bool)

  function MaxOf(ws: seq<nat>): (m: nat)
    ensures forall i :: 0 <= i < |ws| ==> ws[i] <= m
    ensures ws == [] ==> m == 0
    ensures ws != [] ==> m in ws
  {
    if ws == [] then 0
    else
      var rest := MaxOf(ws[1..]);
      if ws[0] >= rest then ws[0] else rest
  }

  /** `max(op.wires) if op.wires else 0`. */
  function HighestOf(op: Op): nat
  {
    MaxOf(op.wires)
  }

  /** No wire of any operation lies above `h`, and `h` is 0 or a wire of
      some operation. */
  predicate IsHighest(h: nat, ops: seq<Op>)
  {
    && (forall i, j :: 0 <= i < |ops| && 0 <= j < |ops[i].wires| ==> ops[i].wires[j] <= h)
    && (h == 0 || exists i :: 0 <= i < |ops| && h in ops[i].wires)
  }

  /** The highest-wire loop. */
  method HighestWire(ops: seq<Op>) returns (h: nat)
    ensures IsHighest(h, ops)
  {
    h := 0;
    for k := 0 to |ops|
      invariant forall i, j :: 0 <= i < k && 0 <= j < |ops[i].wires| ==> ops[i].wires[j] <= h
      invariant h == 0 || exists i :: 0 <= i < k && h in ops[i].wires
    {
      var here := HighestOf(ops[k]);
      if here > h {
        h := here;
      }
    }
  }

  /** `qml.Identity(wires=[i])` for each wire 0..n-1. */
  function Identities(n: nat): (r: seq<Op>)
    ensures |r| == n && forall i :: 0 <= i < n ==> r[i] == Op(Identity, [i])
  {
    if n == 0 then [] else Identities(n - 1) + [Op(Identity, [n - 1])]
  }

  /** The operations that are no mid-circuit measurement, in order. */
  function Unmeasured(ops: seq<Op>): (r: seq<Op>)
    ensures |r| <= |ops|
    decreases |ops|
  {
    if ops == [] then []
    else
      var last := ops[|ops| - 1];
      Unmeasured(ops[..|ops| - 1]) + (if last.name == MidMeasure then [] else [last])
  }

  /** The wires of the mid-circuit measurements. */
  function MeasuredWires(ops: seq<Op>): set<nat>
    decreases |ops|
  {
    if ops == [] then {}
    else
      var last := ops[|ops| - 1];
      MeasuredWires(ops[..|ops| - 1]) + (if last.name == MidMeasure then set w | w in last.wires else {})
  }

  lemma {:induction false} UnmeasuredAppend(a: seq<Op>, b: seq<Op>)
    ensures Unmeasured(a + b) == Unmeasured(a) + Unmeasured(b)
    decreases |b|
  {
    if b == [] {
      assert a + b == a;
    } else {
      UnmeasuredAppend(a, b[..|b| - 1]);
      assert (a + b)[..|a + b| - 1] == a + b[..|b| - 1];
    }
  }

  /** The measurement loop: mid-circuit measurements are removed and
      their wires collected, the other operations kept in order. */
  method SplitMeasurements(ops: seq<Op>) returns (kept: seq<Op>, measured: set<nat>)
    ensures kept == Unmeasured(ops) && measured == MeasuredWires(ops)
  {
    kept := [];
    measured := {};
    for i := 0 to |ops|
      invariant kept == Unmeasured(ops[..i]) && measured == MeasuredWires(ops[..i])
    {
      assert ops[..i + 1][..i] == ops[..i];
      var op := ops[i];
      if op.name == MidMeasure {
        var ws := op.wires;
        for j := 0 to |ws|
          invariant measured == MeasuredWires(ops[..i]) + set w | w in ws[..j]
        {
          assert ws[..j + 1] == ws[..j] + [ws[j]];
          measured := measured + {ws[j]};
        }
        assert ws[..|ws|] == ws;
      } else {
        kept := kept + [op];
      }
    }
    assert ops[..|ops|] == ops;
  }

  /** _export_to_qasm_with_pennylane. */
  method ExportScript(ops: seq<Op>) returns (s: Script)
    ensures exists h: nat :: IsHighest(h, ops) && s == Script(Unmeasured(Identities(h + 1) + ops), MeasuredWires(Identities(h + 1) + ops), false)
  {
    var h := HighestWire(ops);
    var withIds: seq<Op> := [];
    for i := 0 to h + 1
      invariant withIds == Identities(i)
    {
      withIds := withIds + [Op(Identity, [i])];
    }
    withIds := withIds + ops;
    var kept, measured := SplitMeasurements(withIds);
    s := Script(kept, measured, false);
  }

  /** The identities are kept and measure nothing: the exported operations
      are one identity per wire 0..h followed by the circuit's
      non-measurement operations in their order. */
  lemma {:induction false} IdentitiesKept(n: nat, ops: seq<Op>)
    ensures Unmeasured(Identities(n) + ops) == Identities(n) + Unmeasured(ops)
    ensures MeasuredWires(Identities(n) + ops) == MeasuredWires(ops)
  {
    UnmeasuredAppend(Identities(n), ops);
    UnmeasuredIdentities(n);
    MeasuredAppend(Identities(n), ops);
    MeasuredIdentities(n);
  }

  lemma {:induction false} IdentityIsNoMeasurement()
    ensures Identity != MidMeasure
  {
    assert Identity[0] != MidMeasure[0];
  }

  lemma {:induction false} UnmeasuredIdentities(n: nat)
    ensures Unmeasured(Identities(n)) == Identities(n)
  {
    if n > 0 {
      var ids, prev := Identities(n), Identities(n - 1);
      assert ids[..n - 1] == prev;
      IdentityIsNoMeasurement();
      assert ids[n - 1].name != MidMeasure;
      assert Unmeasured(ids) == Unmeasured(prev) + [ids[n - 1]];
      UnmeasuredIdentities(n - 1);
      assert ids == prev + [ids[n - 1]];
    }
  }

  lemma {:induction false} MeasuredIdentities(n: nat)
    ensures MeasuredWires(Identities(n)) == {}
  {
    if n > 0 {
      var ids, prev := Identities(n), Identities(n - 1);
      assert ids[..n - 1] == prev;
      IdentityIsNoMeasurement();
      assert ids[n - 1].name != MidMeasure;
      assert MeasuredWires(ids) == MeasuredWires(prev);
      MeasuredIdentities(n - 1);
    }
  }

  lemma {:induction false} MeasuredAppend(a: seq<Op>, b: seq<Op>)
    ensures MeasuredWires(a + b) == MeasuredWires(a) + MeasuredWires(b)
    decreases |b|
  {
    if b == [] {
      assert a + b == a;
    } else {
      MeasuredAppend(a, b[..|b| - 1]);
      assert (a + b)[..|a + b| - 1] == a + b[..|b| - 1];
    }
  }

  /** What is kept: exactly the operations that are no measurement, none
      of them a measurement; what is measured: exactly the wires some
      measurement acts on. */
  lemma {:induction false} SplitSpec(ops: seq<Op>)
    ensures forall op :: op in Unmeasured(ops) <==> op in ops && op.name != MidMeasure
    ensures forall w :: w in MeasuredWires(ops) <==> exists i :: 0 <= i < |ops| && ops[i].name == MidMeasure && w in ops[i].wires
    decreases |ops|
  {
    if ops != [] {
      var n := |ops| - 1;
      SplitSpec(ops[..n]);
      assert ops == ops[..n] + [ops[n]];
      forall w | w in MeasuredWires(ops)
        ensures exists i :: 0 <= i < |ops| && ops[i].name == MidMeasure && w in ops[i].wires
      {
        if w !in MeasuredWires(ops[..n]) {
          assert ops[n].name == MidMeasure && w in ops[n].wires;
        } else {
          var i :| 0 <= i < n && ops[..n][i].name == MidMeasure && w in ops[..n][i].wires;
          assert ops[i] == ops[..n][i];
        }
      }
      forall w, i | 0 <= i < |ops| && ops[i].name == MidMeasure && w in ops[i].wires
        ensures w in MeasuredWires(ops)
      {
        if i < n {
          assert ops[..n][i] == ops[i];
        }
      }
    }
  }
}

/** validate/pennylane_processor.py, PennyLaneExporter: the older export
    has no identity prefix and asks for `measure_all=True`. */
module ValidatePennylaneProcessor {
  import opened PennylaneProcessor

  method ExportScript(ops: seq<Op>) returns (s: Script)
    ensures s == Script(Unmeasured(ops), MeasuredWires(ops), true)
  {
    var kept, measured := SplitMeasurements(ops);
    s := Script(kept, measured, true);
  }
}
