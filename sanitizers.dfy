/** The circuit sanitizers that drop measurements: all of them, or only
    those some later operation makes mid-circuit. */
module Sanitizers {
  import opened PySeq

  /** An instruction: its operation's name and the qubits it acts on. */
  datatype Op = Op(name: string, qargs: seq<int>)

  /** A circuit: its qubit and clbit counts and its instructions in order. */
  datatype Circuit = Circuit(numQubits: int, numClbits: int, data: seq<Op>)

  predicate IsMeasure(o: Op) { o.name == "measure" }
  predicate IsGate(o: Op) { o.name != "measure" }

  /** `_remove_measurements`: a circuit of the same size with every
      instruction but the measurements, in order. */
  method RemoveMeasurements(c: Circuit) returns (r: Circuit)
    ensures r.numQubits == c.numQubits && r.numClbits == c.numClbits
    ensures r.data == Filter(c.data, IsGate)
    ensures forall o :: o in r.data <==> o in c.data && !IsMeasure(o)
  {
    var kept: seq<Op> := [];
    for i := 0 to |c.data|
      invariant kept == Filter(c.data[..i], IsGate)
    {
      assert c.data[..i + 1] == c.data[..i] + [c.data[i]];
      FilterAppend(c.data[..i], [c.data[i]], IsGate);
      assert [c.data[i]][1..] == [];
      if c.data[i].name != "measure" {
        kept := kept + [c.data[i]];
      }
    }
    assert c.data[..|c.data|] == c.data;
    FilterSpec(c.data, IsGate);
    r := Circuit(c.numQubits, c.numClbits, kept);
  }

  /** The qubits the non-measurement operations of `ops` act on. */
  function Touched(ops: seq<Op>): set<int>
  {
    if ops == [] then {}
    else (if IsGate(ops[0]) then set q | q in ops[0].qargs else {}) + Touched(ops[1..])
  }

  /** A measurement none of whose qubits a later operation acts on. */
  predicate Final(o: Op, later: seq<Op>)
  {
    forall q :: q in o.qargs ==> q !in Touched(later)
  }

  /** What `_remove_mid_circuit_measurements` keeps: every operation but a
      measurement some later non-measurement shares a qubit with. */
  function KeepFinal(ops: seq<Op>): (r: seq<Op>)
    ensures |r| <= |ops|
  {
    if ops == [] then []
    else (if IsGate(ops[0]) || Final(ops[0], ops[1..]) then [ops[0]] else []) + KeepFinal(ops[1..])
  }

  /** Every measurement comes after the last operation on its qubits. */
  predicate MeasurementsFinal(ops: seq<Op>)
  {
    forall i :: 0 <= i < |ops| && IsMeasure(ops[i]) ==> Final(ops[i], ops[i + 1..])
  }

  /** `_remove_mid_circuit_measurements` over the operations in
      topological order: a reverse scan that marks the qubits of each
      non-measurement dirty and drops a measurement on a dirty qubit. */
  method RemoveMidCircuitMeasurements(ops: seq<Op>) returns (r: seq<Op>)
    ensures r == KeepFinal(ops)
    ensures Filter(r, IsGate) == Filter(ops, IsGate)
    ensures MeasurementsFinal(r)
  {
    var dirty: set<int> := {};
    r := [];
    var i := |ops|;
    while i > 0
      invariant 0 <= i <= |ops|
      invariant dirty == Touched(ops[i..]) && r == KeepFinal(ops[i..])
      decreases i
    {
      i := i - 1;
      var node := ops[i];
      assert ops[i..][1..] == ops[i + 1..];
      if node.name != "measure" {
        dirty := dirty + set q | q in node.qargs;
        r := [node] + r;
      } else {
        assert Final(node, ops[i + 1..]) <==> !(exists k :: 0 <= k < |node.qargs| && node.qargs[k] in dirty) by {
          assert dirty == Touched(ops[i + 1..]);
          if exists k :: 0 <= k < |node.qargs| && node.qargs[k] in dirty {
            var k :| 0 <= k < |node.qargs| && node.qargs[k] in dirty;
            var q := node.qargs[k];
            assert q in node.qargs && q in Touched(ops[i + 1..]);
          } else {
            forall q | q in node.qargs ensures q !in dirty {
              var k :| 0 <= k < |node.qargs| && node.qargs[k] == q;
            }
            assert Final(node, ops[i + 1..]);
          }
        }
        if !(exists k :: 0 <= k < |node.qargs| && node.qargs[k] in dirty) {
          r := [node] + r;
        }
      }
    }
    KeepFinalGates(ops);
    KeepFinalFinal(ops);
  }

  /** No non-measurement is dropped, and their order is kept. */
  lemma {:induction false} KeepFinalGates(ops: seq<Op>)
    ensures Filter(KeepFinal(ops), IsGate) == Filter(ops, IsGate)
  {
    if ops != [] {
      KeepFinalGates(ops[1..]);
      var head := if IsGate(ops[0]) || Final(ops[0], ops[1..]) then [ops[0]] else [];
      FilterAppend(head, KeepFinal(ops[1..]), IsGate);
      if head != [] {
        assert head[1..] == [];
      }
    }
  }

  /** The kept operations act on the same qubits as all of them. */
  lemma {:induction false} KeepFinalTouched(ops: seq<Op>)
    ensures Touched(KeepFinal(ops)) == Touched(ops)
  {
    if ops != [] {
      KeepFinalTouched(ops[1..]);
      var r := KeepFinal(ops);
      if IsGate(ops[0]) || Final(ops[0], ops[1..]) {
        assert r[0] == ops[0] && r[1..] == KeepFinal(ops[1..]);
      } else {
        assert r == KeepFinal(ops[1..]);
      }
    }
  }

  /** After the scan every measurement is final. */
  lemma {:induction false} KeepFinalFinal(ops: seq<Op>)
    ensures MeasurementsFinal(KeepFinal(ops))
  {
    if ops != [] {
      KeepFinalFinal(ops[1..]);
      var rest := KeepFinal(ops[1..]);
      var r := KeepFinal(ops);
      if IsGate(ops[0]) || Final(ops[0], ops[1..]) {
        assert r == [ops[0]] + rest;
        KeepFinalTouched(ops[1..]);
        forall i | 0 <= i < |r| && IsMeasure(r[i]) ensures Final(r[i], r[i + 1..]) {
          if i > 0 {
            assert r[i] == rest[i - 1] && r[i + 1..] == rest[i..];
          } else {
            assert r[1..] == rest;
          }
        }
      } else {
        assert r == rest;
      }
    }
  }

  /** A list whose measurements are all final is left as it is; so
      sanitizing twice is sanitizing once. */
  lemma {:induction false} KeepFinalUnchanged(ops: seq<Op>)
    requires MeasurementsFinal(ops)
    ensures KeepFinal(ops) == ops
  {
    if ops != [] {
      assert MeasurementsFinal(ops[1..]) by {
        forall i | 0 <= i < |ops[1..]| && IsMeasure(ops[1..][i]) ensures Final(ops[1..][i], ops[1..][i + 1..]) {
          assert ops[1..][i] == ops[i + 1] && ops[1..][i + 1..] == ops[i + 2..];
        }
      }
      KeepFinalUnchanged(ops[1..]);
      if IsMeasure(ops[0]) {
        assert Final(ops[0], ops[1..]);
      }
    }
  }

  lemma {:induction false} KeepFinalIdempotent(ops: seq<Op>)
    ensures KeepFinal(KeepFinal(ops)) == KeepFinal(ops)
  {
    KeepFinalFinal(ops);
    KeepFinalUnchanged(KeepFinal(ops));
  }
}
