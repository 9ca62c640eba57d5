/** The knitter that schedules the instructions of two circuits
    alternately: how it merges their registers, and the order of the
    combined instructions. */
module InterleavedKnitter {
  import opened PySeq
  import opened Sorting

  /** A quantum or classical register, by its (already prefixed) name. */
  datatype Register = Register(name: string, size: int, quantum: bool)

  /** A register with the circuit it comes from, 1 or 2. */
  datatype Tagged = Tagged(reg: Register, origin: int)

  function Tag(regs: seq<Register>, origin: int): (r: seq<Tagged>)
    ensures |r| == |regs|
    ensures forall i :: 0 <= i < |r| ==> r[i] == Tagged(regs[i], origin)
  {
    seq(|regs|, i requires 0 <= i < |regs| => Tagged(regs[i], origin))
  }

  function Size(t: Tagged): int { t.reg.size }
  function NameOf(t: Tagged): string { t.reg.name }
  predicate IsQuantum(t: Tagged) { t.reg.quantum }
  predicate IsClassical(t: Tagged) { !t.reg.quantum }

  /** The registers of both circuits of one kind, largest first, the
      first circuit's before the second's among equal sizes. */
  function SortedOfKind(regs1: seq<Register>, regs2: seq<Register>, quantum: bool): seq<Tagged>
  {
    var tagged := Tag(regs1, 1) + Tag(regs2, 2);
    SortDesc(Filter(tagged, if quantum then IsQuantum else IsClassical), Size)
  }

  /** The dict assignments of one scan, in order: the register at the
      front maps to itself, and so does the last; a next register of the
      other circuit maps to it too and is consumed with it. */
  function Writes(s: seq<Tagged>): seq<(string, Register)>
  {
    if |s| == 0 then []
    else if |s| == 1 then [(s[0].reg.name, s[0].reg)]
    else if s[0].origin != s[1].origin then
      [(s[0].reg.name, s[0].reg), (s[1].reg.name, s[0].reg)] + Writes(s[2..])
    else [(s[0].reg.name, s[0].reg)] + Writes(s[1..])
  }

  /** `mapping[k] = v` for each assignment in turn. */
  function Apply(m: map<string, Register>, ws: seq<(string, Register)>): map<string, Register>
    decreases |ws|
  {
    if ws == [] then m else Apply(m[ws[0].0 := ws[0].1], ws[1..])
  }

  /** `_get_register_mapping`: the quantum scan, then the classical one,
      into the same dict. */
  function RegisterMapping(regs1: seq<Register>, regs2: seq<Register>): map<string, Register>
  {
    Apply(Apply(map[], Writes(SortedOfKind(regs1, regs2, true))), Writes(SortedOfKind(regs1, regs2, false)))
  }

  /** One `while i < len(sorted_registers)` scan. */
  method Scan(sorted: seq<Tagged>, mapping: map<string, Register>) returns (m: map<string, Register>)
    ensures m == Apply(mapping, Writes(sorted))
  {
    m := mapping;
    var i := 0;
    while i < |sorted|
      invariant 0 <= i <= |sorted|
      invariant Apply(m, Writes(sorted[i..])) == Apply(mapping, Writes(sorted))
      decreases |sorted| - i
    {
      var rest := sorted[i..];
      if i == |sorted| - 1 {
        m := m[sorted[i].reg.name := sorted[i].reg];
        assert Apply(m, []) == m;
        break;
      }
      m := m[sorted[i].reg.name := sorted[i].reg];
      if sorted[i].origin != sorted[i + 1].origin {
        m := m[sorted[i + 1].reg.name := sorted[i].reg];
        assert rest[2..] == sorted[i + 2..];
        i := i + 2;
      } else {
        assert rest[1..] == sorted[i + 1..];
        i := i + 1;
      }
    }
    if i == |sorted| {
      assert sorted[i..] == [];
    }
  }

  /** `_get_register_mapping(registers_circ1, registers_circ2)`. */
  method GetRegisterMapping(regs1: seq<Register>, regs2: seq<Register>) returns (mapping: map<string, Register>)
    ensures mapping == RegisterMapping(regs1, regs2)
  {
    var quantum := SortDesc(Filter(Tag(regs1, 1) + Tag(regs2, 2), IsQuantum), Size);
    var classical := SortDesc(Filter(Tag(regs1, 1) + Tag(regs2, 2), IsClassical), Size);
    mapping := Scan(quantum, map[]);
    mapping := Scan(classical, mapping);
  }

  /** What the scan leaves for the register at `j`: itself, or the
      register just before it, of the other circuit, which maps to
      itself. */
  predicate Paired(s: seq<Tagged>, j: int, m: map<string, Register>)
  {
    && 0 <= j < |s|
    && s[j].reg.name in m
    && (|| m[s[j].reg.name] == s[j].reg
        || (&& 0 < j && s[j - 1].origin != s[j].origin && m[s[j].reg.name] == s[j - 1].reg
            && s[j - 1].reg.name in m && m[s[j - 1].reg.name] == s[j - 1].reg))
  }

  lemma {:induction false} PairedShift(s: seq<Tagged>, d: nat, j: int, m: map<string, Register>)
    requires d <= j && d <= |s| && Paired(s[d..], j - d, m)
    ensures Paired(s, j, m)
  {
    assert s[d..][j - d] == s[j];
    if j - d > 0 {
      assert s[d..][j - d - 1] == s[j - 1];
    }
  }

  /** How far one step of the scan moves: past a pair of registers of
      different circuits, or past one. */
  function Step(s: seq<Tagged>): nat
    requires |s| > 1
  {
    if s[0].origin != s[1].origin then 2 else 1
  }

  /** The dict after one step. */
  function After(m: map<string, Register>, s: seq<Tagged>): map<string, Register>
    requires |s| > 1
  {
    if Step(s) == 2 then m[s[0].reg.name := s[0].reg][s[1].reg.name := s[0].reg]
    else m[s[0].reg.name := s[0].reg]
  }

  lemma {:induction false} StepApply(m: map<string, Register>, s: seq<Tagged>)
    requires |s| > 1
    ensures Apply(m, Writes(s)) == Apply(After(m, s), Writes(s[Step(s)..]))
  {
    var ws := Writes(s);
    if Step(s) == 2 {
      assert ws[1..] == [(s[1].reg.name, s[0].reg)] + Writes(s[2..]);
    }
  }

  /** Fresh distinct names before the step stay fresh and distinct after
      it. */
  lemma {:induction false} StepFresh(m: map<string, Register>, s: seq<Tagged>)
    requires |s| > 1 && DistinctBy(s, NameOf) && forall j :: 0 <= j < |s| ==> s[j].reg.name !in m
    ensures DistinctBy(s[Step(s)..], NameOf)
    ensures forall j :: 0 <= j < |s[Step(s)..]| ==> s[Step(s)..][j].reg.name !in After(m, s)
  {
    var d := Step(s);
    forall j | 0 <= j < |s[d..]| ensures s[d..][j].reg.name !in After(m, s) {
      assert s[d..][j] == s[j + d];
    }
    forall i, j | 0 <= i < j < |s[d..]| ensures NameOf(s[d..][i]) != NameOf(s[d..][j]) {
      assert s[d..][i] == s[i + d] && s[d..][j] == s[j + d];
    }
  }

  /** The entries after the step: those before, and the names it
      wrote. */
  lemma {:induction false} StepKeys(m: map<string, Register>, s: seq<Tagged>, M: map<string, Register>)
    requires |s| > 1
    requires forall k :: k in M <==> k in After(m, s) || exists j :: 0 <= j < |s[Step(s)..]| && s[Step(s)..][j].reg.name == k
    ensures forall k :: k in M <==> k in m || exists j :: 0 <= j < |s| && s[j].reg.name == k
  {
    var d := Step(s);
    forall k ensures k in M <==> k in m || exists j :: 0 <= j < |s| && s[j].reg.name == k {
      if k in M && k !in After(m, s) {
        var j :| 0 <= j < |s[d..]| && s[d..][j].reg.name == k;
        assert s[j + d].reg.name == k;
      }
      if exists j :: 0 <= j < |s| && s[j].reg.name == k {
        var j :| 0 <= j < |s| && s[j].reg.name == k;
        if j >= d {
          assert s[d..][j - d].reg.name == k;
        }
      }
    }
  }

  /** The registers the step wrote are paired, and the later ones stay
      paired as the rest of the scan left them. */
  lemma {:induction false} StepPaired(m: map<string, Register>, s: seq<Tagged>, M: map<string, Register>)
    requires |s| > 1 && s[0].reg.name != s[1].reg.name
    requires forall k :: k in After(m, s) ==> k in M && M[k] == After(m, s)[k]
    requires forall j :: 0 <= j < |s[Step(s)..]| ==> Paired(s[Step(s)..], j, M)
    ensures forall j :: 0 <= j < |s| ==> Paired(s, j, M)
  {
    var d := Step(s);
    forall j | 0 <= j < |s| ensures Paired(s, j, M) {
      if j >= d {
        PairedShift(s, d, j, M);
      }
    }
  }

  /** A scan over registers with distinct names, none mapped yet: every
      one of them gets an entry, what was mapped stays, and each register
      is paired as the scan decides. */
  lemma {:induction false} ScanSpec(m: map<string, Register>, s: seq<Tagged>)
    requires DistinctBy(s, NameOf) && forall j :: 0 <= j < |s| ==> s[j].reg.name !in m
    ensures forall k :: k in Apply(m, Writes(s)) <==> k in m || exists j :: 0 <= j < |s| && s[j].reg.name == k
    ensures forall k :: k in m ==> Apply(m, Writes(s))[k] == m[k]
    ensures forall j :: 0 <= j < |s| ==> Paired(s, j, Apply(m, Writes(s)))
    decreases |s|
  {
    if |s| == 1 {
      assert Apply(m, Writes(s)) == Apply(m[s[0].reg.name := s[0].reg], []);
    } else if |s| > 1 {
      var M := Apply(m, Writes(s));
      StepApply(m, s);
      StepFresh(m, s);
      ScanSpec(After(m, s), s[Step(s)..]);
      StepKeys(m, s, M);
      assert NameOf(s[0]) != NameOf(s[1]);
      StepPaired(m, s, M);
    }
  }

  predicate NamesDistinct(regs: seq<Register>)
  {
    forall i, j :: 0 <= i < j < |regs| ==> regs[i].name != regs[j].name
  }

  /** The sorted registers of one kind: distinct names, each a register
      of one of the circuits tagged with its origin. */
  lemma {:induction false} SortedOfKindSpec(regs1: seq<Register>, regs2: seq<Register>, quantum: bool)
    requires NamesDistinct(regs1 + regs2)
    ensures DistinctBy(SortedOfKind(regs1, regs2, quantum), NameOf)
    ensures SortedDesc(SortedOfKind(regs1, regs2, quantum), Size)
    ensures forall t :: t in SortedOfKind(regs1, regs2, quantum) <==>
                          t.reg.quantum == quantum && ((t.origin == 1 && t.reg in regs1) || (t.origin == 2 && t.reg in regs2))
  {
    var tagged := Tag(regs1, 1) + Tag(regs2, 2);
    var keep := if quantum then IsQuantum else IsClassical;
    TaggedSpec(regs1, regs2);
    FilterDistinct(tagged, keep);
    FilterSpec(tagged, keep);
    SortDescDistinct(Filter(tagged, keep), Size, NameOf);
    SortDescSpec(Filter(tagged, keep), Size);
    forall t | t in Filter(tagged, keep) ensures t in SortedOfKind(regs1, regs2, quantum) {
      assert t in multiset(SortDesc(Filter(tagged, keep), Size));
    }
  }

  /** Both circuits' registers tagged with their origin: distinct names,
      and exactly the registers of each circuit. */
  lemma {:induction false} TaggedSpec(regs1: seq<Register>, regs2: seq<Register>)
    requires NamesDistinct(regs1 + regs2)
    ensures DistinctBy(Tag(regs1, 1) + Tag(regs2, 2), NameOf)
    ensures forall t :: t in Tag(regs1, 1) + Tag(regs2, 2) <==> (t.origin == 1 && t.reg in regs1) || (t.origin == 2 && t.reg in regs2)
  {
    var tagged := Tag(regs1, 1) + Tag(regs2, 2);
    assert DistinctBy(tagged, NameOf) by {
      forall i, j | 0 <= i < j < |tagged| ensures NameOf(tagged[i]) != NameOf(tagged[j]) {
        assert tagged[i].reg == (regs1 + regs2)[i] && tagged[j].reg == (regs1 + regs2)[j];
      }
    }
    forall t ensures t in tagged <==> (t.origin == 1 && t.reg in regs1) || (t.origin == 2 && t.reg in regs2) {
      if t.origin == 1 && t.reg in regs1 {
        var i :| 0 <= i < |regs1| && regs1[i] == t.reg;
        assert tagged[i] == t;
      }
      if t.origin == 2 && t.reg in regs2 {
        var i :| 0 <= i < |regs2| && regs2[i] == t.reg;
        assert tagged[|regs1| + i] == t;
      }
    }
  }

  /** A filter keeps the names distinct. */
  lemma {:induction false} FilterDistinct(s: seq<Tagged>, keep: Tagged -> bool)
    requires DistinctBy(s, NameOf)
    ensures DistinctBy(Filter(s, keep), NameOf)
    decreases |s|
  {
    if s != [] {
      assert DistinctBy(s[1..], NameOf) by {
        forall i, j | 0 <= i < j < |s[1..]| ensures NameOf(s[1..][i]) != NameOf(s[1..][j]) {
          assert s[1..][i] == s[i + 1] && s[1..][j] == s[j + 1];
        }
      }
      FilterDistinct(s[1..], keep);
      FilterSpec(s[1..], keep);
      var t := Filter(s[1..], keep);
      forall i | 0 <= i < |t| ensures NameOf(t[i]) != NameOf(s[0]) {
        assert t[i] in t;
        var j :| 0 <= j < |s[1..]| && s[1..][j] == t[i];
        assert s[j + 1] == t[i];
      }
    }
  }

  /** What the mapping promises for register `r`: it has an entry; its
      target maps to itself, is of the same kind and no smaller, and is
      `r` itself or a register of the other circuit. */
  predicate MappedWell(regs1: seq<Register>, regs2: seq<Register>, m: map<string, Register>, r: Register)
  {
    && r.name in m
    && m[r.name].name in m && m[m[r.name].name] == m[r.name]
    && m[r.name].quantum == r.quantum && m[r.name].size >= r.size
    && (|| m[r.name] == r
        || (r in regs1 && m[r.name] in regs2)
        || (r in regs2 && m[r.name] in regs1))
  }

  /** A register the scan paired is mapped well, by the dict the scan left
      and by any dict that keeps its entries. */
  lemma {:induction false} PairedMappedWell(regs1: seq<Register>, regs2: seq<Register>, quantum: bool, mk: map<string, Register>,
                         m: map<string, Register>, j: int)
    requires NamesDistinct(regs1 + regs2)
    requires Paired(SortedOfKind(regs1, regs2, quantum), j, mk)
    requires forall k :: k in mk ==> k in m && m[k] == mk[k]
    ensures MappedWell(regs1, regs2, m, SortedOfKind(regs1, regs2, quantum)[j].reg)
  {
    var s := SortedOfKind(regs1, regs2, quantum);
    SortedOfKindSpec(regs1, regs2, quantum);
    assert s[j] in s;
    if 0 < j {
      assert s[j - 1] in s;
    }
  }

  /** Over registers with distinct names (the knitter prefixes each
      circuit's names), every register gets an entry; each target maps to
      itself, has the kind of its source and is no smaller, and is the
      register itself or one of the other circuit. */
  lemma {:induction false} RegisterMappingSpec(regs1: seq<Register>, regs2: seq<Register>)
    requires NamesDistinct(regs1 + regs2)
    ensures forall k :: k in RegisterMapping(regs1, regs2) <==> exists r :: r in regs1 + regs2 && r.name == k
    ensures forall r :: r in regs1 + regs2 ==> MappedWell(regs1, regs2, RegisterMapping(regs1, regs2), r)
  {
    MappingKeys(regs1, regs2);
    forall r | r in regs1 + regs2 ensures MappedWell(regs1, regs2, RegisterMapping(regs1, regs2), r) {
      RegisterMappedWell(regs1, regs2, r);
    }
  }

  lemma {:induction false} RegisterMappedWell(regs1: seq<Register>, regs2: seq<Register>, r: Register)
    requires NamesDistinct(regs1 + regs2) && r in regs1 + regs2
    ensures MappedWell(regs1, regs2, RegisterMapping(regs1, regs2), r)
  {
    ScansSpec(regs1, regs2);
    var sq, sc := SortedOfKind(regs1, regs2, true), SortedOfKind(regs1, regs2, false);
    var mq, m := Apply(map[], Writes(sq)), RegisterMapping(regs1, regs2);
    var t := Tagged(r, if r in regs1 then 1 else 2);
    if r.quantum {
      assert t in sq;
      var j :| 0 <= j < |sq| && sq[j] == t;
      PairedMappedWell(regs1, regs2, true, mq, m, j);
    } else {
      assert t in sc;
      var j :| 0 <= j < |sc| && sc[j] == t;
      PairedMappedWell(regs1, regs2, false, m, m, j);
    }
  }

  /** Both scans, the classical one over names the quantum one did not
      write. */
  lemma {:induction false} ScansSpec(regs1: seq<Register>, regs2: seq<Register>)
    requires NamesDistinct(regs1 + regs2)
    ensures var sq, sc := SortedOfKind(regs1, regs2, true), SortedOfKind(regs1, regs2, false);
            var mq := Apply(map[], Writes(sq));
            && (forall k :: k in mq <==> exists j :: 0 <= j < |sq| && sq[j].reg.name == k)
            && (forall j :: 0 <= j < |sq| ==> Paired(sq, j, mq))
            && (forall k :: k in RegisterMapping(regs1, regs2) <==> k in mq || exists j :: 0 <= j < |sc| && sc[j].reg.name == k)
            && (forall k :: k in mq ==> RegisterMapping(regs1, regs2)[k] == mq[k])
            && (forall j :: 0 <= j < |sc| ==> Paired(sc, j, RegisterMapping(regs1, regs2)))
            && (forall t :: t in sq <==> t.reg.quantum && ((t.origin == 1 && t.reg in regs1) || (t.origin == 2 && t.reg in regs2)))
            && (forall t :: t in sc <==> !t.reg.quantum && ((t.origin == 1 && t.reg in regs1) || (t.origin == 2 && t.reg in regs2)))
  {
    var sq, sc := SortedOfKind(regs1, regs2, true), SortedOfKind(regs1, regs2, false);
    SortedOfKindSpec(regs1, regs2, true);
    SortedOfKindSpec(regs1, regs2, false);
    ScanSpec(map[], sq);
    var mq := Apply(map[], Writes(sq));
    forall j | 0 <= j < |sc| ensures sc[j].reg.name !in mq {
      assert sc[j] in sc;
      if sc[j].reg.name in mq {
        var i :| 0 <= i < |sq| && sq[i].reg.name == sc[j].reg.name;
        assert sq[i] in sq;
        SameName(regs1 + regs2, sq[i].reg, sc[j].reg);
      }
    }
    ScanSpec(mq, sc);
  }

  /** The mapping's entries are the names of the registers. */
  lemma {:induction false} MappingKeys(regs1: seq<Register>, regs2: seq<Register>)
    requires NamesDistinct(regs1 + regs2)
    ensures forall k :: k in RegisterMapping(regs1, regs2) <==> exists r :: r in regs1 + regs2 && r.name == k
  {
    var m := RegisterMapping(regs1, regs2);
    forall k ensures k in m <==> exists r :: r in regs1 + regs2 && r.name == k {
      if k in m {
        KeyIsName(regs1, regs2, k);
      }
      if exists r :: r in regs1 + regs2 && r.name == k {
        var r :| r in regs1 + regs2 && r.name == k;
        NameIsKey(regs1, regs2, r);
      }
    }
  }

  lemma {:induction false} KeyIsName(regs1: seq<Register>, regs2: seq<Register>, k: string)
    requires NamesDistinct(regs1 + regs2) && k in RegisterMapping(regs1, regs2)
    ensures exists r :: r in regs1 + regs2 && r.name == k
  {
    ScansSpec(regs1, regs2);
    var sq, sc := SortedOfKind(regs1, regs2, true), SortedOfKind(regs1, regs2, false);
    var mq := Apply(map[], Writes(sq));
    if k in mq {
      var j :| 0 <= j < |sq| && sq[j].reg.name == k;
      assert sq[j] in sq;
      assert sq[j].reg in regs1 + regs2;
    } else {
      var j :| 0 <= j < |sc| && sc[j].reg.name == k;
      assert sc[j] in sc;
      assert sc[j].reg in regs1 + regs2;
    }
  }

  lemma {:induction false} NameIsKey(regs1: seq<Register>, regs2: seq<Register>, r: Register)
    requires NamesDistinct(regs1 + regs2) && r in regs1 + regs2
    ensures r.name in RegisterMapping(regs1, regs2)
  {
    ScansSpec(regs1, regs2);
    var sq, sc := SortedOfKind(regs1, regs2, true), SortedOfKind(regs1, regs2, false);
    var t := Tagged(r, if r in regs1 then 1 else 2);
    if r.quantum {
      assert t in sq;
      var j :| 0 <= j < |sq| && sq[j] == t;
    } else {
      assert t in sc;
      var j :| 0 <= j < |sc| && sc[j] == t;
    }
  }

  /** Two registers of a list with distinct names that share a name are
      the same register. */
  lemma {:induction false} SameName(regs: seq<Register>, a: Register, b: Register)
    requires NamesDistinct(regs) && a in regs && b in regs && a.name == b.name
    ensures a == b
  {
    var i :| 0 <= i < |regs| && regs[i] == a;
    var j :| 0 <= j < |regs| && regs[j] == b;
  }

  const TestRegs1: seq<Register> := [Register("circ1_q0", 2, true), Register("circ1_c0", 2, false)]
  const TestRegs2: seq<Register> := [Register("circ2_q1", 3, true), Register("circ2_c1", 3, false)]

  /** The test's registers of one kind, sorted: the second circuit's
      larger one first. */
  lemma {:induction false} ExampleSorted(quantum: bool)
    ensures SortedOfKind(TestRegs1, TestRegs2, quantum)
            == if quantum then [Tagged(TestRegs2[0], 2), Tagged(TestRegs1[0], 1)]
               else [Tagged(TestRegs2[1], 2), Tagged(TestRegs1[1], 1)]
  {
    var x0, x1 := Tagged(TestRegs1[0], 1), Tagged(TestRegs1[1], 1);
    var x2, x3 := Tagged(TestRegs2[0], 2), Tagged(TestRegs2[1], 2);
    var keep := if quantum then IsQuantum else IsClassical;
    var s3: seq<Tagged> := [x3];
    var s2 := [x2] + s3;
    var s1 := [x1] + s2;
    var s0 := [x0] + s1;
    assert Tag(TestRegs1, 1) + Tag(TestRegs2, 2) == s0;
    assert [x3] + [] == s3;
    FilterCons(x3, [], keep);
    FilterCons(x2, s3, keep);
    FilterCons(x1, s2, keep);
    FilterCons(x0, s1, keep);
    var lo, hi := if quantum then x0 else x1, if quantum then x2 else x3;
    assert Filter(s0, keep) == [lo, hi];
    SortTwoDesc(lo, hi, Size);
  }

  lemma {:induction false} SortTwoDesc<T>(lo: T, hi: T, key: T -> int)
    requires key(lo) < key(hi)
    ensures SortDesc([lo, hi], key) == [hi, lo]
  {
    assert [lo, hi][1..] == [hi];
    assert [hi][1..] == [];
    assert SortDesc([hi], key) == InsertDesc(hi, [], key) == [hi];
    assert [hi][1..] == [];
    assert InsertDesc(lo, [hi], key) == [hi] + InsertDesc(lo, [], key);
  }

  lemma {:induction false} FilterCons(x: Tagged, s: seq<Tagged>, keep: Tagged -> bool)
    ensures Filter([x] + s, keep) == (if keep(x) then [x] else []) + Filter(s, keep)
  {
    assert ([x] + s)[1..] == s;
  }

  /** The test's circuits: a 2-qubit `q0` and 2-bit `c0` in the first, a
      3-qubit `q1` and 3-bit `c1` in the second. Each smaller register
      maps to the larger one of the other circuit, which maps to itself. */
  lemma {:induction false} MappingExample()
    ensures var m := RegisterMapping(TestRegs1, TestRegs2);
            && "circ1_q0" in m && m["circ1_q0"].name == "circ2_q1"
            && "circ1_c0" in m && m["circ1_c0"].name == "circ2_c1"
            && "circ2_q1" in m && m["circ2_q1"].name == "circ2_q1"
            && "circ2_c1" in m && m["circ2_c1"].name == "circ2_c1"
  {
    ExampleMapping();
    var q2, c2 := TestRegs2[0], TestRegs2[1];
    var m := map["circ2_q1" := q2, "circ1_q0" := q2, "circ2_c1" := c2, "circ1_c0" := c2];
    assert m["circ1_q0"] == q2 && m["circ2_q1"] == q2;
    assert m["circ1_c0"] == c2 && m["circ2_c1"] == c2;
  }

  /** The whole mapping of the test's circuits. */
  lemma ExampleMapping()
    ensures RegisterMapping(TestRegs1, TestRegs2)
      == map["circ2_q1" := TestRegs2[0], "circ1_q0" := TestRegs2[0], "circ2_c1" := TestRegs2[1], "circ1_c0" := TestRegs2[1]]
  {
    var q1, c1, q2, c2 := TestRegs1[0], TestRegs1[1], TestRegs2[0], TestRegs2[1];
    ExampleSorted(true);
    ExampleSorted(false);
    WritesPair(Tagged(q2, 2), Tagged(q1, 1));
    WritesPair(Tagged(c2, 2), Tagged(c1, 1));
    ApplyTwo(map[], (q2.name, q2), (q1.name, q2));
    var mq := map[][q2.name := q2][q1.name := q2];
    ApplyTwo(mq, (c2.name, c2), (c1.name, c2));
  }

  /** Two registers of different circuits: each is written under its own
      name, both pointing at the first. */
  lemma WritesPair(s0: Tagged, s1: Tagged)
    requires s0.origin != s1.origin
    ensures Writes([s0, s1]) == [(s0.reg.name, s0.reg), (s1.reg.name, s0.reg)]
  {
    assert [s0, s1][2..] == [];
  }

  lemma {:induction false} ApplyTwo(m: map<string, Register>, w0: (string, Register), w1: (string, Register))
    ensures Apply(m, [w0, w1]) == m[w0.0 := w0.1][w1.0 := w1.1]
  {
    var m1 := m[w0.0 := w0.1];
    assert [w0, w1][1..] == [w1];
    assert Apply(m, [w0, w1]) == Apply(m1, [w1]);
    assert [w1][1..] == [];
    assert Apply(m1, [w1]) == Apply(m1[w1.0 := w1.1], []);
  }

  // ---------------------------------------------------------------------
  // Interleaving

  function Min(a: int, b: int): int { if a <= b then a else b }

  /** The instructions `combine_circuits` has applied after `n` rounds of
      its loop: in round `i`, the `i`-th instruction of the first circuit,
      if any, then the `i`-th of the second. */
  function Rounds<T>(a: seq<T>, b: seq<T>, n: nat): (r: seq<T>)
    ensures |r| == Min(n, |a|) + Min(n, |b|)
  {
    if n == 0 then []
    else Rounds(a, b, n - 1) + (if n - 1 < |a| then [a[n - 1]] else []) + (if n - 1 < |b| then [b[n - 1]] else [])
  }

  /** After `n` rounds: as many instructions as both circuits have below
      `n`; while both last they alternate, first circuit first; then the
      longer one's follow in order. */
  lemma {:induction false} RoundsSpec<T>(a: seq<T>, b: seq<T>, n: nat)
    ensures forall k :: 0 <= k < Min(n, Min(|a|, |b|)) ==> Rounds(a, b, n)[2 * k] == a[k] && Rounds(a, b, n)[2 * k + 1] == b[k]
    ensures forall k :: Min(|a|, |b|) <= k < Min(n, |a|) ==> Rounds(a, b, n)[Min(|a|, |b|) + k] == a[k]
    ensures forall k :: Min(|a|, |b|) <= k < Min(n, |b|) ==> Rounds(a, b, n)[Min(|a|, |b|) + k] == b[k]
  {
    RoundsAlternate(a, b, n);
    RoundsTailFirst(a, b, n);
    RoundsTailSecond(a, b, n);
  }

  /** A further round keeps what the earlier ones applied. */
  lemma {:induction false} RoundsExtend<T>(a: seq<T>, b: seq<T>, n: nat)
    requires n > 0
    ensures forall k :: 0 <= k < |Rounds(a, b, n - 1)| ==> Rounds(a, b, n)[k] == Rounds(a, b, n - 1)[k]
  {
  }

  lemma {:induction false} RoundsAlternate<T>(a: seq<T>, b: seq<T>, n: nat)
    ensures forall k :: 0 <= k < Min(n, Min(|a|, |b|)) ==> Rounds(a, b, n)[2 * k] == a[k] && Rounds(a, b, n)[2 * k + 1] == b[k]
    decreases n
  {
    if n > 0 {
      RoundsAlternate(a, b, n - 1);
      RoundsExtend(a, b, n);
    }
  }

  lemma {:induction false} RoundsTailFirst<T>(a: seq<T>, b: seq<T>, n: nat)
    ensures forall k :: Min(|a|, |b|) <= k < Min(n, |a|) ==> Rounds(a, b, n)[Min(|a|, |b|) + k] == a[k]
    decreases n
  {
    if n > 0 {
      RoundsTailFirst(a, b, n - 1);
      RoundsExtend(a, b, n);
    }
  }

  lemma {:induction false} RoundsTailSecond<T>(a: seq<T>, b: seq<T>, n: nat)
    ensures forall k :: Min(|a|, |b|) <= k < Min(n, |b|) ==> Rounds(a, b, n)[Min(|a|, |b|) + k] == b[k]
    decreases n
  {
    if n > 0 {
      RoundsTailSecond(a, b, n - 1);
      RoundsExtend(a, b, n);
    }
  }

  /** The interleaving loop of `combine_circuits` over the two circuits'
      instructions in topological order: as many instructions as both
      have; `a[0], b[0], a[1], b[1], …` while both last, then the rest of
      the longer one. */
  method Interleave<T>(a: seq<T>, b: seq<T>) returns (out: seq<T>)
    ensures |out| == |a| + |b|
    ensures forall k :: 0 <= k < Min(|a|, |b|) ==> out[2 * k] == a[k] && out[2 * k + 1] == b[k]
    ensures forall k :: Min(|a|, |b|) <= k < |a| ==> out[Min(|a|, |b|) + k] == a[k]
    ensures forall k :: Min(|a|, |b|) <= k < |b| ==> out[Min(|a|, |b|) + k] == b[k]
  {
    var maxLength := if |a| >= |b| then |a| else |b|;
    out := [];
    for i := 0 to maxLength
      invariant out == Rounds(a, b, i)
    {
      if i < |a| {
        out := out + [a[i]];
      }
      if i < |b| {
        out := out + [b[i]];
      }
    }
    RoundsSpec(a, b, maxLength);
  }

  /** As the test checks: the first instruction is the first circuit's,
      the second the second circuit's, and when the second circuit is not
      shorter, the last is its last. */
  lemma {:induction false} InterleaveEnds<T>(a: seq<T>, b: seq<T>)
    requires a != [] && b != []
    ensures var r := Rounds(a, b, if |a| >= |b| then |a| else |b|);
            && r[0] == a[0] && r[1] == b[0]
            && (|b| >= |a| ==> r[|r| - 1] == b[|b| - 1])
  {
    var n := if |a| >= |b| then |a| else |b|;
    RoundsSpec(a, b, n);
    if |b| == |a| {
      assert Rounds(a, b, n)[2 * (|b| - 1) + 1] == b[|b| - 1];
    }
  }
}
