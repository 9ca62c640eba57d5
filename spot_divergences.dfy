/** qite/spot_divergences.py: grouping the programs of a folder by program
    id, picking pairs inside each group, following the provenance metadata of
    each file, and recording the equivalence verdict of every pair. */
module SpotDivergences {
  import opened Py
  import opened PyStr
  import opened PySeq
  import PyPath
  import Sorting
  import Qcec

  // ---------------------------------------------------------------------
  // Pairs of a group

  /** `[(x, rest[j]) for j in range(len(rest))]`. */
  function Row(x: string, rest: seq<string>): (r: seq<(string, string)>)
    ensures |r| == |rest|
    ensures forall j :: 0 <= j < |rest| ==> r[j] == (x, rest[j])
  {
    seq(|rest|, j requires 0 <= j < |rest| => (x, rest[j]))
  }

  /** `[(group[i], group[j]) for i in range(len(group)) for j in range(i + 1, len(group))]`. */
  function Pairs(group: seq<string>): (r: seq<(string, string)>)
    ensures |r| == PairCount(|group|)
  {
    if group == [] then [] else Row(group[0], group[1..]) + Pairs(group[1..])
  }

  /** The number of pairs i < j among k elements. */
  function PairCount(k: nat): nat
  {
    if k == 0 then 0 else (k - 1) + PairCount(k - 1)
  }

  /** The closed form k(k-1)/2. */
  lemma {:induction false} PairCountClosedForm(k: nat)
    ensures 2 * PairCount(k) == k * (k - 1)
  {
    if k > 0 {
      PairCountClosedForm(k - 1);
      assert (k - 1) * (k - 2) + 2 * (k - 1) == k * (k - 1);
    }
  }

  /** Where the pairs of `group[i]` with its successors start. */
  function PairStart(n: nat, i: nat): nat
    requires i < n
  {
    if i == 0 then 0 else (n - 1) + PairStart(n - 1, i - 1)
  }

  /** Position `k` of the pair list holds (group[i], group[j]), i < j. */
  predicate PairAt(group: seq<string>, k: int, i: int, j: int)
  {
    && 0 <= i < j < |group|
    && k == PairStart(|group|, i) + (j - i - 1)
    && k < |Pairs(group)|
    && Pairs(group)[k] == (group[i], group[j])
  }

  lemma {:induction false} AppendIndex<T>(a: seq<T>, b: seq<T>, k: nat)
    requires k < |b|
    ensures (a + b)[|a| + k] == b[k]
  {
  }

  /** The pair (group[i], group[j]) is listed, at row i and column j - i - 1. */
  lemma {:induction false} PairsAt(group: seq<string>, i: nat, j: nat)
    requires i < j < |group|
    ensures PairAt(group, PairStart(|group|, i) + (j - i - 1), i, j)
    decreases i
  {
    var rest := group[1..];
    var row := Row(group[0], rest);
    var tail := Pairs(rest);
    assert Pairs(group) == row + tail;
    if i > 0 {
      PairsAt(rest, i - 1, j - 1);
      var k := PairStart(|rest|, i - 1) + (j - i - 1);
      assert tail[k] == (group[i], group[j]);
      AppendIndex(row, tail, k);
    } else {
      assert row[j - 1] == (group[0], group[j]);
      assert (row + tail)[j - 1] == row[j - 1];
    }
  }

  /** Every listed pair is (group[i], group[j]) for some i < j, at the
      position `PairsAt` gives it. */
  lemma {:induction false} PairsOnly(group: seq<string>, k: nat)
    requires k < |Pairs(group)|
    ensures exists i, j :: PairAt(group, k, i, j)
    decreases |group|
  {
    var rest := group[1..];
    if k < |rest| {
      PairAtHead(group, k);
    } else {
      PairsOnly(rest, k - |rest|);
      var i, j :| PairAt(rest, k - |rest|, i, j);
      PairAtShift(group, k, i, j);
    }
  }

  /** The first row holds the pairs of group[0]. */
  lemma {:induction false} PairAtHead(group: seq<string>, k: nat)
    requires k + 1 < |group|
    ensures PairAt(group, k, 0, k + 1)
  {
    var rest := group[1..];
    assert Pairs(group) == Row(group[0], rest) + Pairs(rest);
    assert Pairs(group)[k] == (group[0], group[k + 1]);
  }

  /** The pairs after the first row are those of group[1..], shifted. */
  lemma {:induction false} PairAtShift(group: seq<string>, k: nat, i: int, j: int)
    requires group != [] && k >= |group| - 1 && PairAt(group[1..], k - (|group| - 1), i, j)
    ensures PairAt(group, k, i + 1, j + 1)
  {
    var rest := group[1..];
    PairsTail(group, k);
    assert rest[i] == group[i + 1] && rest[j] == group[j + 1];
    assert PairStart(|group|, i + 1) == |rest| + PairStart(|rest|, i);
  }

  lemma {:induction false} PairsTail(group: seq<string>, k: nat)
    requires group != [] && |group| - 1 <= k && k - (|group| - 1) < |Pairs(group[1..])|
    ensures k < |Pairs(group)| && Pairs(group)[k] == Pairs(group[1..])[k - (|group| - 1)]
  {
    var rest := group[1..];
    var a, b := Row(group[0], rest), Pairs(rest);
    assert Pairs(group) == a + b;
    assert |a| == |rest|;
    AppendIndex(a, b, k - |rest|);
  }

  /** Distinct files give distinct pairs. */
  lemma {:induction false} PairsDistinct(group: seq<string>)
    requires Sorting.Distinct(group)
    ensures Sorting.Distinct(Pairs(group))
  {
    var ps := Pairs(group);
    forall k, l | 0 <= k < l < |ps| ensures ps[k] != ps[l] {
      PairsOnly(group, k);
      PairsOnly(group, l);
      var i, j :| PairAt(group, k, i, j);
      var i', j' :| PairAt(group, l, i', j');
    }
  }

  // ---------------------------------------------------------------------
  // The comparator pickers

  /** MostDifferentQASMsComparatorPicker.pick: the group sorted by line
      count, longest first (a stable sort), then its first `nComparison`
      pairs. `lineCount` is the number of lines of each file. */
  function MostDifferentPairs(group: seq<string>, lineCount: string -> int, nComparison: int): seq<(string, string)>
  {
    Slice(Pairs(Sorting.SortDesc(group, lineCount)), 0, nComparison)
  }

  /** The picker returns min(n, k(k-1)/2) pairs. */
  lemma {:induction false} MostDifferentCount(group: seq<string>, lineCount: string -> int, nComparison: nat)
    ensures |MostDifferentPairs(group, lineCount, nComparison)|
         == if nComparison < PairCount(|group|) then nComparison else PairCount(|group|)
  {
  }

  /** Each picked pair joins two files of the group, the longer one first. */
  lemma {:induction false} MostDifferentPairsOrdered(group: seq<string>, lineCount: string -> int, nComparison: int, k: nat)
    requires k < |MostDifferentPairs(group, lineCount, nComparison)|
    ensures var r := MostDifferentPairs(group, lineCount, nComparison);
      r[k].0 in group && r[k].1 in group && lineCount(r[k].0) >= lineCount(r[k].1)
  {
    var sorted := Sorting.SortDesc(group, lineCount);
    Sorting.SortDescSpec(group, lineCount);
    var ps := Pairs(sorted);
    assert MostDifferentPairs(group, lineCount, nComparison)[k] == ps[k];
    PairsOnly(sorted, k);
    var i, j :| PairAt(sorted, k, i, j);
    assert lineCount(sorted[i]) >= lineCount(sorted[j]);
    assert sorted[i] in multiset(group) && sorted[j] in multiset(group);
  }

  /** The first pick joins the two longest files. */
  lemma {:induction false} MostDifferentFirstPair(group: seq<string>, lineCount: string -> int, nComparison: int)
    requires |group| >= 2 && nComparison > 0
    ensures var r := MostDifferentPairs(group, lineCount, nComparison);
      |r| > 0 && forall f :: f in group ==> lineCount(r[0].0) >= lineCount(f)
  {
    var sorted := Sorting.SortDesc(group, lineCount);
    Sorting.SortDescSpec(group, lineCount);
    PairsAt(sorted, 0, 1);
    var r := MostDifferentPairs(group, lineCount, nComparison);
    assert r[0] == (sorted[0], sorted[1]);
    forall f | f in group ensures lineCount(r[0].0) >= lineCount(f) {
      assert f in multiset(sorted);
      var m :| 0 <= m < |sorted| && sorted[m] == f;
    }
  }

  /** The picker as the harness runs it: `group` is sorted in place, then
      the pairs of the sorted group are listed. */
  method PickMostDifferent(group: array<string>, lineCount: string -> int, nComparison: int)
    returns (pairs: seq<(string, string)>)
    modifies group
    ensures group[..] == Sorting.SortDesc(old(group[..]), lineCount)
    ensures pairs == MostDifferentPairs(old(group[..]), lineCount, nComparison)
  {
    var sorted := Sorting.SortDesc(group[..], lineCount);
    pairs := Slice(Pairs(sorted), 0, nComparison);
    for i := 0 to group.Length
      invariant group[..i] == sorted[..i]
      invariant group[i..] == old(group[i..])
    {
      group[i] := sorted[i];
      assert group[..i + 1] == sorted[..i + 1];
    }
  }

  /** A draw of `n` distinct positions below `size`: what `random.sample`
      may return, by position. */
  predicate ValidSample(choice: seq<nat>, n: nat, size: nat)
  {
    && |choice| == n
    && (forall k :: 0 <= k < n ==> choice[k] < size)
    && Sorting.Distinct(choice)
  }

  /** RandomComparatorPicker.pick: `random.sample(pairs, n)` raises
      ValueError unless 0 <= n <= the number of pairs; `choice` is the draw. */
  function RandomPairs(group: seq<string>, nComparison: int, choice: seq<nat>): (r: Result<seq<(string, string)>>)
    requires 0 <= nComparison <= PairCount(|group|) ==> ValidSample(choice, nComparison, PairCount(|group|))
    ensures r.Ok? <==> 0 <= nComparison <= PairCount(|group|)
    ensures r.Err? ==> r.exc == ValueError("Sample larger than population or is negative")
  {
    if nComparison < 0 || nComparison > PairCount(|group|) then
      Err(ValueError("Sample larger than population or is negative"))
    else
      var ps := Pairs(group);
      Ok(seq(nComparison, k requires 0 <= k < nComparison => ps[choice[k]]))
  }

  /** `p` is (group[i], group[j]) for some i < j. */
  predicate IsPairOf(group: seq<string>, p: (string, string))
  {
    exists i, j :: 0 <= i < j < |group| && p == (group[i], group[j])
  }

  /** The sample holds `n` pairs (group[i], group[j]) with i < j, pairwise
      distinct when the files are. */
  lemma {:induction false} RandomPairsSpec(group: seq<string>, nComparison: nat, choice: seq<nat>)
    requires nComparison <= PairCount(|group|)
    requires ValidSample(choice, nComparison, PairCount(|group|))
    ensures RandomPairs(group, nComparison, choice).Ok?
    ensures |RandomPairs(group, nComparison, choice).value| == nComparison
    ensures forall k :: 0 <= k < nComparison ==> IsPairOf(group, RandomPairs(group, nComparison, choice).value[k])
    ensures Sorting.Distinct(group) ==> Sorting.Distinct(RandomPairs(group, nComparison, choice).value)
  {
    forall k | 0 <= k < nComparison
      ensures IsPairOf(group, RandomPairs(group, nComparison, choice).value[k])
    {
      RandomPairFrom(group, nComparison, choice, k);
    }
    if Sorting.Distinct(group) {
      RandomPairsDistinct(group, nComparison, choice);
    }
  }

  lemma {:induction false} RandomPairFrom(group: seq<string>, nComparison: nat, choice: seq<nat>, k: nat)
    requires nComparison <= PairCount(|group|)
    requires ValidSample(choice, nComparison, PairCount(|group|))
    requires k < nComparison
    ensures IsPairOf(group, RandomPairs(group, nComparison, choice).value[k])
  {
    var r := RandomPairs(group, nComparison, choice).value;
    assert r[k] == Pairs(group)[choice[k]];
    PairsOnly(group, choice[k]);
    var i, j :| PairAt(group, choice[k], i, j);
    assert r[k] == (group[i], group[j]);
  }

  lemma {:induction false} RandomPairsDistinct(group: seq<string>, nComparison: nat, choice: seq<nat>)
    requires nComparison <= PairCount(|group|)
    requires ValidSample(choice, nComparison, PairCount(|group|))
    requires Sorting.Distinct(group)
    ensures Sorting.Distinct(RandomPairs(group, nComparison, choice).value)
  {
    var r := RandomPairs(group, nComparison, choice).value;
    var ps := Pairs(group);
    PairsDistinct(group);
    forall k, l | 0 <= k < l < |r| ensures r[k] != r[l] {
      var a, b := choice[k], choice[l];
      assert r[k] == ps[a] && r[l] == ps[b];
      assert a != b;
      if a < b { assert ps[a] != ps[b]; } else { assert ps[b] != ps[a]; }
    }
  }

  // ---------------------------------------------------------------------
  // Provenance metadata

  /** A metadata record, with its JSON values as text. */
  type Metadata = map<string, string>

  /** `d.get(key, default)`. */
  function Get(m: Metadata, key: string, default: string): (v: string)
    ensures key !in m ==> v == default
  {
    if key in m then m[key] else default
  }

  /** `Path(file_path).with_suffix('.json').name`: the name of the metadata
      file of a program, looked up in the metadata folder. */
  function MetadataName(filePath: string): string
  {
    PyPath.Stem(filePath) + ".json"
  }

  /** The record get_metadata loads for `filePath`: none unless the name
      holds `_qite_` (a transformed program) and its metadata file exists.
      `store` maps the file names of the metadata folder to their records. */
  function Lookup(store: map<string, Metadata>, filePath: string): Option<Metadata>
  {
    if Contains(filePath, "_qite_") && MetadataName(filePath) in store then Some(store[MetadataName(filePath)])
    else None
  }

  /** The walk of get_metadata with `steps` iterations left, where `lookup`
      gives the record loaded for a path, if any. */
  function Walk(filePath: string, lookup: string -> Option<Metadata>, steps: nat): seq<Metadata>
    decreases steps
  {
    if steps == 0 || lookup(filePath).None? then []
    else
      var m := lookup(filePath).value;
      [m] + Walk(Get(m, "input_qasm", ""), lookup, steps - 1)
  }

  /** `Lookup` on one metadata folder, as a function of the path. */
  function Loader(store: map<string, Metadata>): string -> Option<Metadata>
  {
    p => Lookup(store, p)
  }

  /** The path whose record the walk loads after the `k`-th one. */
  function PathAfter(filePath: string, chain: seq<Metadata>, k: nat): string
    requires k <= |chain|
  {
    if k == 0 then filePath else Get(chain[k - 1], "input_qasm", "")
  }

  /** The walk follows `input_qasm` links: record k is the one loaded for
      the path record k-1 names (for `filePath` when k = 0). */
  lemma {:induction false} WalkFollowsLinks(filePath: string, lookup: string -> Option<Metadata>, steps: nat, k: nat)
    requires k < |Walk(filePath, lookup, steps)|
    ensures var chain := Walk(filePath, lookup, steps);
      lookup(PathAfter(filePath, chain, k)) == Some(chain[k])
    decreases steps
  {
    var chain := Walk(filePath, lookup, steps);
    if k > 0 {
      var next := Get(chain[0], "input_qasm", "");
      var tail := Walk(next, lookup, steps - 1);
      assert chain == [chain[0]] + tail;
      WalkFollowsLinks(next, lookup, steps - 1, k - 1);
      assert PathAfter(filePath, chain, k) == PathAfter(next, tail, k - 1) by {
        if k > 1 { assert chain[k - 1] == tail[k - 2]; }
      }
    }
  }

  /** The walk takes at most `steps` records, and stops early only at a
      path with no record. */
  lemma {:induction false} WalkStops(filePath: string, lookup: string -> Option<Metadata>, steps: nat)
    ensures var chain := Walk(filePath, lookup, steps);
      && |chain| <= steps
      && (|chain| < steps ==> lookup(PathAfter(filePath, chain, |chain|)).None?)
    decreases steps
  {
    var chain := Walk(filePath, lookup, steps);
    if steps > 0 && lookup(filePath).Some? {
      var next := Get(chain[0], "input_qasm", "");
      var tail := Walk(next, lookup, steps - 1);
      assert chain == [chain[0]] + tail;
      WalkStops(next, lookup, steps - 1);
      if |chain| > 1 { assert chain[|chain| - 1] == tail[|tail| - 1]; }
    }
  }

  /** The most records get_metadata loads. */
  const Depth: nat := 10

  /** get_metadata, where `lookup` is `Loader` of the metadata folder: at
      most ten records, following the links. */
  method GetMetadata(filePath: string, lookup: string -> Option<Metadata>) returns (metadataList: seq<Metadata>)
    ensures metadataList == Walk(filePath, lookup, Depth)
    ensures |metadataList| <= Depth
  {
    WalkStops(filePath, lookup, Depth);
    metadataList := [];
    var path := filePath;
    for i := 0 to Depth
      invariant metadataList + Walk(path, lookup, Depth - i) == Walk(filePath, lookup, Depth)
    {
      // the two early exits: not a transformed program, no metadata file
      var loaded := lookup(path);
      if loaded.None? {
        break;
      }
      var metadata := loaded.value;
      var next := Get(metadata, "input_qasm", "");
      WalkStep(metadataList, path, lookup, Depth - i - 1);
      metadataList := metadataList + [metadata];
      path := next;
    }
  }

  /** One step of the walk: the record at `path` moves from the walk still
      to do onto the records loaded so far. */
  lemma WalkStep(done: seq<Metadata>, path: string, lookup: string -> Option<Metadata>, n: nat)
    requires lookup(path).Some?
    ensures var m := lookup(path).value;
      done + Walk(path, lookup, n + 1) == (done + [m]) + Walk(Get(m, "input_qasm", ""), lookup, n)
  {
    var m := lookup(path).value;
    var rest := Walk(Get(m, "input_qasm", ""), lookup, n);
    assert Walk(path, lookup, n + 1) == [m] + rest;
    assert done + ([m] + rest) == (done + [m]) + rest;
  }

  /** The `provenance` field: the first record's platform, or `generator`
      for a file with no metadata. */
  function Provenance(chain: seq<Metadata>): (p: string)
    ensures chain == [] ==> p == "generator"
    ensures chain != [] && "platform" in chain[0] ==> p == chain[0]["platform"]
    ensures chain != [] && "platform" !in chain[0] ==> p == "generator"
  {
    if chain == [] then "generator" else Get(chain[0], "platform", "generator")
  }

  // ---------------------------------------------------------------------
  // Filtering and grouping

  /** `Path(f).stem[:7]`, the program id of a file name. */
  function Prefix(f: string): string
  {
    Slice(PyPath.Stem(f), 0, 7)
  }

  /** `program_id_range[0] <= int(prefix) <= program_id_range[1]`, when
      the prefix parses. */
  predicate InRange(prefix: string, lo: int, hi: int)
  {
    var v := ParseInt(prefix);
    v.Some? && lo <= v.value <= hi
  }

  /** The id-range filter, a list comprehension, where `prefixOf` gives the
      prefix of a file (`Prefix` when the harness runs it): the first file
      whose prefix does not parse raises ValueError. */
  function KeepInRange(files: seq<string>, prefixOf: string -> string, lo: int, hi: int): Result<seq<string>>
  {
    if files == [] then Ok([])
    else if ParseInt(prefixOf(files[0])).None? then
      Err(ValueError("invalid literal for int() with base 10: '" + prefixOf(files[0]) + "'"))
    else
      var rest := KeepInRange(files[1..], prefixOf, lo, hi);
      if rest.Err? then rest
      else Ok((if InRange(prefixOf(files[0]), lo, hi) then [files[0]] else []) + rest.value)
  }

  /** The filter fails exactly when some prefix does not parse; otherwise
      it keeps exactly the files whose id is in the range. */
  lemma {:induction false} KeepInRangeSpec(files: seq<string>, prefixOf: string -> string, lo: int, hi: int)
    ensures KeepInRange(files, prefixOf, lo, hi).Err? <==> exists i :: 0 <= i < |files| && ParseInt(prefixOf(files[i])).None?
    ensures KeepInRange(files, prefixOf, lo, hi).Ok? ==>
      forall f :: f in KeepInRange(files, prefixOf, lo, hi).value <==> f in files && InRange(prefixOf(f), lo, hi)
  {
    if files != [] {
      var rest := files[1..];
      KeepInRangeSpec(rest, prefixOf, lo, hi);
      assert forall i :: 1 <= i < |files| ==> rest[i - 1] == files[i];
      assert forall f :: f in files <==> f == files[0] || f in rest;
    }
  }

  /** `if program_id_range:` the filter runs only when a range is given. */
  function FilterByRange(files: seq<string>, prefixOf: string -> string, range: Option<(int, int)>): (r: Result<seq<string>>)
    ensures range.None? ==> r == Ok(files)
    ensures range.Some? ==> r == KeepInRange(files, prefixOf, range.value.0, range.value.1)
  {
    if range.None? then Ok(files) else KeepInRange(files, prefixOf, range.value.0, range.value.1)
  }

  /** With a range given, one file whose prefix holds a letter or any other
      character `int()` refuses stops the whole run, before the digit check
      of the grouping could skip it. */
  lemma {:induction false} RangeFilterRejects(files: seq<string>, lo: int, hi: int, i: nat, m: nat)
    requires i < |files| && m < |Prefix(files[i])|
    requires var c := Prefix(files[i])[m]; !IsSpace(c) && !IsDigit(c) && c !in "+-_"
    ensures FilterByRange(files, Prefix, Some((lo, hi))).Err?
  {
    ParseIntRejects(Prefix(files[i]), m);
    KeepInRangeSpec(files, Prefix, lo, hi);
  }

  /** The keys of the `groups` dict in insertion order: each digit-only
      prefix, at its first file. */
  function GroupKeys(files: seq<string>, prefixOf: string -> string): (r: seq<string>)
    ensures Sorting.Distinct(r)
  {
    if files == [] then []
    else
      var prev := GroupKeys(files[..|files| - 1], prefixOf);
      var p := prefixOf(files[|files| - 1]);
      if IsDigits(p) && p !in prev then prev + [p] else prev
  }

  /** The keys are distinct, and they are exactly the digit-only prefixes
      of the files. */
  lemma {:induction false} GroupKeysSpec(files: seq<string>, prefixOf: string -> string)
    ensures var r := GroupKeys(files, prefixOf);
      && Sorting.Distinct(r)
      && forall p :: p in r <==> IsDigits(p) && HasPrefix(files, prefixOf, p)
    decreases |files|
  {
    if files != [] {
      var init := files[..|files| - 1];
      GroupKeysSpec(init, prefixOf);
      forall p ensures HasPrefix(files, prefixOf, p) <==> HasPrefix(init, prefixOf, p) || prefixOf(files[|files| - 1]) == p {
        PrefixAmongSnoc(files, prefixOf, p);
      }
    }
  }

  /** Some file of `files` has prefix `p`. */
  predicate HasPrefix(files: seq<string>, prefixOf: string -> string, p: string)
  {
    exists i :: 0 <= i < |files| && prefixOf(files[i]) == p
  }

  /** Some file of `files` has prefix `p` iff one before the last does, or
      the last one does. */
  lemma PrefixAmongSnoc(files: seq<string>, prefixOf: string -> string, p: string)
    requires files != []
    ensures HasPrefix(files, prefixOf, p) <==> HasPrefix(files[..|files| - 1], prefixOf, p) || prefixOf(files[|files| - 1]) == p
  {
    var init := files[..|files| - 1];
    assert forall i :: 0 <= i < |init| ==> init[i] == files[i];
  }

  /** The files of the group of prefix `p`, in folder order. */
  function Members(files: seq<string>, prefixOf: string -> string, p: string): seq<string>
  {
    if files == [] then []
    else
      var f := files[|files| - 1];
      Members(files[..|files| - 1], prefixOf, p) + (if prefixOf(f) == p then [f] else [])
  }

  /** A group holds exactly the files with its prefix. */
  lemma {:induction false} MembersSpec(files: seq<string>, prefixOf: string -> string, p: string)
    ensures forall f :: f in Members(files, prefixOf, p) <==> f in files && prefixOf(f) == p
    decreases |files|
  {
    if files != [] {
      var f := files[|files| - 1];
      assert files == files[..|files| - 1] + [f];
      MembersSpec(files[..|files| - 1], prefixOf, p);
    }
  }

  /** The `groups` dict after the grouping loop. */
  function Groups(files: seq<string>, prefixOf: string -> string): map<string, seq<string>>
  {
    map p | p in GroupKeys(files, prefixOf) :: Members(files, prefixOf, p)
  }

  lemma {:induction false} GroupKeysSnoc(files: seq<string>, prefixOf: string -> string, i: nat)
    requires i < |files|
    ensures var p := prefixOf(files[i]); var prev := GroupKeys(files[..i], prefixOf);
      GroupKeys(files[..i + 1], prefixOf) == if IsDigits(p) && p !in prev then prev + [p] else prev
  {
    assert files[..i + 1][..i] == files[..i];
  }

  lemma {:induction false} MembersSnoc(files: seq<string>, prefixOf: string -> string, i: nat, p: string)
    requires i < |files|
    ensures Members(files[..i + 1], prefixOf, p)
         == Members(files[..i], prefixOf, p) + (if prefixOf(files[i]) == p then [files[i]] else [])
  {
    assert files[..i + 1][..i] == files[..i];
  }

  /** The grouping loop of process_files, where `prefixOf` gives the prefix
      of a file (`Prefix` when the harness runs it): files whose prefix is
      not all digits are skipped; every other file is appended to its group,
      and `keys` lists the groups in the order the dict holds them. */
  method GroupByPrefix(files: seq<string>, prefixOf: string -> string)
    returns (groups: map<string, seq<string>>, keys: seq<string>)
    ensures keys == GroupKeys(files, prefixOf)
    ensures groups == Groups(files, prefixOf)
  {
    groups, keys := map[], [];
    for i := 0 to |files|
      invariant keys == GroupKeys(files[..i], prefixOf)
      invariant forall p :: p in groups <==> p in keys
      invariant forall p :: p in groups ==> IsDigits(p)
      invariant forall p :: p in groups ==> groups[p] == Members(files[..i], prefixOf, p)
      invariant forall p :: p !in groups ==> Members(files[..i], prefixOf, p) == [] || !IsDigits(p)
    {
      var prefix := prefixOf(files[i]);
      GroupKeysSnoc(files, prefixOf, i);
      ghost var before := groups;
      if IsDigits(prefix) {
        var members := if prefix in groups then groups[prefix] else [];
        if prefix !in groups {
          keys := keys + [prefix];
        }
        groups := groups[prefix := members + [files[i]]];
      }
      forall p | p in groups ensures groups[p] == Members(files[..i + 1], prefixOf, p) {
        MembersSnoc(files, prefixOf, i, p);
        if p == prefix {
          assert IsDigits(prefix);
          assert groups[p] == (if p in before then before[p] else []) + [files[i]];
        } else {
          assert groups[p] == before[p];
        }
      }
      forall p | p !in groups ensures Members(files[..i + 1], prefixOf, p) == [] || !IsDigits(p) {
        MembersSnoc(files, prefixOf, i, p);
      }
    }
    assert files[..|files|] == files;
  }

  /** `int(Path(x).stem[:7])`, the key of the in-group sort; a member of a
      group always has a digit prefix, so the 0 is never used for one. */
  function PrefixNumber(f: string): int
  {
    match ParseInt(Prefix(f))
    case Some(v) => v
    case None => 0
  }

  /** `group.sort(key=...)`, ascending and stable, as the stable descending
      sort on the negated key. */
  function SortByPrefixNumber(group: seq<string>): seq<string>
  {
    Sorting.SortDesc(group, NegatedPrefixNumber)
  }

  function NegatedPrefixNumber(f: string): int { -PrefixNumber(f) }

  /** All members of a group share their prefix, so the in-group sort by
      that number leaves the group in folder order. */
  lemma {:induction false} GroupSortKeepsOrder(files: seq<string>, p: string)
    requires p in GroupKeys(files, Prefix)
    ensures SortByPrefixNumber(Members(files, Prefix, p)) == Members(files, Prefix, p)
  {
    var g := Members(files, Prefix, p);
    MembersSpec(files, Prefix, p);
    GroupKeysSpec(files, Prefix);
    ParseDigits(p);
    forall i | 0 <= i < |g| ensures NegatedPrefixNumber(g[i]) == -(DigitsValue(p) as int) {
      assert g[i] in g;
    }
    Sorting.SortDescConstantKey(g, NegatedPrefixNumber, -(DigitsValue(p) as int));
  }

  // ---------------------------------------------------------------------
  // Comparing the pairs

  /** How a verification ended: what the checker returned or raised, or
      that it was still running after five seconds and was terminated. */
  datatype Verification = Completed(verdict: Result<Qcec.Equivalence>) | TimedOut

  /** The `equivalence` field of a log entry. */
  function EquivalenceField(v: Verification): (t: string)
    ensures v.TimedOut? <==> t == "timeout"
    ensures v.Completed? ==> t == Qcec.VerdictText(v.verdict)
  {
    match v
    case TimedOut => "timeout"
    case Completed(r) =>
      assert Qcec.VerdictText(r)[0] != 't' by {
        if r.Ok? { assert Qcec.Text(r.value)[0] != 't'; }
      }
      Qcec.VerdictText(r)
  }

  datatype QasmRecord = QasmRecord(filename: string, provenance: string, provenanceTree: seq<Metadata>)

  /** A log entry and the name of the file it is written to. */
  datatype LogEntry = LogEntry(outputName: string, qasmA: QasmRecord, qasmB: QasmRecord, equivalence: string)

  /** `{stem_a}_vs_{stem_b}.json`. */
  function OutputName(pathA: string, pathB: string): string
  {
    PyPath.Stem(pathA) + "_vs_" + PyPath.Stem(pathB) + ".json"
  }

  function Record(path: string, lookup: string -> Option<Metadata>): QasmRecord
  {
    var chain := Walk(path, lookup, Depth);
    QasmRecord(PyPath.Name(path), Provenance(chain), chain)
  }

  /** The entry for one pair; `verify` stands for the checker run in a
      separate process. */
  function Entry(pair: (string, string), verify: (string, string) -> Verification, lookup: string -> Option<Metadata>): LogEntry
  {
    LogEntry(OutputName(pair.0, pair.1), Record(pair.0, lookup), Record(pair.1, lookup),
             EquivalenceField(verify(pair.0, pair.1)))
  }

  /** One entry per pair, in the order of the pairs. */
  function Entries(pairs: seq<(string, string)>, verify: (string, string) -> Verification, lookup: string -> Option<Metadata>): (r: seq<LogEntry>)
    ensures |r| == |pairs|
  {
    if pairs == [] then []
    else Entries(pairs[..|pairs| - 1], verify, lookup) + [Entry(pairs[|pairs| - 1], verify, lookup)]
  }

  /** Entry k is the one for pair k. */
  lemma {:induction false} EntriesAt(pairs: seq<(string, string)>, verify: (string, string) -> Verification, lookup: string -> Option<Metadata>, k: nat)
    requires k < |pairs|
    ensures Entries(pairs, verify, lookup)[k] == Entry(pairs[k], verify, lookup)
    decreases |pairs|
  {
    var init := pairs[..|pairs| - 1];
    var r := Entries(init, verify, lookup);
    assert Entries(pairs, verify, lookup) == r + [Entry(pairs[|pairs| - 1], verify, lookup)];
    if k < |pairs| - 1 {
      EntriesAt(init, verify, lookup, k);
      assert init[k] == pairs[k];
    }
  }

  /** The pairs compared in one group: the group sorted by program id, then
      by line count, and its first five pairs. */
  function GroupPairs(group: seq<string>, lineCount: string -> int): seq<(string, string)>
  {
    MostDifferentPairs(SortByPrefixNumber(group), lineCount, 5)
  }

  /** The entries of the groups `order` names, group after group. */
  function GroupsEntries(order: seq<string>, groups: map<string, seq<string>>, lineCount: string -> int,
                         verify: (string, string) -> Verification, lookup: string -> Option<Metadata>): seq<LogEntry>
  {
    if order == [] then []
    else
      var p := order[|order| - 1];
      GroupsEntries(order[..|order| - 1], groups, lineCount, verify, lookup)
      + (if p in groups then Entries(GroupPairs(groups[p], lineCount), verify, lookup) else [])
  }

  /** The time check before a group: with a deadline set (not -1), a clock
      reading past it ends the run. */
  predicate Late(endTimestamp: int, now: int)
  {
    endTimestamp != -1 && now > endTimestamp
  }

  /** The first group, from `k` on, before which the time check fires, or
      `n` when it never does; `clock(k)` is the time read before group k. */
  function FirstLate(k: nat, n: nat, endTimestamp: int, clock: nat -> int): (stop: nat)
    requires k <= n
    ensures k <= stop <= n
    ensures forall j :: k <= j < stop ==> !Late(endTimestamp, clock(j))
    ensures stop < n ==> Late(endTimestamp, clock(stop))
    decreases n - k
  {
    if k == n || Late(endTimestamp, clock(k)) then k else FirstLate(k + 1, n, endTimestamp, clock)
  }

  /** The first late group is `g` when none before it is late and it is
      late itself or the last. */
  lemma {:induction false} FirstLateIs(k: nat, g: nat, n: nat, endTimestamp: int, clock: nat -> int)
    requires k <= g <= n
    requires forall j :: k <= j < g ==> !Late(endTimestamp, clock(j))
    requires g < n ==> Late(endTimestamp, clock(g))
    ensures FirstLate(k, n, endTimestamp, clock) == g
    decreases g - k
  {
    if k < g {
      FirstLateIs(k + 1, g, n, endTimestamp, clock);
    }
  }

  /** One pair of the loop of process_files: both metadata chains read,
      the checker run, and the log entry built. */
  method ComparePair(pathA: string, pathB: string, verify: (string, string) -> Verification,
                     lookup: string -> Option<Metadata>)
    returns (entry: LogEntry)
    ensures entry == Entry((pathA, pathB), verify, lookup)
  {
    var metadataA := GetMetadata(pathA, lookup);
    var metadataB := GetMetadata(pathB, lookup);
    entry := LogEntry(OutputName(pathA, pathB),
                      QasmRecord(PyPath.Name(pathA), Provenance(metadataA), metadataA),
                      QasmRecord(PyPath.Name(pathB), Provenance(metadataB), metadataB),
                      EquivalenceField(verify(pathA, pathB)));
  }

  /** The pairs of one group compared and logged, in order. */
  method ComparePairs(pairs: seq<(string, string)>, verify: (string, string) -> Verification,
                      lookup: string -> Option<Metadata>)
    returns (entries: seq<LogEntry>)
    ensures entries == Entries(pairs, verify, lookup)
  {
    entries := [];
    for k := 0 to |pairs|
      invariant entries == Entries(pairs[..k], verify, lookup)
    {
      var entry := ComparePair(pairs[k].0, pairs[k].1, verify, lookup);
      EntriesSnoc(pairs, verify, lookup, k);
      entries := entries + [entry];
    }
    assert pairs[..|pairs|] == pairs;
  }

  /** One more pair compared: one more entry. */
  lemma EntriesSnoc(pairs: seq<(string, string)>, verify: (string, string) -> Verification,
                    lookup: string -> Option<Metadata>, k: nat)
    requires k < |pairs|
    ensures Entries(pairs[..k + 1], verify, lookup)
      == Entries(pairs[..k], verify, lookup) + [Entry((pairs[k].0, pairs[k].1), verify, lookup)]
  {
    assert pairs[..k + 1][..k] == pairs[..k];
  }

  /** One group of the loop of process_files: sorted by program id, its
      pairs picked, and each pair compared and logged. */
  method CompareGroup(group: seq<string>, lineCount: string -> int, verify: (string, string) -> Verification,
                      lookup: string -> Option<Metadata>)
    returns (entries: seq<LogEntry>)
    ensures entries == Entries(GroupPairs(group, lineCount), verify, lookup)
  {
    var sorted := SortByPrefixNumber(group);
    var a := new string[|sorted|](i requires 0 <= i < |sorted| => sorted[i]);
    assert a[..] == sorted;
    var pairs := PickMostDifferent(a, lineCount, 5);
    entries := ComparePairs(pairs, verify, lookup);
  }

  /** The group loop of process_files over groups already in order: each
      compared in turn, until the time check fires (`exited`). */
  method CompareGroups(order: seq<string>, groups: map<string, seq<string>>, endTimestamp: int, clock: nat -> int,
                       lineCount: string -> int, verify: (string, string) -> Verification, lookup: string -> Option<Metadata>)
    returns (entries: seq<LogEntry>, exited: bool)
    requires forall k :: 0 <= k < |order| ==> order[k] in groups
    ensures var stop := FirstLate(0, |order|, endTimestamp, clock);
      && (exited <==> stop < |order|)
      && entries == GroupsEntries(order[..stop], groups, lineCount, verify, lookup)
  {
    ghost var stop := FirstLate(0, |order|, endTimestamp, clock);
    entries, exited := [], false;
    for g := 0 to |order|
      invariant g <= stop
      invariant entries == GroupsEntries(order[..g], groups, lineCount, verify, lookup)
    {
      if Late(endTimestamp, clock(g)) {
        assert g == stop;
        assert entries == GroupsEntries(order[..stop], groups, lineCount, verify, lookup);
        exited := true;
        return;
      }
      assert g < stop;
      var groupEntries := CompareGroup(groups[order[g]], lineCount, verify, lookup);
      assert order[..g + 1][..g] == order[..g];
      entries := entries + groupEntries;
    }
    assert stop == |order|;
  }

  /** The group loop of process_files: groups in ascending prefix order.
      Each entry is written to the file its `outputName` names. */
  method ProcessGroups(groups: map<string, seq<string>>, keys: seq<string>, endTimestamp: int, clock: nat -> int,
                       lineCount: string -> int, verify: (string, string) -> Verification, lookup: string -> Option<Metadata>)
    returns (entries: seq<LogEntry>, exited: bool)
    requires forall p :: p in groups <==> p in keys
    ensures var order := Sorting.SortStrings(keys);
      var stop := FirstLate(0, |order|, endTimestamp, clock);
      && (exited <==> stop < |order|)
      && entries == GroupsEntries(order[..stop], groups, lineCount, verify, lookup)
  {
    var order := Sorting.SortStrings(keys);
    entries, exited := CompareGroups(order, groups, endTimestamp, clock, lineCount, verify, lookup);
  }

  /** The outcome of process_files: a ValueError from the id-range filter,
      or the entries written and whether the time check ended the run. */
  datatype Run = Failed(exc: Exception) | Finished(entries: seq<LogEntry>, exited: bool)

  /** process_files over the `.qasm` files of the input folder. */
  method ProcessFiles(qasmFiles: seq<string>, range: Option<(int, int)>, endTimestamp: int, clock: nat -> int,
                      lineCount: string -> int, verify: (string, string) -> Verification, store: map<string, Metadata>)
    returns (run: Run)
    ensures run.Failed? <==> FilterByRange(qasmFiles, Prefix, range).Err?
    ensures run.Finished? ==>
      var files := FilterByRange(qasmFiles, Prefix, range).value;
      var order := Sorting.SortStrings(GroupKeys(files, Prefix));
      var stop := FirstLate(0, |order|, endTimestamp, clock);
      && (run.exited <==> stop < |order|)
      && run.entries == GroupsEntries(order[..stop], Groups(files, Prefix), lineCount, verify, Loader(store))
  {
    var filtered := FilterByRange(qasmFiles, Prefix, range);
    if filtered.Err? {
      return Failed(filtered.exc);
    }
    var files := filtered.value;
    var groups, keys := GroupByPrefix(files, Prefix);
    var entries, exited := ProcessGroups(groups, keys, endTimestamp, clock, lineCount, verify, Loader(store));
    run := Finished(entries, exited);
  }
}
