/** notebooks/025_Coverage_Rust.py: the notebook's own reading of a merged
    Cobertura report (its prefix stripping and its platform lookup differ
    from qite/compute_coverage.py), the Venn partition of two platforms'
    lines and the per-line table behind its plots. The plots are not
    modelled. */
module CoverageNotebook {
  import opened Py
  import opened PyStr
  import CC = ComputeCoverage

  // _remove_redundant_prefix

  /** The notebook's prefixes, in the order it tries them (pytket before
      pennylane, unlike PACKAGE_PATHS). */
  const NotebookPrefixes: seq<string> := [CC.QiskitRepo, CC.QiskitSite, CC.PytketSite, CC.PennylaneSite]

  /** Each prefix in turn is cut off when the text, as the earlier prefixes
      left it, starts with it. */
  function StripEach(s: string, prefixes: seq<string>): string
    decreases |prefixes|
  {
    if prefixes == [] then s
    else StripEach(if StartsWith(s, prefixes[0]) then s[|prefixes[0]|..] else s, prefixes[1..])
  }

  /** _remove_redundant_prefix. */
  method RemoveRedundantPrefix(lineId: string) returns (r: string)
    ensures r == StripEach(lineId, NotebookPrefixes)
  {
    r := lineId;
    var prefixes := NotebookPrefixes;
    for i := 0 to |prefixes|
      invariant StripEach(r, prefixes[i..]) == StripEach(lineId, prefixes)
    {
      assert prefixes[i..][1..] == prefixes[i + 1..];
      if StartsWith(r, prefixes[i]) {
        r := r[|prefixes[i]|..];
      }
    }
    assert prefixes[|prefixes|..] == [];
  }

  predicate IsSuffix(a: string, b: string)
  {
    |a| <= |b| && b[|b| - |a|..] == a
  }

  lemma {:induction false} SuffixTrans(a: string, b: string, c: string)
    requires IsSuffix(a, b) && IsSuffix(b, c)
    ensures IsSuffix(a, c)
  {
    assert c[|c| - |a|..] == c[|c| - |b|..][|b| - |a|..];
  }

  /** Stripping only ever cuts off a front part. */
  lemma {:induction false} StripEachSuffix(s: string, prefixes: seq<string>)
    ensures IsSuffix(StripEach(s, prefixes), s)
    decreases |prefixes|
  {
    if prefixes != [] {
      var t := if StartsWith(s, prefixes[0]) then s[|prefixes[0]|..] else s;
      StripEachSuffix(t, prefixes[1..]);
      assert IsSuffix(t, s);
      SuffixTrans(StripEach(s, prefixes), t, s);
    }
  }

  /** A text that starts with none of the prefixes, before or after any
      stripping, comes back unchanged. */
  lemma {:induction false} StripEachUnmatched(s: string, prefixes: seq<string>)
    requires forall i :: 0 <= i < |prefixes| ==> !StartsWith(s, prefixes[i])
    ensures StripEach(s, prefixes) == s
    decreases |prefixes|
  {
    if prefixes != [] {
      assert forall i :: 0 <= i < |prefixes[1..]| ==> prefixes[1..][i] == prefixes[i + 1];
      StripEachUnmatched(s, prefixes[1..]);
    }
  }

  /** The notebook strips at least what clean_file_path strips with the
      same prefixes: its result is a suffix of the result of cutting only
      the first matching prefix. */
  lemma {:induction false} StripEachBeyondFirst(s: string, prefixes: seq<string>)
    ensures IsSuffix(StripEach(s, prefixes), CC.StripFirst(s, prefixes))
    decreases |prefixes|
  {
    if prefixes != [] {
      if StartsWith(s, prefixes[0]) {
        StripEachSuffix(s[|prefixes[0]|..], prefixes[1..]);
      } else {
        StripEachBeyondFirst(s, prefixes[1..]);
      }
    }
  }

  /** And it may strip more: a path under the repository checkout of
      qiskit followed by the site-packages directory of qiskit loses both,
      where clean_file_path keeps the second. */
  lemma {:induction false} StripsBothPrefixes()
    ensures StripEach(CC.QiskitRepo + CC.QiskitSite + "a.py:1", NotebookPrefixes) == "a.py:1"
    ensures CC.CleanFilePath(CC.QiskitRepo + CC.QiskitSite + "a.py:1") == CC.QiskitSite + "a.py:1"
  {
    var p := CC.QiskitRepo + CC.QiskitSite + "a.py:1";
    assert p[..|CC.QiskitRepo|] == CC.QiskitRepo;
    var q := p[|CC.QiskitRepo|..];
    assert q == CC.QiskitSite + "a.py:1";
    assert q[..|CC.QiskitSite|] == CC.QiskitSite;
    assert q[|CC.QiskitSite|..] == "a.py:1";
    var ps := NotebookPrefixes;
    assert !StartsWith("a.py:1", CC.PytketSite) && !StartsWith("a.py:1", CC.PennylaneSite);
    assert ps[2..][1..] == [CC.PennylaneSite] && ps[3..][1..] == [];
    assert StripEach("a.py:1", ps[3..]) == StripEach("a.py:1", []);
    assert StripEach("a.py:1", ps[2..]) == StripEach("a.py:1", ps[3..]);
    assert StripEach(q, ps[1..]) == StripEach("a.py:1", ps[2..]);
    assert StripEach(p, ps) == StripEach(q, ps[1..]);
    CC.CleanStripsOnce("a.py:1");
  }

  // The platform of a line

  /** The notebook's platform for a file: "crates" in the package name
      gives qiskit, a `.cpp` file pytket, then the first of the given
      platforms whose site-packages directory is in the path, and qiskit
      when there is none or it is the empty name. */
  function NotebookPlatform(path: string, packageName: string, platforms: seq<string>): string
  {
    if Contains(packageName, "crates") then "qiskit"
    else if EndsWith(path, ".cpp") then "pytket"
    else
      match CC.PlatformFromPath(path, platforms)
      case Some(p) => if p == "" then "qiskit" else p
      case None => "qiskit"
  }

  /** Over the supported platforms the notebook classifies every file as
      determine_platform does. */
  lemma {:induction false} NotebookPlatformAgrees(path: string, packageName: string)
    ensures NotebookPlatform(path, packageName, CC.SupportedPlatforms) == CC.DeterminePlatform(path, packageName)
  {
    var r := CC.PlatformFromPath(path, CC.SupportedPlatforms);
    assert r.Some? ==> r.value != "";
  }

  /** The notebook's platform is one of the given platforms unless it is
      one of the two defaults, qiskit and pytket. */
  lemma {:induction false} NotebookPlatformIn(path: string, packageName: string, platforms: seq<string>)
    ensures var p := NotebookPlatform(path, packageName, platforms);
      p in platforms || p == "qiskit" || p == "pytket"
  {
  }

  // extract_coverage_data

  /** The identifier of a line, `_remove_redundant_prefix(f"{filename}:{n}")`. */
  function NotebookLineId(path: string, number: string): string
  {
    StripEach(path + ":" + number, NotebookPrefixes)
  }

  function NotebookLineHits(path: string, platform: string, lines: seq<CC.Line>): (r: seq<CC.Hit>)
    ensures |r| == |lines|
    ensures forall i :: 0 <= i < |r| ==> r[i] == CC.Hit(platform, NotebookLineId(path, lines[i].number), lines[i].hits > 0)
    decreases |lines|
  {
    if lines == [] then []
    else
      var last := lines[|lines| - 1];
      NotebookLineHits(path, platform, lines[..|lines| - 1]) + [CC.Hit(platform, NotebookLineId(path, last.number), last.hits > 0)]
  }

  function NotebookClassHits(c: CC.ClassElem, packageName: string, platforms: seq<string>): seq<CC.Hit>
  {
    if CC.Skipped(c.filename) then []
    else NotebookLineHits(c.filename, NotebookPlatform(c.filename, packageName, platforms), c.lines)
  }

  function NotebookClassHitsOf(packageName: string, platforms: seq<string>): CC.ClassElem -> seq<CC.Hit>
  {
    c => NotebookClassHits(c, packageName, platforms)
  }

  function NotebookPackageHitsOf(platforms: seq<string>): CC.Package -> seq<CC.Hit>
  {
    (pk: CC.Package) => CC.FlatMap(pk.classes, NotebookClassHitsOf(pk.name, platforms))
  }

  /** The lines of a report as the notebook reads them, in order. */
  function NotebookHits(packages: seq<CC.Package>, platforms: seq<string>): seq<CC.Hit>
  {
    CC.FlatMap(packages, NotebookPackageHitsOf(platforms))
  }

  /** Recording lines in order into a dict that may lack a platform: the
      first line whose platform has no entry raises KeyError. */
  function AddAll(d: CC.CoverageData, hs: seq<CC.Hit>): (r: Result<CC.CoverageData>)
    ensures r.Ok? ==> r.value.Keys == d.Keys
    decreases |hs|
  {
    if hs == [] then Ok(d)
    else
      match AddAll(d, hs[..|hs| - 1])
      case Err(e) => Err(e)
      case Ok(d') =>
        var h := hs[|hs| - 1];
        if h.platform in d' then Ok(CC.Record(d', h)) else Err(KeyError(h.platform))
  }

  lemma {:induction false} AddAllAppend(d: CC.CoverageData, a: seq<CC.Hit>, b: seq<CC.Hit>)
    ensures AddAll(d, a + b) == match AddAll(d, a) case Err(e) => Err(e) case Ok(d') => AddAll(d', b)
    decreases |b|
  {
    if b == [] {
      assert a + b == a;
      if AddAll(d, a).Ok? {
        assert AddAll(AddAll(d, a).value, b) == Ok(AddAll(d, a).value);
      }
    } else {
      var b' := b[..|b| - 1];
      AddAllAppend(d, a, b');
      assert (a + b)[..|a + b| - 1] == a + b';
      assert (a + b)[|a + b| - 1] == b[|b| - 1];
    }
  }

  /** Recording succeeds exactly when every line's platform has an entry,
      and then records every line; otherwise it raises KeyError naming the
      platform of the first line without one. */
  lemma {:induction false} AddAllSpec(d: CC.CoverageData, hs: seq<CC.Hit>)
    ensures AddAll(d, hs).Ok? <==> forall i :: 0 <= i < |hs| ==> hs[i].platform in d
    ensures (forall i :: 0 <= i < |hs| ==> hs[i].platform in d) ==> AddAll(d, hs) == Ok(CC.RecordAll(d, hs))
    ensures AddAll(d, hs).Err? ==>
              exists i :: && 0 <= i < |hs| && hs[i].platform !in d && AddAll(d, hs).exc == KeyError(hs[i].platform)
                          && forall j :: 0 <= j < i ==> hs[j].platform in d
    decreases |hs|
  {
    if hs != [] {
      var n := |hs| - 1;
      var init := hs[..n];
      AddAllSpec(d, init);
      assert forall i :: 0 <= i < n ==> init[i] == hs[i];
      if AddAll(d, init).Err? {
        var i :| && 0 <= i < |init| && init[i].platform !in d && AddAll(d, init).exc == KeyError(init[i].platform)
                 && forall j :: 0 <= j < i ==> init[j].platform in d;
        assert hs[i] == init[i];
      }
    }
  }

  /** One more line after a successful prefix. */
  lemma {:induction false} AddAllStep(d: CC.CoverageData, hs: seq<CC.Hit>, cov: CC.CoverageData, h: CC.Hit)
    requires AddAll(d, hs) == Ok(cov)
    ensures AddAll(d, hs + [h]) == if h.platform in cov then Ok(CC.Record(cov, h)) else Err(KeyError(h.platform))
  {
    assert (hs + [h])[..|hs|] == hs;
  }

  /** Once a prefix raises, the whole sequence raises the same error. */
  lemma {:induction false} AddAllErrPrefix(d: CC.CoverageData, hs: seq<CC.Hit>, k: nat)
    requires k <= |hs| && AddAll(d, hs[..k]).Err?
    ensures AddAll(d, hs) == AddAll(d, hs[..k])
    decreases |hs|
  {
    if k < |hs| {
      var init := hs[..|hs| - 1];
      assert init[..k] == hs[..k];
      AddAllErrPrefix(d, init, k);
    } else {
      assert hs[..k] == hs;
    }
  }

  /** The hits of the first k items lead the hits of all of them. */
  lemma {:induction false} FlatMapPrefix<A>(xs: seq<A>, f: A -> seq<CC.Hit>, k: nat)
    requires k <= |xs|
    ensures |CC.FlatMap(xs[..k], f)| <= |CC.FlatMap(xs, f)|
    ensures CC.FlatMap(xs, f)[..|CC.FlatMap(xs[..k], f)|] == CC.FlatMap(xs[..k], f)
    decreases |xs|
  {
    if k < |xs| {
      var init := xs[..|xs| - 1];
      assert init[..k] == xs[..k];
      FlatMapPrefix(init, f, k);
    } else {
      assert xs[..k] == xs;
    }
  }

  /** An error in the hits of the first k items is the error of all. */
  lemma {:induction false} FlatMapErr<A>(d: CC.CoverageData, xs: seq<A>, f: A -> seq<CC.Hit>, k: nat)
    requires k <= |xs| && AddAll(d, CC.FlatMap(xs[..k], f)).Err?
    ensures AddAll(d, CC.FlatMap(xs, f)) == AddAll(d, CC.FlatMap(xs[..k], f))
  {
    FlatMapPrefix(xs, f, k);
    AddAllErrPrefix(d, CC.FlatMap(xs, f), |CC.FlatMap(xs[..k], f)|);
  }

  /** The line loop of one class: a platform key without an entry raises
      KeyError at the first line. */
  method RecordLines(d: CC.CoverageData, path: string, key: string, lines: seq<CC.Line>) returns (r: Result<CC.CoverageData>)
    ensures r == AddAll(d, NotebookLineHits(path, key, lines))
  {
    ghost var hs := NotebookLineHits(path, key, lines);
    var cov := d;
    for i := 0 to |lines|
      invariant AddAll(d, hs[..i]) == Ok(cov)
    {
      var id := RemoveRedundantPrefix(path + ":" + lines[i].number);
      var h := CC.Hit(key, id, lines[i].hits > 0);
      assert hs[..i + 1] == hs[..i] + [h];
      AddAllStep(d, hs[..i], cov, h);
      if key !in cov {
        AddAllErrPrefix(d, hs, i + 1);
        return Err(KeyError(key));
      }
      cov := RecordLine(cov, key, id, lines[i].hits > 0);
    }
    assert hs[..|lines|] == hs;
    r := Ok(cov);
  }

  /** One line: its id joins the platform's total, and its covered set
      when the line was hit. */
  method RecordLine(cov: CC.CoverageData, key: string, id: string, hit: bool) returns (c: CC.CoverageData)
    requires key in cov
    ensures c == CC.Record(cov, CC.Hit(key, id, hit))
  {
    var pc := cov[key];
    c := cov[key := CC.PlatformCoverage(pc.covered, pc.total + {id})];
    if hit {
      c := c[key := CC.PlatformCoverage(c[key].covered + {id}, c[key].total)];
    }
  }

  /** The class loop of one package. */
  method RecordClasses(d: CC.CoverageData, packageName: string, classes: seq<CC.ClassElem>, platforms: seq<string>)
    returns (r: Result<CC.CoverageData>)
    ensures r == AddAll(d, CC.FlatMap(classes, NotebookClassHitsOf(packageName, platforms)))
  {
    ghost var f := NotebookClassHitsOf(packageName, platforms);
    var cov := d;
    for j := 0 to |classes|
      invariant AddAll(d, CC.FlatMap(classes[..j], f)) == Ok(cov)
    {
      assert classes[..j + 1][..j] == classes[..j];
      var c := classes[j];
      AddAllAppend(d, CC.FlatMap(classes[..j], f), f(c));
      if !CC.Skipped(c.filename) {
        var next := RecordLines(cov, c.filename, NotebookPlatform(c.filename, packageName, platforms), c.lines);
        if next.Err? {
          FlatMapErr(d, classes, f, j + 1);
          return next;
        }
        cov := next.value;
      }
    }
    assert classes[..|classes|] == classes;
    r := Ok(cov);
  }

  /** extract_coverage_data: empty sets for each given platform, then every
      line of the report recorded in order; a report without `packages`
      raises AttributeError, and a line whose platform (a default, qiskit
      or pytket) is not among the given ones raises KeyError. */
  method ExtractCoverageData(root: CC.Root, platforms: seq<string>) returns (r: Result<CC.CoverageData>)
    ensures root.packages.None? ==> r == Err(AttributeError(CC.NoPackages))
    ensures root.packages.Some? ==> r == AddAll(CC.Initial(platforms), NotebookHits(root.packages.value, platforms))
  {
    var cov := CC.Initial(platforms);
    if root.packages.None? {
      return Err(AttributeError(CC.NoPackages));
    }
    var packages := root.packages.value;
    ghost var f := NotebookPackageHitsOf(platforms);
    ghost var d := CC.Initial(platforms);
    for i := 0 to |packages|
      invariant AddAll(d, CC.FlatMap(packages[..i], f)) == Ok(cov)
    {
      assert packages[..i + 1][..i] == packages[..i];
      var pk := packages[i];
      AddAllAppend(d, CC.FlatMap(packages[..i], f), f(pk));
      var next := RecordClasses(cov, pk.name, pk.classes, platforms);
      if next.Err? {
        FlatMapErr(d, packages, f, i + 1);
        return next;
      }
      cov := next.value;
    }
    assert packages[..|packages|] == packages;
    r := Ok(cov);
  }

  /** When extraction succeeds every platform keeps its covered lines among
      its lines, and a line is among a platform's lines exactly when the
      report holds it for that platform. */
  lemma {:induction false} ExtractSound(packages: seq<CC.Package>, platforms: seq<string>)
    requires AddAll(CC.Initial(platforms), NotebookHits(packages, platforms)).Ok?
    ensures CC.Sound(AddAll(CC.Initial(platforms), NotebookHits(packages, platforms)).value)
    ensures forall p, id :: p in platforms ==>
              (id in AddAll(CC.Initial(platforms), NotebookHits(packages, platforms)).value[p].total <==>
                 CC.Hit(p, id, true) in NotebookHits(packages, platforms) || CC.Hit(p, id, false) in NotebookHits(packages, platforms))
  {
    var hs := NotebookHits(packages, platforms);
    var d := CC.Initial(platforms);
    AddAllSpec(d, hs);
    CC.RecordAllSound(d, hs);
    forall p, id | p in platforms
      ensures id in CC.RecordAll(d, hs)[p].total <==> CC.Hit(p, id, true) in hs || CC.Hit(p, id, false) in hs
    {
      CC.RecordAllSpec(d, hs, p, id);
    }
  }

  /** Over the supported platforms extraction never raises KeyError. */
  lemma {:induction false} SupportedNeverMissing(packages: seq<CC.Package>)
    ensures AddAll(CC.Initial(CC.SupportedPlatforms), NotebookHits(packages, CC.SupportedPlatforms)).Ok?
  {
    var hs := NotebookHits(packages, CC.SupportedPlatforms);
    var d := CC.Initial(CC.SupportedPlatforms);
    forall i | 0 <= i < |hs|
      ensures hs[i].platform in d
    {
      assert hs[i] in hs;
      CC.FlatMapSpec(packages, NotebookPackageHitsOf(CC.SupportedPlatforms), hs[i]);
      var pk :| pk in packages && hs[i] in NotebookPackageHitsOf(CC.SupportedPlatforms)(pk);
      CC.FlatMapSpec(pk.classes, NotebookClassHitsOf(pk.name, CC.SupportedPlatforms), hs[i]);
      var c :| c in pk.classes && hs[i] in NotebookClassHitsOf(pk.name, CC.SupportedPlatforms)(c);
      var ls := NotebookClassHits(c, pk.name, CC.SupportedPlatforms);
      var k :| 0 <= k < |ls| && ls[k] == hs[i];
      NotebookPlatformIn(c.filename, pk.name, CC.SupportedPlatforms);
    }
    AddAllSpec(d, hs);
  }

  /** Without qiskit among the platforms, a report with a Rust crate line
      raises KeyError('qiskit'). */
  lemma {:induction false} MissingQiskitRaises(c: CC.ClassElem, l: CC.Line, platforms: seq<string>)
    requires "qiskit" !in platforms && !CC.Skipped(c.filename) && c.lines == [l]
    ensures AddAll(CC.Initial(platforms), NotebookHits([CC.Package("crates", [c])], platforms)) == Err(KeyError("qiskit"))
  {
    assert Contains("crates", "crates") by {
      assert "crates"[0..][..6] == "crates";
      ContainsAt("crates", "crates", 0);
    }
    var h := CC.Hit("qiskit", NotebookLineId(c.filename, l.number), l.hits > 0);
    var pk := CC.Package("crates", [c]);
    assert NotebookClassHits(c, "crates", platforms) == [h];
    assert CC.FlatMap([c], NotebookClassHitsOf("crates", platforms)) == CC.FlatMap([c][..0], NotebookClassHitsOf("crates", platforms)) + [h];
    assert NotebookHits([pk], platforms) == CC.FlatMap([pk][..0], NotebookPackageHitsOf(platforms)) + [h];
    assert NotebookHits([pk], platforms) == [h];
    assert [h][..0] == [];
  }

  // calculate_venn_sets

  datatype VennData = VennData(exclusive1: set<string>, exclusive2: set<string>, intersection: set<string>)

  function CalculateVennSets(set1: set<string>, set2: set<string>): VennData
  {
    VennData(set1 - set2, set2 - set1, set1 * set2)
  }

  /** The three parts are pairwise disjoint, together they are the union
      of the two sets, and each set is its exclusive part and the
      intersection. */
  lemma {:induction false} VennPartition(set1: set<string>, set2: set<string>)
    ensures var v := CalculateVennSets(set1, set2);
      && v.exclusive1 * v.exclusive2 == {} && v.exclusive1 * v.intersection == {} && v.exclusive2 * v.intersection == {}
      && v.exclusive1 + v.exclusive2 + v.intersection == set1 + set2
      && v.exclusive1 + v.intersection == set1 && v.exclusive2 + v.intersection == set2
  {
  }

  // create_line_coverage_data

  datatype LineRecord = LineRecord(filename: string, lineNumber: int, covered: bool, topLevelFolder: string)

  /** One row: `file_path, line_number = line.split(':')` (ValueError
      unless there are exactly two parts), `int(line_number)` (ValueError
      when it is not an integer), the first path segment or "root" when the
      path has no `/`. */
  function LineRecordOf(line: string, covered: set<string>): Result<LineRecord>
  {
    var parts := Split(line, ':');
    if |parts| > 2 then Err(ValueError("too many values to unpack (expected 2)"))
    else if |parts| < 2 then Err(ValueError("not enough values to unpack (expected 2, got 1)"))
    else
      match ParseInt(parts[1])
      case None => Err(ValueError("invalid literal for int() with base 10: '" + parts[1] + "'"))
      case Some(n) =>
        var folder := if '/' in parts[0] then Split(parts[0], '/')[0] else "root";
        Ok(LineRecord(parts[0], n, line in covered, folder))
  }

  /** create_line_coverage_data over the lines in the order the set is
      iterated: one row per line, or the error of the first line that
      cannot be read. */
  method CreateLineCoverageData(lines: seq<string>, covered: set<string>) returns (r: Result<seq<LineRecord>>)
    ensures r.Ok? <==> forall i :: 0 <= i < |lines| ==> LineRecordOf(lines[i], covered).Ok?
    ensures r.Ok? ==> |r.value| == |lines| && forall i :: 0 <= i < |lines| ==> r.value[i] == LineRecordOf(lines[i], covered).value
    ensures r.Err? ==> exists i :: && 0 <= i < |lines| && LineRecordOf(lines[i], covered) == Err(r.exc)
                                   && forall j :: 0 <= j < i ==> LineRecordOf(lines[j], covered).Ok?
  {
    r := ReadRows(lines, line => LineRecordOf(line, covered));
  }

  /** The loop of create_line_coverage_data for any way `read` of making
      a row of a line. */
  method ReadRows<A, B>(lines: seq<A>, read: A -> Result<B>) returns (r: Result<seq<B>>)
    ensures r.Ok? <==> forall i :: 0 <= i < |lines| ==> read(lines[i]).Ok?
    ensures r.Ok? ==> |r.value| == |lines| && forall i :: 0 <= i < |lines| ==> r.value[i] == read(lines[i]).value
    ensures r.Err? ==> exists i :: && 0 <= i < |lines| && read(lines[i]) == Err(r.exc)
                                   && forall j :: 0 <= j < i ==> read(lines[j]).Ok?
  {
    var rows: seq<B> := [];
    for i := 0 to |lines|
      invariant |rows| == i
      invariant forall j :: 0 <= j < i ==> read(lines[j]).Ok? && rows[j] == read(lines[j]).value
    {
      var row := read(lines[i]);
      if row.Err? {
        return Err(row.exc);
      }
      rows := rows + [row.value];
    }
    r := Ok(rows);
  }

  /** A row read from a line: the line is its path and number text joined
      by ':' with no ':' in the path, `covered` is membership in the covered
      set, and the folder is "root" for a path without '/' and otherwise
      the text before the path's first '/'. */
  lemma {:induction false} LineRecordSpec(line: string, covered: set<string>)
    requires LineRecordOf(line, covered).Ok?
    ensures var row := LineRecordOf(line, covered).value;
      && row.covered == (line in covered)
      && ':' !in row.filename
      && line == row.filename + ":" + Split(line, ':')[1]
      && ('/' !in row.filename ==> row.topLevelFolder == "root")
      && ('/' in row.filename ==> '/' !in row.topLevelFolder && StartsWith(row.filename, row.topLevelFolder + "/"))
  {
    var parts := Split(line, ':');
    SplitNoSep(line, ':');
    JoinSplit(line, ':');
    assert Join([':'], parts) == parts[0] + ":" + Join([':'], parts[1..]);
    assert parts[1..] == [parts[1]];
    var path := parts[0];
    if '/' in path {
      var segs := Split(path, '/');
      SplitNoSep(path, '/');
      JoinSplit(path, '/');
      var k := Find(path, ['/']);
      if k < 0 {
        NoSepBeforeFind(path, '/');
        assert false;
      }
      assert |segs| >= 2;
      assert Join(['/'], segs) == segs[0] + "/" + Join(['/'], segs[1..]);
      assert (segs[0] + "/" + Join(['/'], segs[1..]))[..|segs[0] + "/"|] == segs[0] + "/";
    }
  }
}
