/** qite/compute_coverage.py: merging the Cobertura XML reports of one run,
    sorting their lines by platform and counting covered and total lines.

    The XML parser is not modelled: a report is given as the tree
    `ElementTree` would build, keeping only what the program reads (the
    `packages` element, each package's name and classes, each class's file
    name and lines, each line's number and hit count). */
module ComputeCoverage {
  import opened Py
  import opened PyStr
  import opened PySeq

  const QiskitRepo := "/home/regularuser/qiskit/qiskit/"
  const QiskitSite := "/home/regularuser/.venv/lib/python3.12/site-packages/qiskit/"
  const PennylaneSite := "/home/regularuser/.venv/lib/python3.12/site-packages/pennylane/"
  const PytketSite := "/home/regularuser/.venv/lib/python3.12/site-packages/pytket/"

  const SupportedPlatforms: seq<string> := ["qiskit", "pennylane", "pytket"]

  /** The prefixes of PACKAGE_PATHS, platform by platform in the dict's
      order and, within a platform, in list order. */
  const Prefixes: seq<string> := [QiskitRepo, QiskitSite, PennylaneSite, PytketSite]

  const MergedName := "merged_coverage.xml"
  const MergedStem := "merged_coverage"

  /** `AttributeError` of `None.findall`, raised when a report has no
      `packages` element. */
  const NoPackages := "'NoneType' object has no attribute 'findall'"

  /** `AttributeError` of serialising `None`, raised when there was no
      report to merge. */
  const NoRoot := "'NoneType' object has no attribute 'iter'"

  // The reports

  datatype Line = Line(number: string, hits: int)
  datatype ClassElem = ClassElem(filename: string, lines: seq<Line>)
  datatype Package = Package(name: string, classes: seq<ClassElem>)

  /** A report's root: everything but its packages, kept as it is, and
      its `packages` element, if it has one. */
  datatype Root = Root(header: string, packages: Option<seq<Package>>)

  // find_coverage_files and the filter of process_coverage

  /** `folder.glob("*.xml")` minus `merged_coverage.xml`. */
  predicate IsCoverageFile(name: string)
  {
    EndsWith(name, ".xml") && name != MergedName
  }

  /** find_coverage_files over the names in the folder, in listing order. */
  function FindCoverageFiles(names: seq<string>): seq<string>
  {
    Filter(names, IsCoverageFile)
  }

  predicate NotMerged(name: string)
  {
    !StartsWith(name, MergedStem)
  }

  /** The reports process_coverage merges. */
  function CoverageInputs(names: seq<string>): seq<string>
  {
    Filter(FindCoverageFiles(names), NotMerged)
  }

  /** The merged reports are exactly the `.xml` files of the folder whose
      name does not start with `merged_coverage`; the first exclusion of
      `merged_coverage.xml` is subsumed by the second. */
  lemma {:induction false} CoverageInputsSpec(names: seq<string>)
    ensures forall n :: n in CoverageInputs(names) <==> n in names && EndsWith(n, ".xml") && !StartsWith(n, MergedStem)
  {
    FilterSpec(names, IsCoverageFile);
    FilterSpec(FindCoverageFiles(names), NotMerged);
    assert MergedName[..|MergedStem|] == MergedStem;
  }

  // clean_file_path

  /** The path with the first prefix of `prefixes` it starts with cut off,
      or the path itself. */
  function StripFirst(path: string, prefixes: seq<string>): string
  {
    if prefixes == [] then path
    else if StartsWith(path, prefixes[0]) then path[|prefixes[0]|..]
    else StripFirst(path, prefixes[1..])
  }

  function CleanFilePath(path: string): string
  {
    StripFirst(path, Prefixes)
  }

  /** A path that starts with no prefix is left unchanged; otherwise
      exactly the first matching prefix is cut off, once. */
  lemma {:induction false} StripFirstSpec(path: string, prefixes: seq<string>)
    ensures (forall i :: 0 <= i < |prefixes| ==> !StartsWith(path, prefixes[i])) ==> StripFirst(path, prefixes) == path
    ensures forall i :: 0 <= i < |prefixes| && StartsWith(path, prefixes[i])
                        && (forall j :: 0 <= j < i ==> !StartsWith(path, prefixes[j])) ==>
                          StripFirst(path, prefixes) == path[|prefixes[i]|..]
  {
    if prefixes != [] {
      StripFirstSpec(path, prefixes[1..]);
      forall j | 0 <= j < |prefixes| - 1
        ensures prefixes[1..][j] == prefixes[j + 1]
      {
      }
    }
  }

  /** A path under the repository checkout of qiskit loses that prefix
      only: a second prefix right after it stays. */
  lemma {:induction false} CleanStripsOnce(rest: string)
    ensures CleanFilePath(QiskitRepo + QiskitSite + rest) == QiskitSite + rest
  {
    var p := QiskitRepo + QiskitSite + rest;
    assert p[..|QiskitRepo|] == QiskitRepo;
    assert p[|QiskitRepo|..] == QiskitSite + rest;
  }

  // determine_platform

  function SitePackages(platform: string): string
  {
    "/site-packages/" + platform + "/"
  }

  /** The first platform p of `platforms` with `/site-packages/p/` in the
      path, or None. */
  function PlatformFromPath(path: string, platforms: seq<string>): (r: Option<string>)
    ensures r.Some? ==> r.value in platforms
  {
    if platforms == [] then None
    else if Contains(path, SitePackages(platforms[0])) then Some(platforms[0])
    else PlatformFromPath(path, platforms[1..])
  }

  /** None exactly when no platform's directory is in the path. */
  lemma {:induction false} PlatformFromPathNone(path: string, platforms: seq<string>)
    ensures PlatformFromPath(path, platforms).None? <==>
              forall i :: 0 <= i < |platforms| ==> !Contains(path, SitePackages(platforms[i]))
  {
    if platforms != [] {
      PlatformFromPathNone(path, platforms[1..]);
      if forall i :: 0 <= i < |platforms[1..]| ==> !Contains(path, SitePackages(platforms[1..][i])) {
        forall i | 1 <= i < |platforms|
          ensures !Contains(path, SitePackages(platforms[i]))
        {
          assert platforms[i] == platforms[1..][i - 1];
        }
      }
    }
  }

  /** Otherwise it is the first platform, in list order, whose directory
      is in the path. */
  lemma {:induction false} PlatformFromPathFirst(path: string, platforms: seq<string>)
    ensures PlatformFromPath(path, platforms).Some? ==>
              exists i :: && 0 <= i < |platforms| && platforms[i] == PlatformFromPath(path, platforms).value
                          && Contains(path, SitePackages(platforms[i]))
                          && forall j :: 0 <= j < i ==> !Contains(path, SitePackages(platforms[j]))
  {
    PlatformFromPathIsFirst(path, platforms);
    FirstWithSpec(platforms, InPath(path));
    if PlatformFromPath(path, platforms).Some? {
      var i :| && 0 <= i < |platforms| && platforms[i] == PlatformFromPath(path, platforms).value
               && InPath(path)(platforms[i])
               && forall j :: 0 <= j < i ==> !InPath(path)(platforms[j]);
      assert Contains(path, SitePackages(platforms[i]));
      forall j | 0 <= j < i ensures !Contains(path, SitePackages(platforms[j])) {
        assert !InPath(path)(platforms[j]);
      }
    }
  }

  /** Whether a platform's site-packages directory is in the path. */
  function InPath(path: string): string -> bool
  {
    platform => Contains(path, SitePackages(platform))
  }

  /** The first element of `s` that satisfies `p`, or None. */
  function FirstWith<T>(s: seq<T>, p: T -> bool): Option<T>
  {
    if s == [] then None
    else if p(s[0]) then Some(s[0])
    else FirstWith(s[1..], p)
  }

  lemma {:induction false} FirstWithSpec<T>(s: seq<T>, p: T -> bool)
    ensures FirstWith(s, p).Some? ==>
              exists i :: && 0 <= i < |s| && s[i] == FirstWith(s, p).value && p(s[i])
                          && forall j :: 0 <= j < i ==> !p(s[j])
  {
    if s != [] && !p(s[0]) {
      FirstWithSpec(s[1..], p);
      if FirstWith(s, p).Some? {
        var i :| && 0 <= i < |s[1..]| && s[1..][i] == FirstWith(s, p).value && p(s[1..][i])
                 && forall j :: 0 <= j < i ==> !p(s[1..][j]);
        assert s[i + 1] == s[1..][i];
        forall j | 0 <= j < i + 1 ensures !p(s[j]) {
          if j > 0 {
            assert s[j] == s[1..][j - 1];
          }
        }
      }
    }
  }

  lemma {:induction false} PlatformFromPathIsFirst(path: string, platforms: seq<string>)
    ensures PlatformFromPath(path, platforms) == FirstWith(platforms, InPath(path))
  {
    if platforms != [] {
      PlatformFromPathIsFirst(path, platforms[1..]);
    }
  }

  /** The platform of a file, tried in this order: a package whose name
      holds "crates" is qiskit's Rust code, a `.cpp` file is pytket's, then
      the site-packages directory, and qiskit when nothing matched. */
  function Classify(path: string, packageName: string, platforms: seq<string>): string
  {
    if Contains(packageName, "crates") then "qiskit"
    else if EndsWith(path, ".cpp") then "pytket"
    else
      match PlatformFromPath(path, platforms)
      case Some(p) => p
      case None => "qiskit"
  }

  /** determine_platform. */
  function DeterminePlatform(path: string, packageName: string): (r: string)
    ensures r in SupportedPlatforms
  {
    Classify(path, packageName, SupportedPlatforms)
  }

  /** The decision order of determine_platform: "crates" wins over `.cpp`,
      which wins over the directory; a site-packages directory names its
      platform unless an earlier platform's directory is also present;
      without any of them the answer is qiskit, never None. */
  lemma {:induction false} DeterminePlatformSpec(path: string, packageName: string)
    ensures Contains(packageName, "crates") ==> DeterminePlatform(path, packageName) == "qiskit"
    ensures !Contains(packageName, "crates") && EndsWith(path, ".cpp") ==> DeterminePlatform(path, packageName) == "pytket"
    ensures && !Contains(packageName, "crates") && !EndsWith(path, ".cpp")
            && (forall i :: 0 <= i < |SupportedPlatforms| ==> !Contains(path, SitePackages(SupportedPlatforms[i])))
            ==> DeterminePlatform(path, packageName) == "qiskit"
    ensures forall i :: && 0 <= i < |SupportedPlatforms|
                        && !Contains(packageName, "crates") && !EndsWith(path, ".cpp")
                        && Contains(path, SitePackages(SupportedPlatforms[i]))
                        && (forall j :: 0 <= j < i ==> !Contains(path, SitePackages(SupportedPlatforms[j])))
                        ==> DeterminePlatform(path, packageName) == SupportedPlatforms[i]
  {
    PlatformFromPathNone(path, SupportedPlatforms);
    forall i | && 0 <= i < |SupportedPlatforms|
               && !Contains(packageName, "crates") && !EndsWith(path, ".cpp")
               && Contains(path, SitePackages(SupportedPlatforms[i]))
               && (forall j :: 0 <= j < i ==> !Contains(path, SitePackages(SupportedPlatforms[j])))
      ensures DeterminePlatform(path, packageName) == SupportedPlatforms[i]
    {
      PlatformFromPathAt(path, SupportedPlatforms, i);
    }
  }

  /** The first platform whose directory is in the path is the one found. */
  lemma PlatformFromPathAt(path: string, platforms: seq<string>, i: nat)
    requires i < |platforms| && Contains(path, SitePackages(platforms[i]))
    requires forall j :: 0 <= j < i ==> !Contains(path, SitePackages(platforms[j]))
    ensures PlatformFromPath(path, platforms) == Some(platforms[i])
  {
    PlatformFromPathNone(path, platforms);
    PlatformFromPathFirst(path, platforms);
    var k :| && 0 <= k < |platforms| && platforms[k] == PlatformFromPath(path, platforms).value
             && Contains(path, SitePackages(platforms[k]))
             && forall j :: 0 <= j < k ==> !Contains(path, SitePackages(platforms[j]));
    assert !(k < i) && !(i < k);
  }

  // process_class_coverage: the files left out

  /** A file whose lower-cased name holds "test", or a C++ header. */
  predicate Skipped(path: string)
  {
    Contains(Lower(path), "test") || EndsWith(path, ".hpp")
  }

  // The coverage data

  datatype PlatformCoverage = PlatformCoverage(covered: set<string>, total: set<string>)

  type CoverageData = map<string, PlatformCoverage>

  /** initialize_coverage_data, over a list of platforms. */
  function Initial(platforms: seq<string>): (d: CoverageData)
    ensures forall p :: p in d <==> p in platforms
    ensures forall p :: p in d ==> d[p] == PlatformCoverage({}, {})
  {
    map p | p in platforms :: PlatformCoverage({}, {})
  }

  /** Every platform's covered lines are among its lines. */
  predicate Sound(d: CoverageData)
  {
    forall p :: p in d ==> d[p].covered <= d[p].total
  }

  /** One line of one file, as it is counted: the platform it goes to, its
      identifier and whether it was hit. */
  datatype Hit = Hit(platform: string, id: string, hit: bool)

  /** The identifier `{clean_file_path(file_path)}:{line_number}`. */
  function LineId(path: string, number: string): string
  {
    CleanFilePath(path) + ":" + number
  }

  /** Recording one line: always among the platform's lines, and among its
      covered lines when it was hit. */
  function Record(d: CoverageData, h: Hit): CoverageData
    requires h.platform in d
  {
    var pc := d[h.platform];
    d[h.platform := PlatformCoverage(if h.hit then pc.covered + {h.id} else pc.covered, pc.total + {h.id})]
  }

  /** Recording lines one after the other. */
  function RecordAll(d: CoverageData, hs: seq<Hit>): (r: CoverageData)
    requires forall i :: 0 <= i < |hs| ==> hs[i].platform in d
    ensures r.Keys == d.Keys
    decreases |hs|
  {
    if hs == [] then d else Record(RecordAll(d, hs[..|hs| - 1]), hs[|hs| - 1])
  }

  lemma {:induction false} RecordAllAppend(d: CoverageData, a: seq<Hit>, b: seq<Hit>)
    requires forall i :: 0 <= i < |a| ==> a[i].platform in d
    requires forall i :: 0 <= i < |b| ==> b[i].platform in d
    ensures forall i :: 0 <= i < |a + b| ==> (a + b)[i].platform in d
    ensures RecordAll(d, a + b) == RecordAll(RecordAll(d, a), b)
    decreases |b|
  {
    if b == [] {
      assert a + b == a;
    } else {
      var b' := b[..|b| - 1];
      RecordAllAppend(d, a, b');
      assert (a + b)[..|a + b| - 1] == a + b';
      assert (a + b)[|a + b| - 1] == b[|b| - 1];
    }
  }

  /** Recording keeps every platform's covered lines among its lines. */
  lemma {:induction false} RecordAllSound(d: CoverageData, hs: seq<Hit>)
    requires forall i :: 0 <= i < |hs| ==> hs[i].platform in d
    requires Sound(d)
    ensures Sound(RecordAll(d, hs))
    decreases |hs|
  {
    if hs != [] {
      RecordAllSound(d, hs[..|hs| - 1]);
    }
  }

  /** After recording, a platform's lines are its old lines and the lines
      recorded for it; its covered lines are its old covered lines and the
      lines recorded for it with a hit. */
  lemma {:induction false} RecordAllSpec(d: CoverageData, hs: seq<Hit>, p: string, id: string)
    requires forall i :: 0 <= i < |hs| ==> hs[i].platform in d
    requires p in d
    ensures id in RecordAll(d, hs)[p].total <==> id in d[p].total || Hit(p, id, true) in hs || Hit(p, id, false) in hs
    ensures id in RecordAll(d, hs)[p].covered <==> id in d[p].covered || Hit(p, id, true) in hs
    decreases |hs|
  {
    if hs != [] {
      var init := hs[..|hs| - 1];
      RecordAllSpec(d, init, p, id);
      assert hs == init + [hs[|hs| - 1]];
    }
  }

  // The lines a report contributes

  function LineHits(path: string, platform: string, lines: seq<Line>): (r: seq<Hit>)
    ensures |r| == |lines|
    ensures forall i :: 0 <= i < |r| ==> r[i] == Hit(platform, LineId(path, lines[i].number), lines[i].hits > 0)
    decreases |lines|
  {
    if lines == [] then []
    else
      var last := lines[|lines| - 1];
      LineHits(path, platform, lines[..|lines| - 1]) + [Hit(platform, LineId(path, last.number), last.hits > 0)]
  }

  /** The lines of one class, or none when its file is skipped. */
  function ClassHits(c: ClassElem, packageName: string): (r: seq<Hit>)
    ensures Supported(r)
  {
    if Skipped(c.filename) then []
    else LineHits(c.filename, DeterminePlatform(c.filename, packageName), c.lines)
  }

  predicate Supported(hs: seq<Hit>)
  {
    forall i :: 0 <= i < |hs| ==> hs[i].platform in SupportedPlatforms
  }

  /** The lines of each element of `xs`, one after the other. */
  function FlatMap<A>(xs: seq<A>, f: A -> seq<Hit>): seq<Hit>
    decreases |xs|
  {
    if xs == [] then [] else FlatMap(xs[..|xs| - 1], f) + f(xs[|xs| - 1])
  }

  lemma {:induction false} FlatMapSupported<A>(xs: seq<A>, f: A -> seq<Hit>)
    requires forall x :: x in xs ==> Supported(f(x))
    ensures Supported(FlatMap(xs, f))
    decreases |xs|
  {
    if xs != [] {
      FlatMapSupported(xs[..|xs| - 1], f);
    }
  }

  lemma {:induction false} FlatMapSpec<A>(xs: seq<A>, f: A -> seq<Hit>, h: Hit)
    ensures h in FlatMap(xs, f) <==> exists x :: x in xs && h in f(x)
    decreases |xs|
  {
    if xs != [] {
      var n := |xs| - 1;
      FlatMapSpec(xs[..n], f, h);
      LastSplit(xs);
    }
  }

  lemma {:induction false} LastSplit<T>(xs: seq<T>)
    requires xs != []
    ensures forall x :: x in xs <==> x in xs[..|xs| - 1] || x == xs[|xs| - 1]
  {
    assert xs == xs[..|xs| - 1] + [xs[|xs| - 1]];
  }

  function ClassHitsOf(packageName: string): ClassElem -> seq<Hit>
  {
    c => ClassHits(c, packageName)
  }

  function ClassesHits(classes: seq<ClassElem>, packageName: string): (r: seq<Hit>)
    ensures Supported(r)
  {
    FlatMapSupported(classes, ClassHitsOf(packageName));
    FlatMap(classes, ClassHitsOf(packageName))
  }

  function PackageHits(pkg: Package): seq<Hit>
  {
    ClassesHits(pkg.classes, pkg.name)
  }

  /** The lines of a report, package by package: every one goes to a
      supported platform, so the dict lookups of process_coverage_line
      never fail. */
  function PackagesHits(packages: seq<Package>): (r: seq<Hit>)
    ensures Supported(r)
  {
    FlatMapSupported(packages, PackageHits);
    FlatMap(packages, PackageHits)
  }

  /** A class contributes exactly its lines, when its file is not skipped,
      with the platform of its file and package. */
  lemma {:induction false} ClassHitsSpec(c: ClassElem, packageName: string, h: Hit)
    ensures h in ClassHits(c, packageName) <==>
              && !Skipped(c.filename)
              && exists l :: l in c.lines && h == Hit(DeterminePlatform(c.filename, packageName), LineId(c.filename, l.number), l.hits > 0)
  {
    if h in ClassHits(c, packageName) {
      var hs := ClassHits(c, packageName);
      var i :| 0 <= i < |hs| && hs[i] == h;
      assert c.lines[i] in c.lines;
    }
    if !Skipped(c.filename) && exists l :: l in c.lines && h == Hit(DeterminePlatform(c.filename, packageName), LineId(c.filename, l.number), l.hits > 0) {
      var l :| l in c.lines && h == Hit(DeterminePlatform(c.filename, packageName), LineId(c.filename, l.number), l.hits > 0);
      var i :| 0 <= i < |c.lines| && c.lines[i] == l;
      assert ClassHits(c, packageName)[i] == h;
    }
  }

  /** Every counted line is a line of a class, of a package of the
      report, whose file is not skipped, with the platform of that file and
      package and with its hit count. */
  lemma {:induction false} ReportHitsFrom(packages: seq<Package>, h: Hit)
    requires h in PackagesHits(packages)
    ensures exists pk, c, l :: && pk in packages && c in pk.classes && l in c.lines && !Skipped(c.filename)
                               && h == Hit(DeterminePlatform(c.filename, pk.name), LineId(c.filename, l.number), l.hits > 0)
  {
    FlatMapSpec(packages, PackageHits, h);
    var pk :| pk in packages && h in PackageHits(pk);
    FlatMapSpec(pk.classes, ClassHitsOf(pk.name), h);
    var c :| c in pk.classes && h in ClassHitsOf(pk.name)(c);
    ClassHitsSpec(c, pk.name, h);
  }

  /** Every line of a non-skipped file of the report is counted. */
  lemma {:induction false} ReportHitsOf(packages: seq<Package>, pk: Package, c: ClassElem, l: Line)
    requires pk in packages && c in pk.classes && l in c.lines && !Skipped(c.filename)
    ensures Hit(DeterminePlatform(c.filename, pk.name), LineId(c.filename, l.number), l.hits > 0) in PackagesHits(packages)
  {
    var h := Hit(DeterminePlatform(c.filename, pk.name), LineId(c.filename, l.number), l.hits > 0);
    ClassHitsSpec(c, pk.name, h);
    assert h in ClassHitsOf(pk.name)(c);
    FlatMapSpec(pk.classes, ClassHitsOf(pk.name), h);
    assert h in PackageHits(pk);
    FlatMapSpec(packages, PackageHits, h);
  }

  lemma {:induction false} LineHitsSnoc(path: string, platform: string, lines: seq<Line>, i: nat)
    requires i < |lines|
    ensures LineHits(path, platform, lines[..i + 1])
      == LineHits(path, platform, lines[..i]) + [Hit(platform, LineId(path, lines[i].number), lines[i].hits > 0)]
  {
    assert lines[..i + 1][..i] == lines[..i];
  }

  /** Recording line `i` after the lines before it. */
  lemma LineStep(d: CoverageData, path: string, key: string, lines: seq<Line>, i: nat)
    requires key in d && i < |lines|
    ensures RecordAll(d, LineHits(path, key, lines[..i + 1]))
      == Record(RecordAll(d, LineHits(path, key, lines[..i])), Hit(key, LineId(path, lines[i].number), lines[i].hits > 0))
  {
    LineHitsSnoc(path, key, lines, i);
    RecordAllSnoc(d, LineHits(path, key, lines[..i]), Hit(key, LineId(path, lines[i].number), lines[i].hits > 0));
  }

  lemma {:induction false} RecordAllSnoc(d: CoverageData, hs: seq<Hit>, h: Hit)
    requires forall i :: 0 <= i < |hs| ==> hs[i].platform in d
    requires h.platform in d
    ensures forall i :: 0 <= i < |hs + [h]| ==> (hs + [h])[i].platform in d
    ensures RecordAll(d, hs + [h]) == Record(RecordAll(d, hs), h)
  {
    assert (hs + [h])[..|hs|] == hs;
  }

  /** process_coverage_line, process_class_coverage and the loop of
      extract_coverage_data: the platform dict they fill in place. */
  class CoverageStore {
    var data: CoverageData

    /** Every supported platform has its entry. */
    predicate Complete()
      reads this
    {
      forall p :: p in SupportedPlatforms ==> p in data
    }

    constructor()
      ensures data == Initial(SupportedPlatforms)
    {
      data := Initial(SupportedPlatforms);
    }

    /** process_coverage_line. */
    method ProcessCoverageLine(line: Line, path: string, platformKey: string)
      requires platformKey in data
      modifies this
      ensures data == Record(old(data), Hit(platformKey, LineId(path, line.number), line.hits > 0))
    {
      var id := LineId(path, line.number);
      var pc := data[platformKey];
      data := data[platformKey := PlatformCoverage(pc.covered, pc.total + {id})];
      if line.hits > 0 {
        data := data[platformKey := PlatformCoverage(data[platformKey].covered + {id}, data[platformKey].total)];
      }
    }

    /** The line loop of process_class_coverage. */
    method ProcessLines(path: string, key: string, lines: seq<Line>)
      requires key in data
      modifies this
      ensures data == RecordAll(old(data), LineHits(path, key, lines))
    {
      ghost var d0 := data;
      var i := 0;
      while i < |lines|
        invariant 0 <= i <= |lines| && key in data && data.Keys == d0.Keys
        invariant data == RecordAll(d0, LineHits(path, key, lines[..i]))
      {
        LineStep(d0, path, key, lines, i);
        ProcessCoverageLine(lines[i], path, key);
        i := i + 1;
      }
      assert lines[..|lines|] == lines;
    }

    /** process_class_coverage: a skipped file changes nothing. */
    method ProcessClassCoverage(c: ClassElem, packageName: string)
      requires Complete()
      modifies this
      ensures Complete()
      ensures data == RecordAll(old(data), ClassHits(c, packageName))
    {
      if Skipped(c.filename) {
        return;
      }
      ProcessLines(c.filename, DeterminePlatform(c.filename, packageName), c.lines);
    }

    /** The class loop over one package. */
    method ProcessPackage(pkg: Package)
      requires Complete()
      modifies this
      ensures Complete()
      ensures data == RecordAll(old(data), ClassesHits(pkg.classes, pkg.name))
    {
      var j := 0;
      while j < |pkg.classes|
        invariant 0 <= j <= |pkg.classes| && Complete() && data.Keys == old(data).Keys
        invariant data == RecordAll(old(data), ClassesHits(pkg.classes[..j], pkg.name))
      {
        assert pkg.classes[..j + 1][..j] == pkg.classes[..j];
        ProcessClassCoverage(pkg.classes[j], pkg.name);
        RecordAllAppend(old(data), ClassesHits(pkg.classes[..j], pkg.name), ClassHits(pkg.classes[j], pkg.name));
        j := j + 1;
      }
      assert pkg.classes[..|pkg.classes|] == pkg.classes;
    }
  }

  /** extract_coverage_data: a report without a `packages` element raises
      AttributeError; otherwise every line of the report is recorded,
      starting from empty sets for each supported platform. */
  method ExtractCoverageData(root: Root) returns (r: Result<CoverageData>)
    ensures root.packages.None? ==> r == Err(AttributeError(NoPackages))
    ensures root.packages.Some? ==> r == Ok(RecordAll(Initial(SupportedPlatforms), PackagesHits(root.packages.value)))
  {
    var store := new CoverageStore();
    if root.packages.None? {
      return Err(AttributeError(NoPackages));
    }
    var packages := root.packages.value;
    var i := 0;
    while i < |packages|
      invariant 0 <= i <= |packages| && store.Complete()
      invariant store.data == RecordAll(Initial(SupportedPlatforms), PackagesHits(packages[..i]))
    {
      assert packages[..i + 1][..i] == packages[..i];
      store.ProcessPackage(packages[i]);
      RecordAllAppend(Initial(SupportedPlatforms), PackagesHits(packages[..i]), ClassesHits(packages[i].classes, packages[i].name));
      i := i + 1;
    }
    assert packages[..|packages|] == packages;
    r := Ok(store.data);
  }

  /** What extract_coverage_data computes keeps, for every platform, its
      covered lines among its lines. */
  lemma {:induction false} ExtractSound(packages: seq<Package>)
    ensures Sound(RecordAll(Initial(SupportedPlatforms), PackagesHits(packages)))
  {
    RecordAllSound(Initial(SupportedPlatforms), PackagesHits(packages));
  }

  /** A platform's lines are exactly the lines of the report's non-skipped
      files that go to that platform. */
  lemma {:induction false} ExtractTotal(packages: seq<Package>, p: string, id: string)
    requires p in SupportedPlatforms
    ensures id in RecordAll(Initial(SupportedPlatforms), PackagesHits(packages))[p].total <==>
              exists pk, c, l :: && pk in packages && c in pk.classes && l in c.lines
                                 && !Skipped(c.filename) && DeterminePlatform(c.filename, pk.name) == p
                                 && id == LineId(c.filename, l.number)
  {
    var hs := PackagesHits(packages);
    RecordAllSpec(Initial(SupportedPlatforms), hs, p, id);
    if Hit(p, id, true) in hs {
      ReportHitsFrom(packages, Hit(p, id, true));
    } else if Hit(p, id, false) in hs {
      ReportHitsFrom(packages, Hit(p, id, false));
    }
    if exists pk, c, l :: && pk in packages && c in pk.classes && l in c.lines
                          && !Skipped(c.filename) && DeterminePlatform(c.filename, pk.name) == p
                          && id == LineId(c.filename, l.number) {
      var pk, c, l :| && pk in packages && c in pk.classes && l in c.lines
                      && !Skipped(c.filename) && DeterminePlatform(c.filename, pk.name) == p
                      && id == LineId(c.filename, l.number);
      ReportHitsOf(packages, pk, c, l);
    }
  }

  /** A platform's covered lines are exactly those of them with a hit. */
  lemma {:induction false} ExtractCovered(packages: seq<Package>, p: string, id: string)
    requires p in SupportedPlatforms
    ensures id in RecordAll(Initial(SupportedPlatforms), PackagesHits(packages))[p].covered <==>
              exists pk, c, l :: && pk in packages && c in pk.classes && l in c.lines
                                 && !Skipped(c.filename) && DeterminePlatform(c.filename, pk.name) == p
                                 && id == LineId(c.filename, l.number) && l.hits > 0
  {
    var hs := PackagesHits(packages);
    RecordAllSpec(Initial(SupportedPlatforms), hs, p, id);
    if Hit(p, id, true) in hs {
      ReportHitsFrom(packages, Hit(p, id, true));
    }
    if exists pk, c, l :: && pk in packages && c in pk.classes && l in c.lines
                          && !Skipped(c.filename) && DeterminePlatform(c.filename, pk.name) == p
                          && id == LineId(c.filename, l.number) && l.hits > 0 {
      var pk, c, l :| && pk in packages && c in pk.classes && l in c.lines
                      && !Skipped(c.filename) && DeterminePlatform(c.filename, pk.name) == p
                      && id == LineId(c.filename, l.number) && l.hits > 0;
      ReportHitsOf(packages, pk, c, l);
    }
  }

  // calculate_coverage_metrics

  /** The counts of one platform and its percentage, as an exact ratio;
      Python's float rounding is not modelled. */
  datatype Metrics = Metrics(percentage: real, total: nat, covered: nat)

  function MetricsOf(pc: PlatformCoverage): Metrics
  {
    var t := |pc.total|;
    var c := |pc.covered|;
    Metrics(if t > 0 then (c as real) / (t as real) * 100.0 else 0.0, t, c)
  }

  /** calculate_coverage_metrics: the metrics of every platform. */
  function CoverageMetrics(d: CoverageData): (m: map<string, Metrics>)
    ensures m.Keys == d.Keys
  {
    map p | p in d :: MetricsOf(d[p])
  }

  lemma {:induction false} SubsetCard<T>(a: set<T>, b: set<T>)
    requires a <= b
    ensures |a| <= |b|
    decreases |b|
  {
    if a != {} {
      var x :| x in a;
      SubsetCard(a - {x}, b - {x});
    }
  }

  /** With covered ⊆ total, the covered count never exceeds the total, the
      percentage lies in [0, 100], it is 0 exactly when nothing is covered
      (in particular when there are no lines) and 100 exactly when every
      line of a platform with lines is covered. */
  lemma {:induction false} MetricsSpec(pc: PlatformCoverage)
    requires pc.covered <= pc.total
    ensures MetricsOf(pc).covered <= MetricsOf(pc).total
    ensures MetricsOf(pc).total == 0 ==> MetricsOf(pc).percentage == 0.0
    ensures 0.0 <= MetricsOf(pc).percentage <= 100.0
    ensures MetricsOf(pc).percentage == 0.0 <==> MetricsOf(pc).covered == 0
    ensures MetricsOf(pc).percentage == 100.0 <==> MetricsOf(pc).total > 0 && pc.covered == pc.total
  {
    SubsetCard(pc.covered, pc.total);
    var t := |pc.total|;
    var c := |pc.covered|;
    if t > 0 {
      var q := (c as real) / (t as real);
      assert q * (t as real) == c as real;
      assert q <= 1.0;
      assert q == 1.0 <==> c == t by {
        if q == 1.0 {
          assert c as real == t as real;
        }
      }
      if c == t {
        assert pc.covered == pc.total by {
          if pc.covered != pc.total {
            var x :| x in pc.total && x !in pc.covered;
            SubsetCard(pc.covered, pc.total - {x});
          }
        }
      }
    }
  }

  // merge_xml_packages and merge_coverage_files

  /** merge_xml_packages: the new packages are appended when both reports
      have a `packages` element; otherwise the merged report is unchanged. */
  function MergePackages(merged: Root, next: Root): Root
  {
    if merged.packages.Some? && next.packages.Some? then
      merged.(packages := Some(merged.packages.value + next.packages.value))
    else merged
  }

  /** The merged report of a non-empty list of reports. */
  function Merged(roots: seq<Root>): Root
    requires roots != []
    decreases |roots|
  {
    if |roots| == 1 then roots[0]
    else MergePackages(Merged(roots[..|roots| - 1]), roots[|roots| - 1])
  }

  /** All packages of the reports, in order. */
  function AllPackages(roots: seq<Root>): seq<Package>
    requires forall i :: 0 <= i < |roots| ==> roots[i].packages.Some?
    decreases |roots|
  {
    if roots == [] then []
    else AllPackages(roots[..|roots| - 1]) + roots[|roots| - 1].packages.value
  }

  /** The merged report is the first report, with the packages of every
      later report appended in order when every report has packages; a
      first report without packages stays without. */
  lemma {:induction false} MergedSpec(roots: seq<Root>)
    requires roots != []
    ensures Merged(roots).header == roots[0].header
    ensures roots[0].packages.None? ==> Merged(roots).packages.None?
    ensures (forall i :: 0 <= i < |roots| ==> roots[i].packages.Some?) ==>
              Merged(roots).packages == Some(AllPackages(roots))
    decreases |roots|
  {
    if |roots| > 1 {
      var init := roots[..|roots| - 1];
      MergedSpec(init);
      assert init[0] == roots[0];
    } else {
      assert roots[..0] == [];
      if forall i :: 0 <= i < |roots| ==> roots[i].packages.Some? {
        assert AllPackages(roots) == AllPackages(roots[..0]) + roots[0].packages.value;
        assert AllPackages(roots[..0]) == [];
        assert AllPackages(roots) == roots[0].packages.value;
      }
    }
  }

  /** merge_coverage_files: the first report becomes the merged one and
      each later one is merged into it; with no report at all,
      serialising `None` raises AttributeError. Serialising the merged
      tree and parsing it back is taken as the identity. */
  method MergeCoverageFiles(roots: seq<Root>) returns (r: Result<Root>)
    ensures roots == [] ==> r == Err(AttributeError(NoRoot))
    ensures roots != [] ==> r == Ok(Merged(roots))
  {
    var merged: Option<Root> := None;
    var i := 0;
    while i < |roots|
      invariant 0 <= i <= |roots|
      invariant i == 0 <==> merged.None?
      invariant i > 0 ==> merged == Some(Merged(roots[..i]))
    {
      assert roots[..i + 1][..i] == roots[..i];
      if merged.None? {
        merged := Some(roots[i]);
      } else {
        merged := Some(MergePackages(merged.value, roots[i]));
      }
      i := i + 1;
    }
    if merged.None? {
      return Err(AttributeError(NoRoot));
    }
    assert roots[..|roots|] == roots;
    r := Ok(merged.value);
  }

  // process_coverage

  /** process_coverage over the names in the folder, with `parse` standing
      for reading one report: nothing happens (None) when no report is
      left after the filters; otherwise the reports are merged, their lines
      extracted and counted, and any error is re-raised as a click
      exception carrying its message. */
  method ProcessCoverage(names: seq<string>, parse: string -> Root) returns (r: Result<Option<map<string, Metrics>>>)
    ensures CoverageInputs(names) == [] ==> r == Ok(None)
    ensures CoverageInputs(names) != [] ==>
              var merged := Merged(Map(CoverageInputs(names), parse));
              && (merged.packages.None? ==> r == Err(Raised("Error during processing: " + NoPackages)))
              && (merged.packages.Some? ==>
                    && r.Ok? && r.value.Some?
                    && r.value.value == CoverageMetrics(RecordAll(Initial(SupportedPlatforms), PackagesHits(merged.packages.value))))
  {
    var inputs := CoverageInputs(names);
    if inputs == [] {
      return Ok(None);
    }
    var merged := MergeCoverageFiles(Map(inputs, parse));
    var data := ExtractCoverageData(merged.value);
    if data.Err? {
      return Err(Raised("Error during processing: " + Message(data.exc)));
    }
    r := Ok(Some(CoverageMetrics(data.value)));
  }
}
