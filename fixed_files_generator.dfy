/** The generation strategy that hands out the seed programs of a folder,
    each at most once per strategy. */
module FixedFilesGenerator {
  import opened Py

  const NoSeedFiles := "No QASM or PKL files found in the specified seed folder."
  const NoMoreFiles := "No more unused QASM files available."

  /** What loading a seed file and dumping it as QASM gives: the QASM
      text, a failure of the dump (the strategy tries another file), or
      the exception loading raised (it propagates). */
  datatype Export = Exported(qasm: string) | DumpFailed | LoadFailed(exc: Exception)

  /** What the template is rendered with: the QASM text and the file it
      came from (whose name becomes `QASM_FILENAME`). */
  datatype Seed = Seed(path: string, qasm: string)

  /** `[f for f in files if f not in used]`. */
  function Available(files: seq<string>, used: set<string>): (r: seq<string>)
    ensures forall f :: f in r <==> f in files && f !in used
    ensures |r| <= |files|
  {
    if files == [] then []
    else
      var rest := Available(files[1..], used);
      assert forall f :: f in files <==> f == files[0] || f in files[1..];
      if files[0] in used then rest else [files[0]] + rest
  }

  /** `TestSuiteOnlyGenerationStrategy`: the `.qasm` and `.pkl` files of
      the seed folder (the folder does not change between calls) and the
      set of files already handed out. */
  class TestSuiteOnlyStrategy {
    const qasmFiles: seq<string>
    const pklFiles: seq<string>
    var used: set<string>

    function Files(): seq<string>
    {
      qasmFiles + pklFiles
    }

    /** Only seed files are ever marked used. */
    predicate Valid()
      reads this
    {
      forall f :: f in used ==> f in Files()
    }

    constructor(qasmFiles: seq<string>, pklFiles: seq<string>)
      ensures this.qasmFiles == qasmFiles && this.pklFiles == pklFiles && used == {}
      ensures Valid()
    {
      this.qasmFiles := qasmFiles;
      this.pklFiles := pklFiles;
      used := {};
    }

    /** `generate()`: an empty folder raises FileNotFoundError; otherwise
        an unused file is picked at random and marked used, whether or not
        it can be exported. A file whose dump fails is passed over for
        another unused one; when none is left, FileNotFoundError. */
    method Generate(convert: string -> Export) returns (r: Result<Seed>)
      requires Valid()
      modifies this
      ensures Valid() && old(used) <= used
      ensures Files() == [] ==> r == Err(FileNotFoundError(NoSeedFiles)) && used == old(used)
      ensures r.Ok? ==> && r.value.path in used && r.value.path !in old(used)
                        && convert(r.value.path) == Exported(r.value.qasm)
                        && forall g :: g in used && g !in old(used) && g != r.value.path ==> convert(g) == DumpFailed
      ensures r.Err? && Files() != [] ==>
                || (&& r.exc == FileNotFoundError(NoMoreFiles)
                    && (forall f :: f in Files() ==> f in used)
                    && forall g :: g in used && g !in old(used) ==> convert(g) == DumpFailed)
                || exists g :: && g in used && g !in old(used) && convert(g) == LoadFailed(r.exc)
                               && forall h :: h in used && h !in old(used) && h != g ==> convert(h) == DumpFailed
      ensures (forall f :: f in Files() && f !in old(used) ==> convert(f) == DumpFailed) && Files() != [] ==>
                r == Err(FileNotFoundError(NoMoreFiles))
      ensures (forall f :: f in Files() ==> convert(f).Exported?) ==>
                used == if r.Ok? then old(used) + {r.value.path} else old(used)
      ensures ((exists f :: f in Files() && f !in old(used) && convert(f).Exported?)
               && forall f :: f in Files() ==> !convert(f).LoadFailed?) ==> r.Ok?
    {
      var files := qasmFiles + pklFiles;
      if files == [] {
        return Err(FileNotFoundError(NoSeedFiles));
      }
      while true
        invariant Valid() && old(used) <= used
        invariant forall g :: g in used && g !in old(used) ==> convert(g) == DumpFailed
        decreases (set f | f in files) - used
      {
        var available := Available(files, used);
        if available == [] {
          return Err(FileNotFoundError(NoMoreFiles));
        }
        assert available[0] in available;
        var f :| f in available;
        used := used + {f};
        match convert(f)
        case Exported(qasm) =>
          return Ok(Seed(f, qasm));
        case LoadFailed(e) =>
          assert f in used && f !in old(used);
          return Err(e);
        case DumpFailed =>
      }
    }
  }

  const NoLoadCircuit := "'TestSuiteOnlyGenerationStrategy' object has no attribute 'load_circuit'"

  /** Loading as the strategy is written: `self.load_circuit` is defined
      neither by the strategy nor by `GenerationStrategy`, so the call
      raises AttributeError, outside the `try` that catches dump failures. */
  function LoadAsWritten(f: string): Export
  {
    LoadFailed(AttributeError(NoLoadCircuit))
  }

  /** As written, every call to `generate()` on a folder with an unused
      seed file marks exactly one more file used and raises AttributeError;
      no call ever returns a program. */
  method GenerateAsWritten(s: TestSuiteOnlyStrategy) returns (r: Result<Seed>)
    requires s.Valid()
    requires exists f :: f in s.Files() && f !in s.used
    modifies s
    ensures r == Err(AttributeError(NoLoadCircuit))
    ensures exists f :: f in s.Files() && f !in old(s.used) && s.used == old(s.used) + {f}
  {
    r := s.Generate(LoadAsWritten);
    ghost var g :| g in s.used && g !in old(s.used) && LoadAsWritten(g) == LoadFailed(r.exc);
    assert s.used == old(s.used) + {g};
  }

  /** As written, the first call on a fresh strategy over a non-empty
      folder already raises AttributeError, so the three successful calls
      the strategy's test expects never happen. */
  method FirstCallAsWritten(qasmFiles: seq<string>, pklFiles: seq<string>) returns (r: Result<Seed>)
    requires qasmFiles + pklFiles != []
    ensures r == Err(AttributeError(NoLoadCircuit))
  {
    var s := new TestSuiteOnlyStrategy(qasmFiles, pklFiles);
    assert (qasmFiles + pklFiles)[0] in s.Files();
    r := GenerateAsWritten(s);
  }

  /** Calling `generate()` until it raises, on a folder whose files all
      export: every call but the last hands out a file, no file twice and
      every file once, and the last raises FileNotFoundError. With three
      files, three calls succeed and the fourth raises. */
  method DrainFolder(qasmFiles: seq<string>, convert: string -> Export) returns (rs: seq<Result<Seed>>)
    requires qasmFiles != []
    requires forall f :: f in qasmFiles ==> convert(f).Exported?
    ensures |rs| >= 1 && rs[|rs| - 1] == Err(FileNotFoundError(NoMoreFiles))
    ensures forall i :: 0 <= i < |rs| - 1 ==> rs[i].Ok? && rs[i].value.path in qasmFiles
    ensures forall i, j :: 0 <= i < j < |rs| - 1 ==> rs[i].value.path != rs[j].value.path
    ensures forall f :: f in qasmFiles ==> exists i :: 0 <= i < |rs| - 1 && rs[i].value.path == f
  {
    var s := new TestSuiteOnlyStrategy(qasmFiles, []);
    assert s.Files() == qasmFiles;
    var done: seq<Result<Seed>> := [];
    while true
      invariant s.Valid() && s.Files() == qasmFiles
      invariant forall i :: 0 <= i < |done| ==> done[i].Ok? && done[i].value.path in qasmFiles
      invariant forall i, j :: 0 <= i < j < |done| ==> done[i].value.path != done[j].value.path
      invariant forall f :: f in s.used <==> exists i :: 0 <= i < |done| && done[i].value.path == f
      decreases (set f | f in qasmFiles) - s.used
    {
      ghost var before := s.used;
      var r := s.Generate(convert);
      if r.Err? {
        assert forall f :: f in qasmFiles ==> f in s.used;
        rs := done + [r];
        assert forall i :: 0 <= i < |done| ==> rs[i] == done[i];
        return;
      }
      assert s.used == before + {r.value.path};
      ghost var prev := done;
      done := done + [r];
      forall f | f in s.used
        ensures exists i :: 0 <= i < |done| && done[i].value.path == f
      {
        if f == r.value.path {
          assert done[|done| - 1].value.path == f;
        } else {
          assert f in before;
          var i :| 0 <= i < |prev| && prev[i].value.path == f;
          assert done[i] == prev[i];
        }
      }
    }
  }
}
