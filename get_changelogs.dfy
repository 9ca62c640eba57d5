/** information_distillation/get_changelogs.py: which Qiskit versions a
    commit's release notes belong to, and where each changed file of such a
    commit is stored.

    A commit is given by the paths of its modifications; the diff, the
    source text and the commit date that the scraper copies into its output
    are not modelled. */
module GetChangelogs {
  import opened Py
  import opened PyStr
  import PyPath
  import PySeq

  const NotesDir := "releasenotes/notes/"

  /** A modified file of a commit: its path after and before the commit
      (None for an added or a deleted file). */
  datatype Modification = Modification(newPath: Option<string>, oldPath: Option<string>)

  predicate VersionChar(c: char) { IsDigit(c) || c == '.' }

  /** `file_path.split(NotesDir)[1].split('/')[0]`: the first path segment
      after the notes directory. */
  function Segment(path: string): string
    requires Contains(path, NotesDir)
  {
    Before(Before(After(path, NotesDir), NotesDir), "/")
  }

  /** get_version_from_file: the segment after the notes directory when
      every one of its characters is a digit or a dot (so also when it is
      empty), None otherwise or when the path is not under that directory. */
  function GetVersionFromFile(path: string): (r: Option<string>)
    ensures r.Some? ==> Contains(path, NotesDir) && forall i :: 0 <= i < |r.value| ==> VersionChar(r.value[i])
  {
    if !Contains(path, NotesDir) then None
    else
      var version := Segment(path);
      if forall i :: 0 <= i < |version| ==> VersionChar(version[i]) then Some(version) else None
  }

  /** In a text that starts with `v + "/"`, where `v` holds only digits and
      dots, the notes directory cannot start before that slash. */
  lemma {:induction false} DirAfterVersion(v: string, rest: string)
    requires forall i :: 0 <= i < |v| ==> VersionChar(v[i])
    ensures StartsWith(Before(v + "/" + rest, NotesDir), v + "/")
  {
    var s := v + "/" + rest;
    forall i | 0 <= i < |v| + 1 ensures s[i] != NotesDir[0] {
      if i < |v| {
        assert s[i] == v[i];
      }
    }
    BeforeKeepsPrefix(s, NotesDir, |v| + 1);
    assert s[..|v| + 1] == v + "/";
  }

  /** A separator whose first character does not occur in the first `n`
      characters leaves them before it. */
  lemma {:induction false} BeforeKeepsPrefix(s: string, sep: string, n: nat)
    requires sep != [] && n <= |s|
    requires forall i :: 0 <= i < n ==> s[i] != sep[0]
    ensures StartsWith(Before(s, sep), s[..n])
  {
    var k := Find(s, sep);
    if k >= 0 {
      assert s[k..][..|sep|] == sep;
      assert s[k] == sep[0];
      assert Before(s, sep) == s[..k];
      assert s[..k][..n] == s[..n];
    }
  }

  /** A path `pre + notes dir + v + "/" + rest`, whose first notes
      directory is the one after `pre`, belongs to version `v` when `v` is
      made of digits and dots: "…/releasenotes/notes/0.18/x.yaml" gives
      "0.18", and "…/releasenotes/notes//x.yaml" gives "". */
  lemma {:induction false} VersionOfPath(pre: string, v: string, rest: string)
    requires Find(pre + NotesDir + v + "/" + rest, NotesDir) == |pre|
    requires forall i :: 0 <= i < |v| ==> VersionChar(v[i])
    ensures GetVersionFromFile(pre + NotesDir + v + "/" + rest) == Some(v)
  {
    var path := pre + NotesDir + v + "/" + rest;
    var tail := v + "/" + rest;
    assert path[|pre| + |NotesDir|..] == tail;
    AfterAt(path, NotesDir, |pre|);
    DirAfterVersion(v, rest);
    VersionBeforeSlash(v, Before(tail, NotesDir));
  }

  /** After a separator first found at `k` comes what follows it there. */
  lemma {:induction false} AfterAt(s: string, sep: string, k: nat)
    requires sep != [] && Find(s, sep) == k
    ensures After(s, sep) == s[k + |sep|..]
  {
  }

  /** A piece that starts with a version and a slash: the version is what
      comes before its first slash. */
  lemma {:induction false} VersionBeforeSlash(v: string, piece: string)
    requires forall i :: 0 <= i < |v| ==> VersionChar(v[i])
    requires StartsWith(piece, v + "/")
    ensures Before(piece, "/") == v
  {
    assert piece == v + "/" + piece[|v| + 1..];
    assert '/' !in v by {
      assert forall i :: 0 <= i < |v| ==> v[i] != '/';
    }
    BeforeCons(v, '/', piece[|v| + 1..]);
  }

  /** A path whose segment after the notes directory holds a character
      other than a digit or a dot ("0.18a", "invalid_version", or the name
      of a note filed directly under the directory) has no version. */
  lemma {:induction false} NoVersionOfPath(path: string, i: nat)
    requires Contains(path, NotesDir) && i < |Segment(path)| && !VersionChar(Segment(path)[i])
    ensures GetVersionFromFile(path) == None
  {
  }

  /** A note filed directly under the notes directory: the segment is the
      note's file name. */
  lemma {:induction false} NoteUnderNotesDir(pre: string, name: string)
    requires Find(pre + NotesDir + name, NotesDir) == |pre|
    requires '/' !in name
    ensures Segment(pre + NotesDir + name) == name
  {
    var path := pre + NotesDir + name;
    assert path[|pre| + |NotesDir|..] == name;
    assert After(path, NotesDir) == name;
    NoSlashNoDir(name);
    assert Before(name, NotesDir) == name;
    ContainsChar(name, '/');
  }

  /** A text without a slash holds no notes directory. */
  lemma {:induction false} NoSlashNoDir(name: string)
    requires '/' !in name
    ensures !Contains(name, NotesDir)
  {
    if Contains(name, NotesDir) {
      DirHasSlash(name);
    }
  }

  lemma {:induction false} DirHasSlash(s: string)
    requires Contains(s, NotesDir)
    ensures '/' in s
  {
    var k := Find(s, NotesDir);
    assert s[k..][..|NotesDir|] == NotesDir;
    assert s[k + 12] == '/';
  }

  /** The versions one path of a modification contributes: its version,
      if it has a non-empty one. */
  function PathVersions(p: Option<string>): set<string>
  {
    if Truthy(p) && Contains(p.value, NotesDir) then
      match GetVersionFromFile(p.value)
      case Some(v) => if v != "" then {v} else {}
      case None => {}
    else {}
  }

  /** The guards around get_version_from_file change nothing: a path gives
      exactly its non-empty version. */
  lemma {:induction false} PathVersionsSpec(p: Option<string>)
    ensures forall v :: v in PathVersions(p) <==> p.Some? && GetVersionFromFile(p.value) == Some(v) && v != ""
  {
  }

  function ModVersions(m: Modification): set<string>
  {
    PathVersions(m.newPath) + PathVersions(m.oldPath)
  }

  /** The versions of a commit, gathered over its modifications in order. */
  function CommitVersions(mods: seq<Modification>): set<string>
  {
    PySeq.UnionMap(mods, ModVersions)
  }

  /** One path of a modification: its non-empty version, if it has one,
      joins the set. */
  method AddPathVersion(versions: set<string>, p: Option<string>) returns (vs: set<string>)
    ensures vs == versions + PathVersions(p)
    ensures "" !in versions ==> "" !in vs
  {
    vs := versions;
    if Truthy(p) && Contains(p.value, NotesDir) {
      var version := GetVersionFromFile(p.value);
      if Truthy(version) {
        vs := vs + {version.value};
      }
    }
  }

  /** get_versions_from_commit, as the set it builds (the list made of it
      has no order the program relies on). */
  method GetVersionsFromCommit(mods: seq<Modification>) returns (versions: set<string>)
    ensures forall v :: v in versions <==> exists i :: 0 <= i < |mods| && v in ModVersions(mods[i])
    ensures "" !in versions
  {
    versions := {};
    var i := 0;
    while i < |mods|
      invariant 0 <= i <= |mods|
      invariant versions == CommitVersions(mods[..i])
      invariant "" !in versions
    {
      var m := mods[i];
      versions := AddPathVersion(versions, m.newPath);
      versions := AddPathVersion(versions, m.oldPath);
      PySeq.UnionMapStep(mods, ModVersions, i);
      i := i + 1;
    }
    assert mods[..|mods|] == mods;
    PySeq.UnionMapSpec(mods, ModVersions);
  }

  /** `s.replace('/', '_')`. */
  function Flatten(s: string): string
  {
    ReplaceAll(s, "/", "_")
  }

  /** Flattening keeps every character but the slashes, which become
      underscores. */
  lemma {:induction false} FlattenAt(s: string)
    ensures |Flatten(s)| == |s|
    ensures forall i :: 0 <= i < |s| ==> Flatten(s)[i] == if s[i] == '/' then '_' else s[i]
    decreases |s|
  {
    if s != [] {
      FlattenAt(s[1..]);
      assert StartsWith(s, "/") <==> s[0] == '/';
      assert forall i :: 1 <= i < |s| ==> s[1..][i - 1] == s[i];
    }
  }

  lemma {:induction false} FlattenNoSlash(s: string)
    ensures '/' !in Flatten(s)
  {
    FlattenAt(s);
  }

  /** What the scraper writes for one modified file: the directory of the
      hunk, the `filepath` and the `qiskit_versions` of its metadata. */
  datatype Hunk = Hunk(dir: string, filepath: Option<string>, versions: set<string>)

  /** The hunk directory: the new path flattened, or "DELETED_" and the old
      path flattened; a modification with neither path raises, as
      `None.replace` does. */
  function HunkDir(commitDir: string, m: Modification): (r: Result<string>)
    ensures r.Err? <==> !Truthy(m.newPath) && m.oldPath.None?
  {
    if Truthy(m.newPath) then Ok(PyPath.Join(commitDir, Flatten(m.newPath.value)))
    else if m.oldPath.Some? then Ok(PyPath.Join(commitDir, "DELETED_" + Flatten(m.oldPath.value)))
    else Err(AttributeError("'NoneType' object has no attribute 'replace'"))
  }

  /** Every hunk directory is a child of the commit's directory, named
      after the flattened path. */
  lemma {:induction false} HunkDirSpec(commitDir: string, m: Modification)
    requires HunkDir(commitDir, m).Ok?
    ensures PyPath.Parent(HunkDir(commitDir, m).value) == commitDir
    ensures Truthy(m.newPath) ==> PyPath.Name(HunkDir(commitDir, m).value) == Flatten(m.newPath.value)
    ensures !Truthy(m.newPath) ==> PyPath.Name(HunkDir(commitDir, m).value) == "DELETED_" + Flatten(m.oldPath.value)
  {
    if Truthy(m.newPath) {
      FlattenNoSlash(m.newPath.value);
      PyPath.NameOfJoin(commitDir, Flatten(m.newPath.value));
      PyPath.ParentOfJoin(commitDir, Flatten(m.newPath.value));
    } else {
      var n := "DELETED_" + Flatten(m.oldPath.value);
      FlattenNoSlash(m.oldPath.value);
      assert '/' !in n;
      PyPath.NameOfJoin(commitDir, n);
      PyPath.ParentOfJoin(commitDir, n);
    }
  }

  /** The hunks of the modifications `mods`, all tagged with the commit's
      versions; each modification is skipped when there are none. */
  function Hunks(commitDir: string, versions: set<string>, mods: seq<Modification>): Result<seq<Hunk>>
  {
    if mods == [] then Ok([])
    else if versions == {} then Hunks(commitDir, versions, mods[1..])
    else
      var dir :- HunkDir(commitDir, mods[0]);
      var filepath := if Truthy(mods[0].newPath) then mods[0].newPath else mods[0].oldPath;
      var rest :- Hunks(commitDir, versions, mods[1..]);
      Ok([Hunk(dir, filepath, versions)] + rest)
  }

  /** scrape_file_changes for one commit: its hunks go under the
      directory named after the commit hash. */
  function ScrapeCommit(outputDir: string, hash: string, mods: seq<Modification>): Result<seq<Hunk>>
  {
    Hunks(PyPath.Join(outputDir, hash), CommitVersions(mods), mods)
  }

  /** A commit that touches no release note of a version writes nothing. */
  lemma {:induction false} NoVersionsNoHunks(commitDir: string, mods: seq<Modification>)
    ensures Hunks(commitDir, {}, mods) == Ok([])
  {
    if mods != [] {
      NoVersionsNoHunks(commitDir, mods[1..]);
    }
  }

  /** Otherwise every modified file gets one hunk, in order, under the
      commit's directory, tagged with all the commit's versions and with
      its new path (or its old one, for a deleted file); the scrape fails
      exactly when a modification has neither path. */
  lemma {:induction false} HunksSpec(commitDir: string, versions: set<string>, mods: seq<Modification>)
    requires versions != {}
    ensures Hunks(commitDir, versions, mods).Err? <==>
      exists i :: 0 <= i < |mods| && HunkDir(commitDir, mods[i]).Err?
    ensures Hunks(commitDir, versions, mods).Ok? ==>
      var hs := Hunks(commitDir, versions, mods).value;
      && |hs| == |mods|
      && forall i :: 0 <= i < |mods| ==>
        && HunkDir(commitDir, mods[i]) == Ok(hs[i].dir)
        && hs[i].versions == versions
        && hs[i].filepath == (if Truthy(mods[i].newPath) then mods[i].newPath else mods[i].oldPath)
  {
    if mods != [] {
      HunksSpec(commitDir, versions, mods[1..]);
      assert forall i :: 1 <= i < |mods| ==> mods[1..][i - 1] == mods[i];
    }
  }
}
