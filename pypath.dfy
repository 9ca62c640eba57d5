/** The parts of `pathlib` the harness relies on, over already-normalised
    `/`-separated path strings. */
module PyPath {
  import opened Py
  import opened PyStr

  /** `Path(p).name`: the text after the last `/`. */
  function Name(p: string): (n: string)
    ensures '/' !in n
  {
    var i := RFind(p, '/');
    RFindSpec(p, '/');
    p[i + 1..]
  }

  /** The name is the end of the path. */
  lemma {:induction false} NameSuffix(p: string)
    ensures EndsWith(p, Name(p))
  {
  }

  /** `Path(p).parent` as a string: the text before the last `/`, or "." */
  function Parent(p: string): string
  {
    var i := RFind(p, '/');
    if i < 0 then "." else p[..i]
  }

  /** Index of the dot that starts the suffix of a name, if it has one: the
      last dot, unless it is the first or the last character. */
  function SuffixDot(n: string): (r: Option<nat>)
    ensures r.Some? ==> 0 < r.value < |n| - 1 && n[r.value] == '.'
  {
    var i := RFind(n, '.');
    RFindSpec(n, '.');
    if 0 < i < |n| - 1 then Some(i) else None
  }

  /** `Path(p).stem`. */
  function Stem(p: string): string
  {
    var n := Name(p);
    match SuffixDot(n)
    case Some(i) => n[..i]
    case None => n
  }

  /** `Path(p).suffix`. */
  function Suffix(p: string): string
  {
    var n := Name(p);
    match SuffixDot(n)
    case Some(i) => n[i..]
    case None => ""
  }

  /** The stem and the suffix make up the name again; so the stem starts
      the name. */
  lemma {:induction false} StemSuffix(p: string)
    ensures Stem(p) + Suffix(p) == Name(p)
    ensures StartsWith(Name(p), Stem(p))
  {
  }

  lemma {:induction false} StemNoSlash(p: string)
    ensures '/' !in Stem(p)
  {
    StemSuffix(p);
    var n := Name(p);
    assert forall i :: 0 <= i < |Stem(p)| ==> Stem(p)[i] == n[i];
  }

  /** `dir / name`. */
  function Join(dir: string, name: string): string
  {
    dir + "/" + name
  }

  /** A name without `/` is the name of the joined path. */
  lemma {:induction false} NameOfJoin(dir: string, name: string)
    requires '/' !in name
    ensures Name(Join(dir, name)) == name
  {
    var p := dir + "/" + name;
    RFindSpec(p, '/');
    assert p[|dir|] == '/';
    assert forall j :: |dir| < j < |p| ==> p[j] == name[j - |dir| - 1];
  }

  lemma {:induction false} NameOfJoinIf(dir: string, name: string)
    ensures '/' !in name ==> Name(Join(dir, name)) == name
  {
    if '/' !in name {
      NameOfJoin(dir, name);
    }
  }

  lemma {:induction false} ParentOfJoin(dir: string, name: string)
    requires '/' !in name
    ensures Parent(Join(dir, name)) == dir
  {
    var p := dir + "/" + name;
    RFindSpec(p, '/');
    assert p[|dir|] == '/';
    assert forall j :: |dir| < j < |p| ==> p[j] == name[j - |dir| - 1];
    assert p[..|dir|] == dir;
  }

  /** `Path(p).with_name(n)`: the name of `p` replaced by `n`. */
  function WithName(p: string, n: string): (r: string)
    ensures '/' !in n ==> Name(r) == n
  {
    var i := RFind(p, '/');
    if i < 0 then RFindSpec(n, '/'); n else NameOfJoinIf(p[..i], n); Join(p[..i], n)
  }
}
