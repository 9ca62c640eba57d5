/** analysis_and_reporting/triage.py: the names the triage step derives
    from the files of a failure (the program beside an error record, the
    minimised program, the circuit variable a QASM file was exported from),
    and the pairing of QASM files exported from the same variable. Report
    folders, copies, the Docker run and the notebook are left out. */
module Triage {
  import opened Py
  import opened PyStr
  import PySeq
  import PyPath
  import OracleCalls
  import DdminTargetFile

  /** The program an error record belongs to, when none is given: the
      record's path without its last 18 characters (`_`, six hex digits and
      `_error.json`), with `.py` appended. */
  function InferredProgramPath(errorJsonPath: string): string
  {
    PySeq.Slice(errorJsonPath, 0, -18) + ".py"
  }

  /** An error record logged beside a program names that program back:
      the inference undoes the naming of log_exception_to_json. */
  lemma {:induction false} InferredProgramOfLog(dir: string, currentFile: string, uuid: string)
    requires |uuid| >= 6
    ensures InferredProgramPath(PyPath.Join(dir, OracleCalls.LogFileName(currentFile, uuid)))
         == PyPath.Join(dir, PyPath.Stem(currentFile) + ".py")
  {
    var stem := PyPath.Stem(currentFile);
    var p := PyPath.Join(dir, OracleCalls.LogFileName(currentFile, uuid));
    assert p == (dir + "/" + stem) + ("_" + uuid[..6] + "_error.json");
    assert |"_" + uuid[..6] + "_error.json"| == 18;
    assert p[..|p| - 18] == dir + "/" + stem;
  }

  /** Where the minimised program is found: the record's path without
      `.json`, with `_min.py` appended. */
  function MinimizedProgramPath(errorJsonInReport: string): string
  {
    PySeq.Slice(errorJsonInReport, 0, -5) + "_min.py"
  }

  /** That is where minimize_instructions writes it, next to the record. */
  lemma {:induction false} MinimizedProgramIsWritten(dir: string, errorStem: string)
    ensures MinimizedProgramPath(PyPath.Join(dir, errorStem + ".json"))
         == PyPath.Join(dir, DdminTargetFile.MinimizedFileName(errorStem))
  {
    var p := PyPath.Join(dir, errorStem + ".json");
    assert p == (dir + "/" + errorStem) + ".json";
    assert p[..|p| - 5] == dir + "/" + errorStem;
  }

  const Marker := "error_min_"

  /** extract_circuit_variable_name: the text after the first `error_min_`
      up to its last `_` (the platform follows it), or "" when no `_`
      follows; a path without `error_min_` fails the assertion. */
  function ExtractCircuitVariableName(path: string): (r: Result<string>)
    ensures r.Err? <==> !Contains(path, Marker)
    ensures r.Err? ==> r.exc == AssertionError
  {
    if !Contains(path, Marker) then Err(AssertionError)
    else
      var rest := path[Find(path, Marker) + |Marker|..];
      var end := RFind(rest, '_');
      if end == -1 then Ok("") else Ok(rest[..end])
  }

  /** A file exported from variable `v` for platform `p` gives back `v`,
      whatever `v` holds; with nothing but the platform after the marker the
      variable is "". */
  lemma {:induction false} ExtractNameOf(pre: string, v: string, platform: string)
    requires Find(pre + Marker + v + "_" + platform, Marker) == |pre|
    requires '_' !in platform
    ensures ExtractCircuitVariableName(pre + Marker + v + "_" + platform) == Ok(v)
  {
    var path := pre + Marker + v + "_" + platform;
    var rest := v + "_" + platform;
    RestAfterMarker(pre, v, platform);
    ExtractFromRest(path, rest);
    LastUnderscore(v, platform);
  }

  /** What follows the marker is the variable, `_` and the platform. */
  lemma RestAfterMarker(pre: string, v: string, platform: string)
    ensures (pre + Marker + v + "_" + platform)[|pre| + |Marker|..] == v + "_" + platform
  {
    var rest := v + "_" + platform;
    assert pre + Marker + v + "_" + platform == pre + Marker + rest;
    AfterMarker(pre, rest);
  }

  /** The name is read from what follows the first marker. */
  lemma ExtractFromRest(path: string, rest: string)
    requires Contains(path, Marker) && path[Find(path, Marker) + |Marker|..] == rest
    ensures ExtractCircuitVariableName(path)
      == if RFind(rest, '_') == -1 then Ok("") else Ok(rest[..RFind(rest, '_')])
  {
  }

  lemma {:induction false} ExtractNameWithoutPlatform(pre: string, tail: string)
    requires Find(pre + Marker + tail, Marker) == |pre|
    requires '_' !in tail
    ensures ExtractCircuitVariableName(pre + Marker + tail) == Ok("")
  {
    AfterMarker(pre, tail);
    RFindSpec(tail, '_');
  }

  lemma {:induction false} AfterMarker(pre: string, rest: string)
    ensures (pre + Marker + rest)[|pre| + |Marker|..] == rest
  {
  }

  /** The last `_` of `v + "_" + platform` is the one before the platform. */
  lemma {:induction false} LastUnderscore(v: string, platform: string)
    requires '_' !in platform
    ensures RFind(v + "_" + platform, '_') == |v|
    ensures (v + "_" + platform)[..|v|] == v
  {
    var rest := v + "_" + platform;
    RFindSpec(rest, '_');
    assert rest[|v|] == '_';
    assert forall j :: |v| < j < |rest| ==> rest[j] == platform[j - |v| - 1];
  }

  /** The index of the first file in `files[i..]` whose variable is `name`,
      or the assertion a file without the marker fails on the way. */
  function Partner(files: seq<string>, name: string, i: nat): (r: Result<Option<nat>>)
    requires i <= |files|
    ensures r.Ok? && r.value.Some? ==> i <= r.value.value < |files|
    decreases |files| - i
  {
    if i == |files| then Ok(None)
    else match ExtractCircuitVariableName(files[i])
      case Err(e) => Err(e)
      case Ok(n) => if n == name then Ok(Some(i)) else Partner(files, name, i + 1)
  }

  function Without<T>(s: seq<T>, j: nat): (r: seq<T>)
    requires j < |s|
    ensures |r| == |s| - 1
  {
    s[..j] + s[j + 1..]
  }

  /** One turn of get_qasm_pairs's loop: the last file is taken off and
      paired with the first remaining one exported from the same variable,
      which is taken off too; a file with no partner is dropped. The turn
      yields the pairs it found (none or one) and the files left. */
  function Turn(files: seq<string>): (r: Result<(seq<(string, string)>, seq<string>)>)
    requires files != []
    ensures r.Ok? ==> |r.value.1| < |files|
  {
    var a, rest := files[|files| - 1], files[..|files| - 1];
    match ExtractCircuitVariableName(a)
    case Err(e) => Err(e)
    case Ok(na) =>
      match Partner(rest, na, 0)
      case Err(e) => Err(e)
      case Ok(None) => Ok(([], rest))
      case Ok(Some(j)) => Ok(([(a, rest[j])], Without(rest, j)))
  }

  /** What the loop has still to produce, after the pairs found so far. */
  function After(pairs: seq<(string, string)>, r: Result<seq<(string, string)>>): Result<seq<(string, string)>>
  {
    match r
    case Err(e) => Err(e)
    case Ok(t) => Ok(pairs + t)
  }

  /** get_qasm_pairs over the listed files: turns until no file is left;
      the first exception ends it. */
  function QasmPairs(files: seq<string>): (r: Result<seq<(string, string)>>)
    decreases |files|
  {
    if files == [] then Ok([])
    else match Turn(files)
      case Err(e) => Err(e)
      case Ok(step) => After(step.0, QasmPairs(step.1))
  }

  /** The files the pairs hold, in order. */
  function Members(pairs: seq<(string, string)>): (r: seq<string>)
    ensures |r| == 2 * |pairs|
  {
    if pairs == [] then [] else [pairs[0].0, pairs[0].1] + Members(pairs[1..])
  }

  /** The partner found is exported from the same variable. */
  lemma {:induction false} PartnerMatches(files: seq<string>, name: string, i: nat)
    requires i <= |files|
    ensures var r := Partner(files, name, i);
      r.Ok? && r.value.Some? ==> ExtractCircuitVariableName(files[r.value.value]) == Ok(name)
    decreases |files| - i
  {
    if i < |files| && ExtractCircuitVariableName(files[i]).Ok? && ExtractCircuitVariableName(files[i]).value != name {
      PartnerMatches(files, name, i + 1);
    }
  }

  predicate PairsMatch(pairs: seq<(string, string)>)
  {
    forall k :: 0 <= k < |pairs| ==>
      ExtractCircuitVariableName(pairs[k].0).Ok? && ExtractCircuitVariableName(pairs[k].0) == ExtractCircuitVariableName(pairs[k].1)
  }

  /** A turn pairs files exported from the same variable, and takes off
      the files it pairs or drops. */
  lemma {:induction false} TurnSpec(files: seq<string>)
    requires files != []
    ensures var r := Turn(files);
      r.Ok? ==>
        && PairsMatch(r.value.0) && multiset(Members(r.value.0)) + multiset(r.value.1) <= multiset(files)
        && |r.value.0| <= 1 && 2 * |r.value.0| + |r.value.1| <= |files|
  {
    var a, rest := files[|files| - 1], files[..|files| - 1];
    assert files == rest + [a];
    var na := ExtractCircuitVariableName(a);
    if na.Ok? {
      var p := Partner(rest, na.value, 0);
      PartnerMatches(rest, na.value, 0);
      if p.Ok? && p.value.Some? {
        var j := p.value.value;
        WithoutMultiset(rest, j);
        assert Members([(a, rest[j])]) == [a, rest[j]];
      }
    }
  }

  /** Both files of a pair are exported from the same variable, and the
      pairs use each listed file at most once, so there are at most half as
      many pairs as files. */
  lemma {:induction false} QasmPairsSpec(files: seq<string>)
    ensures var r := QasmPairs(files);
      r.Ok? ==> PairsMatch(r.value) && multiset(Members(r.value)) <= multiset(files) && 2 * |r.value| <= |files|
    decreases |files|
  {
    if files != [] {
      TurnSpec(files);
      var step := Turn(files);
      if step.Ok? {
        QasmPairsSpec(step.value.1);
        var t := QasmPairs(step.value.1);
        if t.Ok? {
          MembersAppend(step.value.0, t.value);
          PairsMatchAppend(step.value.0, t.value);
        }
      }
    }
  }

  lemma {:induction false} MembersAppend(p: seq<(string, string)>, t: seq<(string, string)>)
    ensures Members(p + t) == Members(p) + Members(t)
  {
    if p != [] {
      assert (p + t)[1..] == p[1..] + t;
      MembersAppend(p[1..], t);
    } else {
      assert p + t == t;
    }
  }

  lemma {:induction false} PairsMatchAppend(p: seq<(string, string)>, t: seq<(string, string)>)
    requires PairsMatch(p) && PairsMatch(t)
    ensures PairsMatch(p + t)
  {
    assert forall k :: |p| <= k < |p + t| ==> (p + t)[k] == t[k - |p|];
  }

  lemma {:induction false} WithoutMultiset<T>(s: seq<T>, j: nat)
    requires j < |s|
    ensures multiset(s) == multiset(Without(s, j)) + multiset{s[j]}
  {
    assert s == s[..j] + [s[j]] + s[j + 1..];
  }

  /** The scan for `qasm_a`'s partner among the remaining files. */
  method FindPartner(files: seq<string>, name: string) returns (r: Result<Option<nat>>)
    ensures r == Partner(files, name, 0)
  {
    var i := 0;
    while i < |files|
      invariant 0 <= i <= |files|
      invariant Partner(files, name, 0) == Partner(files, name, i)
      decreases |files| - i
    {
      var nb := ExtractCircuitVariableName(files[i]);
      if nb.Err? {
        return Err(nb.exc);
      }
      if nb.value == name {
        return Ok(Some(i));
      }
      i := i + 1;
    }
    return Ok(None);
  }

  /** The body of get_qasm_pairs's loop: `pop`, the scan, and `remove`. */
  method TakePair(files: seq<string>) returns (r: Result<(seq<(string, string)>, seq<string>)>)
    requires files != []
    ensures r == Turn(files)
  {
    var a := files[|files| - 1];
    var rest := files[..|files| - 1];
    var na := ExtractCircuitVariableName(a);
    if na.Err? {
      return Err(na.exc);
    }
    var b := FindPartner(rest, na.value);
    if b.Err? {
      return Err(b.exc);
    }
    if b.value.None? {
      return Ok(([], rest));
    }
    return Ok(([(a, rest[b.value.value])], Without(rest, b.value.value)));
  }

  /** get_qasm_pairs: the loop that pops the last file, scans the others
      for a partner and removes it. */
  method GetQasmPairs(listed: seq<string>) returns (r: Result<seq<(string, string)>>)
    ensures r == QasmPairs(listed)
  {
    var files := listed;
    var pairs: seq<(string, string)> := [];
    AfterAfter([], [], QasmPairs(listed));
    while files != []
      invariant QasmPairs(listed) == After(pairs, QasmPairs(files))
      decreases |files|
    {
      var step := TakePair(files);
      if step.Err? {
        return Err(step.exc);
      }
      AfterAfter(pairs, step.value.0, QasmPairs(step.value.1));
      pairs := pairs + step.value.0;
      files := step.value.1;
    }
    assert pairs + [] == pairs;
    return Ok(pairs);
  }

  lemma {:induction false} AfterAfter(p: seq<(string, string)>, q: seq<(string, string)>, r: Result<seq<(string, string)>>)
    ensures After(p, After(q, r)) == After(p + q, r)
    ensures After([], r) == r
  {
    if r.Ok? {
      assert [] + r.value == r.value;
      assert p + (q + r.value) == p + q + r.value;
    }
  }
}
