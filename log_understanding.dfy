/** aiexchange/feedback/log_understanding.py: reading a run's log to tell
    whether generated code ran, and scanning a traceback for the files,
    objects and modules it names.

    The scanners rest on `re.findall`; the regular-expression engine is not
    modelled, so each scanner takes the list of captures `findall` returned
    for each of its patterns. `list(set(m))` has no order the program relies
    on; the model keeps the first occurrence of each capture, in order. */
module LogUnderstanding {
  import opened PyStr
  import PySeq
  import Sorting

  /** is_code_fixed: the log mentions no traceback, in any letter case,
      and no SyntaxError, in that exact case. */
  predicate IsCodeFixed(logs: string)
  {
    !Contains(Lower(logs), "traceback") && !Contains(logs, "SyntaxError")
  }

  /** A log with Python's usual `Traceback` header, or with any other
      spelling of the word, is never taken as fixed. */
  lemma {:induction false} TracebackNotFixed(logs: string, i: nat)
    requires i + 9 <= |logs| && Lower(logs[i..i + 9]) == "traceback"
    ensures !IsCodeFixed(logs)
  {
    var low := Lower(logs);
    assert low[i..][..9] == Lower(logs[i..i + 9]);
    ContainsAt(low, "traceback", i);
  }

  /** A log that reports a SyntaxError, spelled exactly so, is never
      taken as fixed, whatever else it holds. */
  lemma {:induction false} SyntaxErrorNotFixed(logs: string, i: nat)
    requires i + 11 <= |logs| && logs[i..i + 11] == "SyntaxError"
    ensures !IsCodeFixed(logs)
  {
    assert logs[i..][..11] == logs[i..i + 11];
    ContainsAt(logs, "SyntaxError", i);
  }

  function Id(s: string): string { s }

  /** `list(set(matches)) if matches else []`. */
  function Unique(matches: seq<string>): seq<string>
  {
    PySeq.UniqueBy(matches, Id, {})
  }

  /** The unique captures: each once, and every capture present. */
  lemma {:induction false} UniqueSpec(matches: seq<string>)
    ensures Sorting.Distinct(Unique(matches))
    ensures forall x :: x in Unique(matches) <==> x in matches
  {
    PySeq.UniqueByFrom(matches, Id, {});
    PySeq.UniqueByDistinct(matches, Id, {});
    PySeq.UniqueByCovers(matches, Id, {});
  }

  const CodeSample := "/workspace/code_sample.py"

  predicate NotCodeSample(f: string) { f != CodeSample }

  /** extract_filenames_from_traceback: the distinct `File "..."` paths,
      then the paths of `cannot import name` errors, without the generated
      program itself. */
  function ExtractFilenames(fileMatches: seq<string>, importErrorMatches: seq<string>): seq<string>
  {
    PySeq.Filter(Unique(fileMatches) + importErrorMatches, NotCodeSample)
  }

  /** A path is reported exactly when the traceback names it, through
      either pattern, and it is not the generated program; the frame paths
      come first, once each. */
  lemma {:induction false} ExtractFilenamesSpec(fileMatches: seq<string>, importErrorMatches: seq<string>)
    ensures forall f :: f in ExtractFilenames(fileMatches, importErrorMatches) <==>
      (f in fileMatches || f in importErrorMatches) && f != CodeSample
    ensures ExtractFilenames(fileMatches, importErrorMatches)
      == PySeq.Filter(Unique(fileMatches), NotCodeSample) + PySeq.Filter(importErrorMatches, NotCodeSample)
  {
    UniqueSpec(fileMatches);
    PySeq.FilterSpec(Unique(fileMatches) + importErrorMatches, NotCodeSample);
    PySeq.FilterAppend(Unique(fileMatches), importErrorMatches, NotCodeSample);
  }

  /** The captures of extract_objects_from_traceback's six patterns. */
  datatype ObjectMatches = ObjectMatches(
    nameErrors: seq<string>,
    moduleAttributes: seq<string>,
    typeAttributes: seq<string>,
    objectAttributes: seq<string>,
    importErrors: seq<string>,
    typeErrors: seq<string>)

  /** extract_objects_from_traceback: the names of each kind, each kind
      without repeats, in the order NameError, the three AttributeError
      forms, ImportError, TypeError. */
  function ExtractObjects(m: ObjectMatches): seq<string>
  {
    Unique(m.nameErrors)
    + (Unique(m.moduleAttributes) + Unique(m.typeAttributes) + Unique(m.objectAttributes))
    + Unique(m.importErrors)
    + Unique(m.typeErrors)
  }

  /** Every name the traceback yields is reported, and only those; a
      traceback with one error of one kind yields that one name. */
  lemma {:induction false} ExtractObjectsSpec(m: ObjectMatches)
    ensures forall x :: x in ExtractObjects(m) <==>
      x in m.nameErrors || x in m.moduleAttributes || x in m.typeAttributes
      || x in m.objectAttributes || x in m.importErrors || x in m.typeErrors
    ensures m == ObjectMatches([], [], [], [], [], ["some_function"]) ==> ExtractObjects(m) == ["some_function"]
  {
    UniqueSpec(m.nameErrors);
    UniqueSpec(m.moduleAttributes);
    UniqueSpec(m.typeAttributes);
    UniqueSpec(m.objectAttributes);
    UniqueSpec(m.importErrors);
    UniqueSpec(m.typeErrors);
  }

  /** extract_missing_modules_from_traceback: the distinct module names,
      sorted. */
  function ExtractMissingModules(matches: seq<string>): seq<string>
  {
    Sorting.SortStrings(Unique(matches))
  }

  /** The result is sorted, without repeats, and names exactly the
      missing modules; with no match it is empty. */
  lemma {:induction false} ExtractMissingModulesSpec(matches: seq<string>)
    ensures Sorting.SortedStrings(ExtractMissingModules(matches))
    ensures |ExtractMissingModules(matches)| <= |matches|
    ensures forall x :: x in ExtractMissingModules(matches) <==> x in matches
    ensures matches == [] ==> ExtractMissingModules(matches) == []
  {
    UniqueSpec(matches);
    Sorting.SortStringsSorted(Unique(matches));
  }
}
