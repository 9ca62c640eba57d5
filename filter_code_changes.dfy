/** information_distillation/filter_code_changes.py: the code changes
    scraped per commit are flattened into one list, deduplicated on their
    compressed context, and rid of the changes whose target line is a
    deprecation import.

    Each step reads a JSON list from a file and writes the result next to
    it; the model takes the list read and returns the list written, and
    gives the name of the written file as a function of the input name.
    The regular expression of the last step is a parameter `matches`
    (Python's `re.match`, anchored at the start of the line). */
module FilterCodeChanges {
  import opened Py
  import opened PyStr
  import PySeq

  /** A scraped commit: its scalar entries (`hash`, `commit_number`, …) and
      its `code_changes` list, None when the key is missing. */
  datatype Commit = Commit(fields: Dict, changes: Option<seq<Dict>>)

  // Raising on the first bad element

  /** The exception of the first element `check` objects to, if any. */
  function FirstError<T>(s: seq<T>, check: T -> Option<Exception>): (r: Option<Exception>)
  {
    if s == [] then None
    else if check(s[0]).Some? then check(s[0])
    else FirstError(s[1..], check)
  }

  /** No exception exactly when `check` accepts every element. */
  lemma {:induction false} FirstErrorSpec<T>(s: seq<T>, check: T -> Option<Exception>)
    ensures FirstError(s, check).None? ==> forall i :: 0 <= i < |s| ==> check(s[i]).None?
    ensures (forall i :: 0 <= i < |s| ==> check(s[i]).None?) ==> FirstError(s, check).None?
  {
    if s != [] {
      FirstErrorSpec(s[1..], check);
      assert forall i :: 1 <= i < |s| ==> s[1..][i - 1] == s[i];
    }
  }

  /** An exception, when there is one, is the one of some element. */
  lemma {:induction false} FirstErrorFrom<T>(s: seq<T>, check: T -> Option<Exception>)
    ensures FirstError(s, check).Some? ==> exists i :: 0 <= i < |s| && check(s[i]) == FirstError(s, check)
  {
    if s != [] && check(s[0]).None? {
      FirstErrorFrom(s[1..], check);
      if FirstError(s[1..], check).Some? {
        var i :| 0 <= i < |s[1..]| && check(s[1..][i]) == FirstError(s[1..], check);
        assert s[1..][i] == s[i + 1];
      }
    }
  }

  // flatten_code_changes

  /** `code_change["hash"] = hash; code_change["commit_number"] = number`. */
  function Tag(change: Dict, hash: Value, number: Value): Dict
  {
    change["hash" := hash]["commit_number" := number]
  }

  /** A tagged change has the two keys, with the commit's values, and
      every other entry of the change as it was. */
  lemma {:induction false} TagSpec(change: Dict, hash: Value, number: Value)
    ensures Tag(change, hash, number).Keys == change.Keys + {"hash", "commit_number"}
    ensures Tag(change, hash, number)["hash"] == hash
    ensures Tag(change, hash, number)["commit_number"] == number
    ensures forall k :: k in change && k != "hash" && k != "commit_number" ==> Tag(change, hash, number)[k] == change[k]
  {
  }

  /** The changes of one commit, each tagged with the commit's hash and
      number, in order. */
  function Tagged(changes: seq<Dict>, hash: Value, number: Value): (r: seq<Dict>)
    ensures |r| == |changes|
  {
    seq(|changes|, j requires 0 <= j < |changes| => Tag(changes[j], hash, number))
  }

  /** What one commit adds to the flattened list, or the KeyError of the
      first of its three keys that is missing. */
  function CommitItems(c: Commit): Result<seq<Dict>>
  {
    if "hash" !in c.fields then Err(KeyError("hash"))
    else if "commit_number" !in c.fields then Err(KeyError("commit_number"))
    else if c.changes.None? then Err(KeyError("code_changes"))
    else Ok(Tagged(c.changes.value, c.fields["hash"], c.fields["commit_number"]))
  }

  /** The number of code changes of the commits. */
  function TotalChanges(commits: seq<Commit>): nat
  {
    if commits == [] then 0
    else (if commits[0].changes.Some? then |commits[0].changes.value| else 0) + TotalChanges(commits[1..])
  }

  /** The flattened list: the items of every commit, commit after commit. */
  function Flatten(commits: seq<Commit>): Result<seq<Dict>>
  {
    if commits == [] then Ok([])
    else
      var items :- CommitItems(commits[0]);
      Prepend(items, Flatten(commits[1..]))
  }

  /** Flattening fails exactly when some commit lacks one of its keys. */
  lemma {:induction false} FlattenFails(commits: seq<Commit>)
    ensures Flatten(commits).Err? ==> exists i :: 0 <= i < |commits| && CommitItems(commits[i]).Err?
    ensures (exists i :: 0 <= i < |commits| && CommitItems(commits[i]).Err?) ==> Flatten(commits).Err?
  {
    if commits != [] {
      FlattenFails(commits[1..]);
      assert forall i :: 1 <= i < |commits| ==> commits[1..][i - 1] == commits[i];
      if Flatten(commits).Err? && CommitItems(commits[0]).Ok? {
        var i :| 0 <= i < |commits[1..]| && CommitItems(commits[1..][i]).Err?;
        assert commits[1..][i] == commits[i + 1];
      }
    }
  }

  /** The flattened list holds one item per code change. */
  lemma {:induction false} FlattenLength(commits: seq<Commit>)
    requires Flatten(commits).Ok?
    ensures |Flatten(commits).value| == TotalChanges(commits)
  {
    if commits != [] {
      FlattenLength(commits[1..]);
    }
  }

  /** Flattening a list of commits in two parts flattens the first part,
      then the second: the items keep the order of their commits. */
  lemma {:induction false} FlattenAppend(a: seq<Commit>, b: seq<Commit>)
    ensures Flatten(a + b) == if Flatten(a).Err? then Flatten(a) else Prepend(Flatten(a).value, Flatten(b))
  {
    if a == [] {
      assert a + b == b;
      PrependEmpty(Flatten(b));
    } else {
      assert (a + b)[0] == a[0];
      assert (a + b)[1..] == a[1..] + b;
      FlattenAppend(a[1..], b);
      if CommitItems(a[0]).Ok? && Flatten(a[1..]).Ok? {
        PrependPrepend(CommitItems(a[0]).value, Flatten(a[1..]).value, Flatten(b));
      }
    }
  }

  /** One commit flattens to its tagged changes, in their order. */
  lemma {:induction false} FlattenOne(c: Commit)
    ensures Flatten([c]) == CommitItems(c)
  {
    assert [c][1..] == [];
    if CommitItems(c).Ok? {
      assert CommitItems(c).value + [] == CommitItems(c).value;
    }
  }

  /** `x` carries the hash and the number of commit `c`. */
  predicate TaggedBy(x: Dict, c: Commit)
  {
    && "hash" in c.fields && "commit_number" in c.fields && "hash" in x && "commit_number" in x
    && x["hash"] == c.fields["hash"] && x["commit_number"] == c.fields["commit_number"]
  }

  /** Every flattened item carries the hash and the number of a commit. */
  lemma {:induction false} FlattenTagged(commits: seq<Commit>)
    requires Flatten(commits).Ok?
    ensures forall x :: x in Flatten(commits).value ==> exists i :: 0 <= i < |commits| && TaggedBy(x, commits[i])
  {
    if commits != [] {
      FlattenTagged(commits[1..]);
      var c := commits[0];
      var items := CommitItems(c).value;
      forall x | x in Flatten(commits).value
        ensures exists i :: 0 <= i < |commits| && TaggedBy(x, commits[i])
      {
        if x in items {
          var j :| 0 <= j < |items| && items[j] == x;
          TagSpec(c.changes.value[j], c.fields["hash"], c.fields["commit_number"]);
          assert commits[0] == c;
        } else {
          assert x in Flatten(commits[1..]).value;
          var i :| 0 <= i < |commits[1..]| && TaggedBy(x, commits[1..][i]);
          assert commits[1..][i] == commits[i + 1];
        }
      }
    }
  }

  /** One turn of the outer loop: the commit's error, or its items. */
  lemma {:induction false} FlattenStep(commits: seq<Commit>, i: nat)
    requires i < |commits|
    ensures CommitItems(commits[i]).Err? ==> Flatten(commits[i..]) == CommitItems(commits[i])
    ensures CommitItems(commits[i]).Ok? ==>
      Flatten(commits[i..]) == Prepend(CommitItems(commits[i]).value, Flatten(commits[i + 1..]))
  {
    assert commits[i..][0] == commits[i];
    assert commits[i..][1..] == commits[i + 1..];
  }

  /** flatten_code_changes: the loop over the commits and, inside it, over
      their code changes. */
  method FlattenCodeChanges(commits: seq<Commit>) returns (r: Result<seq<Dict>>)
    ensures r == Flatten(commits)
  {
    var flattened: seq<Dict> := [];
    var i := 0;
    assert commits[0..] == commits;
    PrependEmpty(Flatten(commits));
    while i < |commits|
      invariant 0 <= i <= |commits|
      invariant Prepend(flattened, Flatten(commits[i..])) == Flatten(commits)
    {
      var commit := commits[i];
      FlattenStep(commits, i);
      if "hash" !in commit.fields {
        return Err(KeyError("hash"));
      }
      var hash := commit.fields["hash"];
      if "commit_number" !in commit.fields {
        return Err(KeyError("commit_number"));
      }
      var number := commit.fields["commit_number"];
      if commit.changes.None? {
        return Err(KeyError("code_changes"));
      }
      var changes := commit.changes.value;
      ghost var before := flattened;
      var j := 0;
      while j < |changes|
        invariant 0 <= j <= |changes|
        invariant flattened == before + Tagged(changes, hash, number)[..j]
      {
        flattened := flattened + [Tag(changes[j], hash, number)];
        assert Tagged(changes, hash, number)[..j + 1] == Tagged(changes, hash, number)[..j] + [Tag(changes[j], hash, number)];
        j := j + 1;
      }
      assert Tagged(changes, hash, number)[..j] == Tagged(changes, hash, number);
      PrependPrepend(before, Tagged(changes, hash, number), Flatten(commits[i + 1..]));
      i := i + 1;
    }
    assert commits[i..] == [];
    assert flattened + [] == flattened;
    r := Ok(flattened);
  }

  /** The file a step writes: the input's name with `"_" + suffix` before
      every ".json". */
  function StepFile(inputPath: string, suffix: string): string
  {
    ReplaceAll(inputPath, ".json", "_" + suffix + ".json")
  }

  const FlattenedSuffix := "flattened"

  /** The file flatten_code_changes writes. */
  function FlattenedPath(inputPath: string): string
  {
    StepFile(inputPath, FlattenedSuffix)
  }

  // remove_duplicates_on_field

  /** `item[field]` and its use as a set element: a missing key raises
      KeyError, a list (unhashable) raises TypeError. */
  function FieldError(item: Dict, field: string): Option<Exception>
  {
    if field !in item then Some(KeyError(field))
    else if item[field].List? then Some(TypeError("unhashable type: 'list'"))
    else None
  }

  function FieldCheck(field: string): Dict -> Option<Exception>
  {
    item => FieldError(item, field)
  }

  /** The value of the field, for an item that has it. */
  function FieldValue(item: Dict, field: string): Value
  {
    if field in item then item[field] else Null
  }

  function FieldKey(field: string): Dict -> Value
  {
    item => FieldValue(item, field)
  }

  /** The items kept by the loop with a `seen` set, started with `seen`, or
      the exception of the first item whose field cannot be looked up. */
  function Deduplicate(data: seq<Dict>, field: string, seen: set<Value>): Result<seq<Dict>>
  {
    match FirstError(data, FieldCheck(field))
    case Some(e) => Err(e)
    case None => Ok(PySeq.UniqueBy(data, FieldKey(field), seen))
  }

  /** Deduplication fails exactly when some item lacks the field or holds
      a list in it. */
  lemma {:induction false} DeduplicateFails(data: seq<Dict>, field: string)
    ensures Deduplicate(data, field, {}).Err? ==> exists i :: 0 <= i < |data| && FieldError(data[i], field).Some?
    ensures (exists i :: 0 <= i < |data| && FieldError(data[i], field).Some?) ==> Deduplicate(data, field, {}).Err?
  {
    FirstErrorSpec(data, FieldCheck(field));
  }

  /** The kept items have pairwise distinct field values; each is the
      first item of the input with its value; and every value of the input
      is kept. */
  lemma {:induction false} DeduplicateSpec(data: seq<Dict>, field: string)
    requires Deduplicate(data, field, {}).Ok?
    ensures forall i, j :: 0 <= i < j < |Deduplicate(data, field, {}).value| ==>
      FieldValue(Deduplicate(data, field, {}).value[i], field) != FieldValue(Deduplicate(data, field, {}).value[j], field)
    ensures forall x :: x in Deduplicate(data, field, {}).value ==>
      exists i :: 0 <= i < |data| && data[i] == x && forall k :: 0 <= k < i ==> FieldValue(data[k], field) != FieldValue(x, field)
    ensures forall i :: 0 <= i < |data| ==>
      exists y :: y in Deduplicate(data, field, {}).value && FieldValue(y, field) == FieldValue(data[i], field)
  {
    DeduplicateDistinct(data, field);
    DeduplicateFirst(data, field);
    DeduplicateCovers(data, field);
  }

  lemma {:induction false} DeduplicateDistinct(data: seq<Dict>, field: string)
    requires Deduplicate(data, field, {}).Ok?
    ensures forall i, j :: 0 <= i < j < |Deduplicate(data, field, {}).value| ==>
      FieldValue(Deduplicate(data, field, {}).value[i], field) != FieldValue(Deduplicate(data, field, {}).value[j], field)
  {
    var key := FieldKey(field);
    assert Deduplicate(data, field, {}).value == PySeq.UniqueBy(data, key, {});
    PySeq.UniqueByDistinct(data, key, {});
  }

  lemma {:induction false} DeduplicateFirst(data: seq<Dict>, field: string)
    requires Deduplicate(data, field, {}).Ok?
    ensures forall x :: x in Deduplicate(data, field, {}).value ==>
      exists i :: 0 <= i < |data| && data[i] == x && forall k :: 0 <= k < i ==> FieldValue(data[k], field) != FieldValue(x, field)
  {
    var key := FieldKey(field);
    assert Deduplicate(data, field, {}).value == PySeq.UniqueBy(data, key, {});
    PySeq.UniqueByFirst(data, key, {});
  }

  lemma {:induction false} DeduplicateCovers(data: seq<Dict>, field: string)
    requires Deduplicate(data, field, {}).Ok?
    ensures forall i :: 0 <= i < |data| ==>
      exists y :: y in Deduplicate(data, field, {}).value && FieldValue(y, field) == FieldValue(data[i], field)
  {
    var key := FieldKey(field);
    var kept := PySeq.UniqueBy(data, key, {});
    assert Deduplicate(data, field, {}).value == kept;
    PySeq.UniqueByCovers(data, key, {});
    forall i | 0 <= i < |data|
      ensures exists y :: y in kept && FieldValue(y, field) == FieldValue(data[i], field)
    {
      assert data[i] in data;
    }
  }

  /** The kept items keep their order. */
  lemma {:induction false} DeduplicateOrder(data: seq<Dict>, field: string)
    requires Deduplicate(data, field, {}).Ok?
    ensures PySeq.Subsequence(Deduplicate(data, field, {}).value, data)
  {
    PySeq.UniqueBySubsequence(data, FieldKey(field), {});
  }

  /** Deduplicating the deduplicated list changes nothing. */
  lemma {:induction false} DeduplicateIdempotent(data: seq<Dict>, field: string)
    requires Deduplicate(data, field, {}).Ok?
    ensures Deduplicate(Deduplicate(data, field, {}).value, field, {}) == Deduplicate(data, field, {})
  {
    var kept := Deduplicate(data, field, {}).value;
    FirstErrorSpec(data, FieldCheck(field));
    PySeq.UniqueByFrom(data, FieldKey(field), {});
    forall i | 0 <= i < |kept| ensures FieldCheck(field)(kept[i]).None? {
      assert kept[i] in kept;
      var j :| 0 <= j < |data| && data[j] == kept[i];
    }
    FirstErrorSpec(kept, FieldCheck(field));
    PySeq.UniqueByIdempotent(data, FieldKey(field));
  }

  /** One turn of the loop: the item's error, a value already seen, or a
      new value, which is kept and added to `seen`. */
  lemma {:induction false} DeduplicateStep(data: seq<Dict>, field: string, seen: set<Value>, i: nat)
    requires i < |data|
    ensures FieldError(data[i], field).Some? ==> Deduplicate(data[i..], field, seen) == Err(FieldError(data[i], field).value)
    ensures FieldError(data[i], field).None? && data[i][field] in seen ==>
      Deduplicate(data[i..], field, seen) == Deduplicate(data[i + 1..], field, seen)
    ensures FieldError(data[i], field).None? && data[i][field] !in seen ==>
      Deduplicate(data[i..], field, seen) == Prepend([data[i]], Deduplicate(data[i + 1..], field, seen + {data[i][field]}))
  {
    assert data[i..][0] == data[i];
    assert data[i..][1..] == data[i + 1..];
  }

  /** remove_duplicates_on_field: the loop with the `seen` set. */
  method RemoveDuplicatesOnField(data: seq<Dict>, field: string) returns (r: Result<seq<Dict>>)
    ensures r == Deduplicate(data, field, {})
  {
    var unique: seq<Dict> := [];
    var seen: set<Value> := {};
    var i := 0;
    assert data[0..] == data;
    PrependEmpty(Deduplicate(data, field, {}));
    while i < |data|
      invariant 0 <= i <= |data|
      invariant Prepend(unique, Deduplicate(data[i..], field, seen)) == Deduplicate(data, field, {})
    {
      var item := data[i];
      DeduplicateStep(data, field, seen, i);
      if field !in item {
        return Err(KeyError(field));
      }
      var value := item[field];
      if value.List? {
        return Err(TypeError("unhashable type: 'list'"));
      }
      if value !in seen {
        PrependPrepend(unique, [item], Deduplicate(data[i + 1..], field, seen + {value}));
        seen := seen + {value};
        unique := unique + [item];
      }
      i := i + 1;
    }
    assert data[i..] == [];
    assert unique + [] == unique;
    r := Ok(unique);
  }

  /** `string.punctuation`. */
  const Punctuation: string := "!\"#$%&'()*+,-./:;<=>?@[\\]^_`{|}~"

  /** Membership in `string.punctuation`: the four runs of ASCII
      characters between the digits and letters. */
  predicate IsPunctuation(c: char)
  {
    '!' <= c <= '/' || ':' <= c <= '@' || '[' <= c <= '`' || '{' <= c <= '~'
  }

  /** The four runs are exactly the characters of `string.punctuation`. */
  lemma {:induction false} PunctuationRuns(c: char)
    ensures IsPunctuation(c) <==> c in Punctuation
  {
  }

  /** The suffix used when none is given: the field name with every
      punctuation character replaced by an underscore. */
  function DefaultSuffix(field: string): (r: string)
    ensures |r| == |field|
  {
    seq(|field|, i requires 0 <= i < |field| => if IsPunctuation(field[i]) then '_' else field[i])
  }

  /** The default suffix holds no punctuation but underscores, keeps every
      other character in place, and is the field name itself when that
      holds no other punctuation. */
  lemma {:induction false} DefaultSuffixSpec(field: string)
    ensures forall i :: 0 <= i < |field| ==> DefaultSuffix(field)[i] == '_' || !IsPunctuation(DefaultSuffix(field)[i])
    ensures forall i :: 0 <= i < |field| && !IsPunctuation(field[i]) ==> DefaultSuffix(field)[i] == field[i]
    ensures (forall i :: 0 <= i < |field| ==> field[i] == '_' || !IsPunctuation(field[i])) ==> DefaultSuffix(field) == field
  {
  }

  /** The file remove_duplicates_on_field writes: an empty or missing
      suffix stands for the default one. */
  function DeduplicatedPath(inputPath: string, field: string, suffix: Option<string>): string
  {
    StepFile(inputPath, if Truthy(suffix) then suffix.value else DefaultSuffix(field))
  }

  // remove_lines_with_regex

  const TargetKey := "target_line_content"

  /** `item["target_line_content"]` as `re.match` takes it: a missing key
      raises KeyError, a value that is not a string raises TypeError. */
  function TargetError(item: Dict): Option<Exception>
  {
    if TargetKey !in item then Some(KeyError(TargetKey))
    else if !item[TargetKey].Str? then Some(TypeError("expected string or bytes-like object"))
    else None
  }

  function TargetCheck(): Dict -> Option<Exception>
  {
    item => TargetError(item)
  }

  /** The item's target line matches the regular expression. */
  predicate Matched(item: Dict, matches: string -> bool)
  {
    TargetKey in item && item[TargetKey].Str? && matches(item[TargetKey].s)
  }

  /** Whether an item is kept: its target line does not match. */
  function Keeps(matches: string -> bool): Dict -> bool
  {
    item => !Matched(item, matches)
  }

  /** The items whose target line does not match, in order, or the
      exception of the first item without a target line. */
  function RemoveLines(data: seq<Dict>, matches: string -> bool): Result<seq<Dict>>
  {
    match FirstError(data, TargetCheck())
    case Some(e) => Err(e)
    case None => Ok(PySeq.Filter(data, Keeps(matches)))
  }

  /** The filter fails exactly when some item has no string target line;
      otherwise it keeps exactly the items whose line does not match. */
  lemma {:induction false} RemoveLinesSpec(data: seq<Dict>, matches: string -> bool)
    ensures RemoveLines(data, matches).Err? <==> exists i :: 0 <= i < |data| && TargetError(data[i]).Some?
    ensures RemoveLines(data, matches).Ok? ==> forall x: Dict :: x in RemoveLines(data, matches).value <==>
      x in data && !Matched(x, matches)
  {
    FirstErrorSpec(data, TargetCheck());
    PySeq.FilterSpec(data, Keeps(matches));
  }

  /** Filtering a list in two parts filters each part: the kept items keep
      their order. */
  lemma {:induction false} RemoveLinesAppend(a: seq<Dict>, b: seq<Dict>, matches: string -> bool)
    requires RemoveLines(a, matches).Ok? && RemoveLines(b, matches).Ok?
    ensures RemoveLines(a + b, matches) == Ok(RemoveLines(a, matches).value + RemoveLines(b, matches).value)
  {
    FirstErrorSpec(a, TargetCheck());
    FirstErrorSpec(b, TargetCheck());
    assert forall i :: 0 <= i < |a + b| ==> (a + b)[i] == if i < |a| then a[i] else b[i - |a|];
    FirstErrorSpec(a + b, TargetCheck());
    PySeq.FilterAppend(a, b, Keeps(matches));
  }

  /** Filtering the filtered list again changes nothing. */
  lemma {:induction false} RemoveLinesIdempotent(data: seq<Dict>, matches: string -> bool)
    requires RemoveLines(data, matches).Ok?
    ensures RemoveLines(RemoveLines(data, matches).value, matches) == RemoveLines(data, matches)
  {
    var kept := RemoveLines(data, matches).value;
    FirstErrorSpec(data, TargetCheck());
    PySeq.FilterSpec(data, Keeps(matches));
    forall i | 0 <= i < |kept| ensures TargetCheck()(kept[i]).None? {
      assert kept[i] in kept;
      var j :| 0 <= j < |data| && data[j] == kept[i];
    }
    FirstErrorSpec(kept, TargetCheck());
    PySeq.FilterIdempotent(data, Keeps(matches));
  }

  /** One turn of the loop: the item's error, a dropped line or a kept
      one. */
  lemma {:induction false} RemoveLinesStep(data: seq<Dict>, matches: string -> bool, i: nat)
    requires i < |data|
    ensures TargetError(data[i]).Some? ==> RemoveLines(data[i..], matches) == Err(TargetError(data[i]).value)
    ensures TargetError(data[i]).None? && Matched(data[i], matches) ==>
      RemoveLines(data[i..], matches) == RemoveLines(data[i + 1..], matches)
    ensures TargetError(data[i]).None? && !Matched(data[i], matches) ==>
      RemoveLines(data[i..], matches) == Prepend([data[i]], RemoveLines(data[i + 1..], matches))
  {
    assert data[i..][0] == data[i];
    assert data[i..][1..] == data[i + 1..];
    var rest := PySeq.Filter(data[i + 1..], Keeps(matches));
    if Matched(data[i], matches) {
      assert [] + rest == rest;
    }
  }

  /** remove_lines_with_regex: the loop appending the items whose target
      line does not match. */
  method RemoveLinesWithRegex(data: seq<Dict>, matches: string -> bool) returns (r: Result<seq<Dict>>)
    ensures r == RemoveLines(data, matches)
  {
    var filtered: seq<Dict> := [];
    var i := 0;
    assert data[0..] == data;
    PrependEmpty(RemoveLines(data, matches));
    while i < |data|
      invariant 0 <= i <= |data|
      invariant Prepend(filtered, RemoveLines(data[i..], matches)) == RemoveLines(data, matches)
    {
      var item := data[i];
      RemoveLinesStep(data, matches, i);
      if TargetKey !in item {
        return Err(KeyError(TargetKey));
      }
      if !item[TargetKey].Str? {
        return Err(TypeError("expected string or bytes-like object"));
      }
      if !matches(item[TargetKey].s) {
        assert !Matched(item, matches);
        PrependPrepend(filtered, [item], RemoveLines(data[i + 1..], matches));
        filtered := filtered + [item];
      }
      i := i + 1;
    }
    assert data[i..] == [];
    assert filtered + [] == filtered;
    r := Ok(filtered);
  }

  /** The file remove_lines_with_regex writes. */
  function FilteredPath(inputPath: string, suffix: string): string
  {
    StepFile(inputPath, suffix)
  }

  // process_data

  const ContextField := "context_compressed"
  const RegexSuffix := "deprecated_import"

  /** The three lists process_data writes, whose lengths it reports, and
      the name of the last file. */
  datatype Processed = Processed(flattened: seq<Dict>, unique: seq<Dict>, kept: seq<Dict>, path: string)

  function Process(inputPath: string, commits: seq<Commit>, matches: string -> bool): Result<Processed>
  {
    var flattened :- Flatten(commits);
    var unique :- Deduplicate(flattened, ContextField, {});
    var kept :- RemoveLines(unique, matches);
    var path := FilteredPath(DeduplicatedPath(FlattenedPath(inputPath), ContextField, None), RegexSuffix);
    Ok(Processed(flattened, unique, kept, path))
  }

  /** process_data: the three steps, one after the other. */
  method ProcessData(inputPath: string, commits: seq<Commit>, matches: string -> bool) returns (r: Result<Processed>)
    ensures r == Process(inputPath, commits, matches)
  {
    var flattened :- FlattenCodeChanges(commits);
    var unique :- RemoveDuplicatesOnField(flattened, ContextField);
    var kept :- RemoveLinesWithRegex(unique, matches);
    var path := FilteredPath(DeduplicatedPath(FlattenedPath(inputPath), ContextField, None), RegexSuffix);
    r := Ok(Processed(flattened, unique, kept, path));
  }

  /** The counts process_data reports never grow after flattening, and the
      flattened count is the number of code changes. */
  lemma {:induction false} ProcessCounts(inputPath: string, commits: seq<Commit>, matches: string -> bool)
    requires Process(inputPath, commits, matches).Ok?
    ensures var p := Process(inputPath, commits, matches).value;
      |p.kept| <= |p.unique| <= |p.flattened| == TotalChanges(commits)
  {
    FlattenLength(commits);
  }

  /** Every change that survives has its own compressed context and a
      target line that is not a deprecation import. */
  lemma {:induction false} ProcessKept(inputPath: string, commits: seq<Commit>, matches: string -> bool)
    requires Process(inputPath, commits, matches).Ok?
    ensures var p := Process(inputPath, commits, matches).value;
      && (forall x: Dict :: x in p.kept ==> x in p.flattened && !Matched(x, matches))
      && (forall i, j :: 0 <= i < j < |p.unique| ==> FieldValue(p.unique[i], ContextField) != FieldValue(p.unique[j], ContextField))
  {
    var p := Process(inputPath, commits, matches).value;
    DeduplicateSpec(p.flattened, ContextField);
    RemoveLinesSpec(p.unique, matches);
    PySeq.UniqueByFrom(p.flattened, FieldKey(ContextField), {});
  }

  /** "context_compressed" holds no punctuation but underscores: it is
      its own default suffix. */
  lemma {:induction false} ContextSuffix()
    ensures DefaultSuffix(ContextField) == ContextField
  {
    DefaultSuffixSpec(ContextField);
  }

  /** The name of the file one step writes, for an input `p + ".json"`
      with no other dot: the step's suffix before the extension. */
  lemma {:induction false} StepPath(p: string, suffix: string)
    requires '.' !in p && '.' !in suffix
    ensures StepFile(p + ".json", suffix) == (p + "_" + suffix) + ".json"
    ensures '.' !in p + "_" + suffix
  {
    ReplaceAtEnd(p, ".json", "_" + suffix + ".json");
    assert p + ("_" + suffix + ".json") == (p + "_" + suffix) + ".json";
  }

  /** For an input `p + ".json"` with no other dot, the last file is named
      after all three steps. */
  lemma {:induction false} ProcessPath(p: string)
    requires '.' !in p
    ensures FilteredPath(DeduplicatedPath(FlattenedPath(p + ".json"), ContextField, None), RegexSuffix)
      == p + "_" + FlattenedSuffix + "_" + ContextField + "_" + RegexSuffix + ".json"
  {
    StepPath(p, FlattenedSuffix);
    ContextSuffix();
    StepPath(p + "_" + FlattenedSuffix, ContextField);
    StepPath(p + "_" + FlattenedSuffix + "_" + ContextField, RegexSuffix);
  }
}
