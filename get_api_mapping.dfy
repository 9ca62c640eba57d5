/** information_distillation/get_api_mapping.py: the context and the prompt
    for a line that mentions a deprecation, and the loop that joins each
    code change with the language model's answer for it.

    The language model, the prompt template file and the JSON parser are
    not modelled: the loop takes, for each change, the dictionary the
    model's answer parsed to, or None when the call or the parsing
    raised. */
module GetApiMapping {
  import opened Py
  import opened PyStr
  import PySeq
  import PyPath

  /** extract_context: the lines from `index - k` to `index + k`, clipped
      to the list. */
  function ExtractContext(lines: seq<string>, index: int, k: int): (r: seq<string>)
    ensures |r| <= |lines|
  {
    var start := if index - k > 0 then index - k else 0;
    var end := if |lines| < index + k + 1 then |lines| else index + k + 1;
    PySeq.Slice(lines, start, end)
  }

  /** For an index of the list and k >= 0, the context is the contiguous
      run of at most 2k + 1 lines around the line, which it holds, clipped
      at the start and at the end of the list. */
  lemma {:induction false} ExtractContextSpec(lines: seq<string>, index: nat, k: nat)
    requires index < |lines|
    ensures var start := if index >= k then index - k else 0;
      var end := if index + k + 1 <= |lines| then index + k + 1 else |lines|;
      && start <= index < end
      && ExtractContext(lines, index, k) == lines[start..end]
      && |ExtractContext(lines, index, k)| <= 2 * k + 1
      && ExtractContext(lines, index, k)[index - start] == lines[index]
  {
  }

  const PromptIntro := "Given the following code context and the JSON schema, identify the deprecated and replacement entities. File path: "
  const PromptContext := "\n\nContext:\n"
  const PromptSchema := "\n\nJSON Schema:\n"
  const PromptTarget := "\n\nTarget Line:\n"
  const PromptRules := "\n\nResponse format should follow the JSON schema. If more than one mapping is present, return only the first. For the version use the semantic version only e.g. \"0.46.0\", and if not specified put \"None\". Your mapping should refer only to the \"deprecate\" in the target line.\n"

  /** The pieces of create_prompt's f-string, in order. */
  function PromptPieces(filePath: string, context: seq<string>, targetLine: string, jsonSchema: string): seq<string>
  {
    [PromptIntro, filePath, PromptContext, Join("\n", context), PromptSchema, jsonSchema,
     PromptTarget, targetLine, PromptRules]
  }

  /** create_prompt. */
  function CreatePrompt(filePath: string, context: seq<string>, targetLine: string, jsonSchema: string): string
  {
    Concat(PromptPieces(filePath, context, targetLine, jsonSchema))
  }

  lemma {:induction false} ContainsMiddle(a: string, x: string, b: string)
    ensures Contains(a + x + b, x)
  {
    assert (a + x + b)[|a|..][..|x|] == x;
    ContainsAt(a + x + b, x, |a|);
  }

  /** The prompt holds the file path, the context lines joined, the schema
      and the target line. */
  lemma {:induction false} CreatePromptSpec(filePath: string, context: seq<string>, targetLine: string, jsonSchema: string)
    ensures var p := CreatePrompt(filePath, context, targetLine, jsonSchema);
      && Contains(p, filePath) && Contains(p, Join("\n", context))
      && Contains(p, jsonSchema) && Contains(p, targetLine)
  {
    var pieces := PromptPieces(filePath, context, targetLine, jsonSchema);
    ContainsPiece(pieces, 1);
    ContainsPiece(pieces, 3);
    ContainsPiece(pieces, 5);
    ContainsPiece(pieces, 7);
  }

  /** The concatenation is the one of the parts before `i`, then part `i`,
      then the rest. */
  lemma {:induction false} ConcatSplit(ps: seq<string>, i: nat)
    requires i < |ps|
    ensures Concat(ps) == Concat(ps[..i]) + ps[i] + Concat(ps[i + 1..])
    decreases i
  {
    if i > 0 {
      ConcatSplit(ps[1..], i - 1);
      assert ps[1..][..i - 1] == ps[..i][1..];
      assert ps[1..][i - 1] == ps[i] && ps[1..][i..] == ps[i + 1..];
    } else {
      assert ps[..0] == [];
    }
  }

  /** Every part of a concatenation occurs in it. */
  lemma {:induction false} ContainsPiece(ps: seq<string>, i: nat)
    requires i < |ps|
    ensures Contains(Concat(ps), ps[i])
  {
    ConcatSplit(ps, i);
    ContainsMiddle(Concat(ps[..i]), ps[i], Concat(ps[i + 1..]));
  }

  // The loop of main

  /** The first of the keys the loop reads that a change lacks. */
  function MissingKey(change: Dict): Option<string>
  {
    if "file" !in change then Some("file")
    else if "context_compressed" !in change then Some("context_compressed")
    else if "target_line_content" !in change then Some("target_line_content")
    else None
  }

  /** A change joined with the model's answer, whose keys win, without
      the changed lines. */
  function Merge(change: Dict, answer: Dict): (r: Dict)
    ensures forall k :: k in r <==> (k in change || k in answer) && k != "lines_added" && k != "lines_removed"
    ensures forall k :: k in r && k in answer ==> r[k] == answer[k]
    ensures forall k :: k in r && k !in answer ==> r[k] == change[k]
  {
    (change + answer) - {"lines_added", "lines_removed"}
  }

  /** The two lists main writes: the joined mappings and the changes whose
      call failed. */
  datatype Partitioned = Partitioned(mappings: seq<Dict>, failures: seq<Dict>)

  /** The loop of main over the changes, each with its parsed answer; a
      change without one of the keys the loop reads raises KeyError. */
  function Partition(data: seq<Dict>, answers: seq<Option<Dict>>): Result<Partitioned>
    requires |answers| == |data|
  {
    if data == [] then Ok(Partitioned([], []))
    else if MissingKey(data[0]).Some? then Err(KeyError(MissingKey(data[0]).value))
    else
      var rest :- Partition(data[1..], answers[1..]);
      if answers[0].None? then Ok(Partitioned(rest.mappings, [data[0]] + rest.failures))
      else Ok(Partitioned([Merge(data[0], answers[0].value)] + rest.mappings, rest.failures))
  }

  /** The loop fails exactly when a change lacks a key it reads. */
  lemma {:induction false} PartitionFails(data: seq<Dict>, answers: seq<Option<Dict>>)
    requires |answers| == |data|
    ensures Partition(data, answers).Err? <==> exists i :: 0 <= i < |data| && MissingKey(data[i]).Some?
  {
    if data != [] {
      PartitionFails(data[1..], answers[1..]);
      assert forall i :: 1 <= i < |data| ==> data[1..][i - 1] == data[i];
    }
  }

  /** Otherwise every change lands in exactly one list: joined with its
      answer among the mappings when it has one, as it is among the
      failures when it has none. */
  lemma {:induction false} PartitionSpec(data: seq<Dict>, answers: seq<Option<Dict>>)
    requires |answers| == |data| && Partition(data, answers).Ok?
    ensures var p := Partition(data, answers).value;
      && |p.mappings| + |p.failures| == |data|
      && (forall i :: 0 <= i < |data| && answers[i].None? ==> data[i] in p.failures)
      && (forall i :: 0 <= i < |data| && answers[i].Some? ==> Merge(data[i], answers[i].value) in p.mappings)
  {
    if data != [] {
      PartitionSpec(data[1..], answers[1..]);
      assert forall i :: 1 <= i < |data| ==> data[1..][i - 1] == data[i] && answers[1..][i - 1] == answers[i];
    }
  }

  /** Nothing else is listed: every failure is a change without an
      answer, every mapping a change joined with its answer. */
  lemma {:induction false} PartitionOnly(data: seq<Dict>, answers: seq<Option<Dict>>)
    requires |answers| == |data| && Partition(data, answers).Ok?
    ensures var p := Partition(data, answers).value;
      && (forall x :: x in p.failures ==> exists i :: 0 <= i < |data| && answers[i].None? && x == data[i])
      && (forall x :: x in p.mappings ==>
            exists i :: 0 <= i < |data| && answers[i].Some? && x == Merge(data[i], answers[i].value))
  {
    if data != [] {
      PartitionOnly(data[1..], answers[1..]);
      var p := Partition(data, answers).value;
      var q := Partition(data[1..], answers[1..]).value;
      forall x | x in q.failures
        ensures exists i :: 0 <= i < |data| && answers[i].None? && x == data[i]
      {
        var j :| 0 <= j < |data[1..]| && answers[1..][j].None? && x == data[1..][j];
        assert answers[j + 1].None? && x == data[j + 1];
      }
      forall x | x in q.mappings
        ensures exists i :: 0 <= i < |data| && answers[i].Some? && x == Merge(data[i], answers[i].value)
      {
        var j :| 0 <= j < |data[1..]| && answers[1..][j].Some? && x == Merge(data[1..][j], answers[1..][j].value);
        assert answers[j + 1].Some? && x == Merge(data[j + 1], answers[j + 1].value);
      }
    }
  }

  /** What is listed, before what the rest of the loop lists. */
  function Prepend(done: Partitioned, rest: Result<Partitioned>): Result<Partitioned>
  {
    if rest.Ok? then Ok(Partitioned(done.mappings + rest.value.mappings, done.failures + rest.value.failures))
    else rest
  }

  /** One change of the loop. */
  lemma {:induction false} PartitionStep(data: seq<Dict>, answers: seq<Option<Dict>>, i: nat)
    requires |answers| == |data| && i < |data| && MissingKey(data[i]).None?
    ensures answers[i].None? ==>
      Partition(data[i..], answers[i..]) == Prepend(Partitioned([], [data[i]]), Partition(data[i + 1..], answers[i + 1..]))
    ensures answers[i].Some? ==>
      Partition(data[i..], answers[i..])
      == Prepend(Partitioned([Merge(data[i], answers[i].value)], []), Partition(data[i + 1..], answers[i + 1..]))
  {
    assert data[i..][1..] == data[i + 1..] && answers[i..][1..] == answers[i + 1..];
    var rest := Partition(data[i + 1..], answers[i + 1..]);
    if rest.Ok? {
      assert [] + rest.value.mappings == rest.value.mappings;
      assert [] + rest.value.failures == rest.value.failures;
    }
  }

  lemma {:induction false} PrependPrepend(a: Partitioned, b: Partitioned, rest: Result<Partitioned>)
    ensures Prepend(a, Prepend(b, rest))
      == Prepend(Partitioned(a.mappings + b.mappings, a.failures + b.failures), rest)
  {
    if rest.Ok? {
      assert a.mappings + (b.mappings + rest.value.mappings) == (a.mappings + b.mappings) + rest.value.mappings;
      assert a.failures + (b.failures + rest.value.failures) == (a.failures + b.failures) + rest.value.failures;
    }
  }

  /** The loop of main, appending to the two lists. */
  method PartitionChanges(data: seq<Dict>, answers: seq<Option<Dict>>) returns (r: Result<Partitioned>)
    requires |answers| == |data|
    ensures r == Partition(data, answers)
  {
    var codeMappings: seq<Dict> := [];
    var failedCodeChanges: seq<Dict> := [];
    var i := 0;
    assert data[0..] == data && answers[0..] == answers;
    assert Prepend(Partitioned([], []), Partition(data, answers)) == Partition(data, answers) by {
      if Partition(data, answers).Ok? {
        var p := Partition(data, answers).value;
        assert [] + p.mappings == p.mappings && [] + p.failures == p.failures;
      }
    }
    while i < |data|
      invariant 0 <= i <= |data|
      invariant Prepend(Partitioned(codeMappings, failedCodeChanges), Partition(data[i..], answers[i..]))
        == Partition(data, answers)
    {
      var change := data[i];
      assert data[i..][0] == change && answers[i..][1..] == answers[i + 1..] && data[i..][1..] == data[i + 1..];
      if MissingKey(change).Some? {
        return Err(KeyError(MissingKey(change).value));
      }
      PartitionStep(data, answers, i);
      if answers[i].None? {
        PrependPrepend(Partitioned(codeMappings, failedCodeChanges), Partitioned([], [change]),
          Partition(data[i + 1..], answers[i + 1..]));
        assert codeMappings + [] == codeMappings;
        failedCodeChanges := failedCodeChanges + [change];
      } else {
        var single := Merge(change, answers[i].value);
        PrependPrepend(Partitioned(codeMappings, failedCodeChanges), Partitioned([single], []),
          Partition(data[i + 1..], answers[i + 1..]));
        assert failedCodeChanges + [] == failedCodeChanges;
        codeMappings := codeMappings + [single];
      }
      i := i + 1;
    }
    assert data[|data|..] == [] && answers[|data|..] == [];
    assert codeMappings + [] == codeMappings && failedCodeChanges + [] == failedCodeChanges;
    r := Ok(Partitioned(codeMappings, failedCodeChanges));
  }

  /** The files main writes into the output folder, by path: the mappings
      always, the failed changes only when there are some. */
  function OutputFiles(outputFolder: string, inputJson: string, p: Partitioned): map<string, seq<Dict>>
  {
    var stem := PyPath.Stem(inputJson);
    map[PyPath.Join(outputFolder, stem + "_mapping.json") := p.mappings]
    + (if p.failures != [] then map[PyPath.Join(outputFolder, stem + "_mapping_failed.json") := p.failures] else map[])
  }

  /** The mapping file holds the mappings; the failed file is written
      exactly when a change failed, and holds those changes. */
  lemma {:induction false} OutputFilesSpec(outputFolder: string, inputJson: string, p: Partitioned)
    ensures var stem := PyPath.Stem(inputJson);
      var files := OutputFiles(outputFolder, inputJson, p);
      var failed := PyPath.Join(outputFolder, stem + "_mapping_failed.json");
      && files[PyPath.Join(outputFolder, stem + "_mapping.json")] == p.mappings
      && (failed in files <==> p.failures != [])
      && (failed in files ==> files[failed] == p.failures)
      && |files| == if p.failures != [] then 2 else 1
  {
    var stem := PyPath.Stem(inputJson);
    var a := PyPath.Join(outputFolder, stem + "_mapping.json");
    var b := PyPath.Join(outputFolder, stem + "_mapping_failed.json");
    assert |a| != |b|;
    var files := OutputFiles(outputFolder, inputJson, p);
    if p.failures != [] {
      assert files.Keys == {a, b};
    } else {
      assert files.Keys == {a};
    }
  }
}
