/** qite/qite_loop.py: the QITE loop over a folder of QASM programs. The
    programs are sorted, optionally cut to a range of program ids, and each
    round hands every program of the round to one randomly picked platform
    processor; the programs the round produces, sorted, are the next
    round's input, and a stats line is appended after every round. A
    deadline stops the whole run before the next program. The processors
    themselves, the clock, the random draws, the coverage object and the
    ten-second worker process are outside the model: they are
    parameters. */
module QiteLoop {
  import opened Py
  import opened PyStr
  import PyPath
  import PySeq
  import opened Sorting

  /** The keys of PLATFORMS, in their order. */
  const Platforms: seq<string> := ["qiskit", "pytket", "pennylane", "bqskit"]
  const FolderMark := "{{FOLDER_WITH_DATA_FILE}}"
  const PlatformsMark := "{{PLATFORMS_PACKAGES}}"
  const NoDeadline := -1

  // The program id range

  /** `range[0] <= int(id) <= range[1]` for a non-empty range: the id that
      is no integer raises ValueError; a chained comparison that already
      fails on the left does not read `range[1]`, so a one-element range
      raises IndexError only for an id not below its bound. */
  function InRange(file: string, range: seq<int>): (r: Result<bool>)
    requires |range| >= 1
  {
    var token := PyStr.Split(PyPath.Stem(file), '_')[0];
    match IdOf(file)
    case None => Err(ValueError("invalid literal for int() with base 10: '" + token + "'"))
    case Some(id) =>
      if !(range[0] <= id) then Ok(false)
      else if |range| < 2 then Err(IndexError("list index out of range"))
      else Ok(id <= range[1])
  }

  /** A comprehension `[f for f in files if test(f)]` whose test can
      raise: the first error raised is the comprehension's. */
  function KeepBy(files: seq<string>, test: string -> Result<bool>): (r: Result<seq<string>>)
  {
    if files == [] then Ok([])
    else
      match test(files[0])
      case Err(e) => Err(e)
      case Ok(keep) =>
        match KeepBy(files[1..], test)
        case Err(e) => Err(e)
        case Ok(rest) => Ok((if keep then [files[0]] else []) + rest)
  }

  /** A test that raises for no file keeps, in order, exactly the files it
      passes. */
  lemma {:induction false} KeepBySpec(files: seq<string>, test: string -> Result<bool>)
    requires forall f :: f in files ==> test(f).Ok?
    ensures KeepBy(files, test).Ok?
    ensures PySeq.Subsequence(KeepBy(files, test).value, files)
    ensures forall f :: f in KeepBy(files, test).value <==> f in files && test(f) == Ok(true)
  {
    if files != [] {
      var tail := files[1..];
      assert forall f :: f in tail ==> f in files;
      KeepBySpec(tail, test);
      assert files == [files[0]] + tail;
      var kept := KeepBy(files, test).value;
      var rest := KeepBy(tail, test).value;
      if test(files[0]).value {
        assert kept == [files[0]] + rest;
        assert kept[1..] == rest;
      } else {
        assert kept == rest;
        PySeq.SubsequenceOfTail(kept, files);
      }
    }
  }

  /** The range comprehension. */
  function KeepInRange(files: seq<string>, range: seq<int>): (r: Result<seq<string>>)
    requires |range| >= 1
  {
    KeepBy(files, f => InRange(f, range))
  }

  /** `sorted(glob("*.qasm"))`, cut to the range when one is given; an empty
      range, like None, keeps every file. */
  function SelectFiles(qasmFiles: seq<string>, range: Option<seq<int>>): Result<seq<string>>
  {
    var files := SortStrings(qasmFiles);
    if range.None? || range.value == [] then Ok(files)
    else KeepInRange(files, range.value)
  }

  /** `int(stem.split('_')[0])`, None when it raises. */
  function IdOf(file: string): Option<int>
  {
    ParseInt(PyStr.Split(PyPath.Stem(file), '_')[0])
  }

  /** With a two-bound range and ids that all parse, the selection keeps a
      file iff its id lies between the bounds, both included, and keeps the
      kept files in their order. */
  lemma {:induction false} KeepInRangeSpec(files: seq<string>, lo: int, hi: int)
    requires forall i :: 0 <= i < |files| ==> IdOf(files[i]).Some?
    ensures KeepInRange(files, [lo, hi]).Ok?
    ensures var kept := KeepInRange(files, [lo, hi]).value;
      && PySeq.Subsequence(kept, files)
      && forall f :: f in kept <==> f in files && IdOf(f).Some? && lo <= IdOf(f).value <= hi
  {
    var test := f => InRange(f, [lo, hi]);
    forall f | f in files ensures test(f) == Ok(lo <= IdOf(f).value <= hi) {
    }
    KeepBySpec(files, test);
  }

  /** A one-element range raises IndexError as soon as a file's id is not
      below the bound, and keeps nothing before that. */
  lemma {:induction false} OneBoundRaises(file: string, lo: int, id: int)
    requires IdOf(file) == Some(id) && lo <= id
    ensures KeepInRange([file], [lo]) == Err(IndexError("list index out of range"))
  {
    assert InRange(file, [lo]) == Err(IndexError("list index out of range"));
  }

  // process_qasm_file

  /** What running the chosen processor in the worker gives: the returned
      path or None, an exception, or the ten-second timeout. */
  datatype Exec = Returned(path: Option<string>) | Raised(e: Exception) | TimedOut

  /** A processor as process_qasm_file builds it: its platform, its
      transformers in the order they are added, and its round. */
  datatype Setup = Setup(platform: string, transformers: seq<string>, round: int)

  /** `random.sample(pool, n)`: the `k`-th draw picks, among the elements
      not yet drawn, the one at `draw(k)` modulo their number. */
  function Sampled(pool: seq<string>, n: nat, draw: nat -> nat, k: nat): (r: seq<string>)
    requires n <= |pool|
    decreases n
  {
    if n == 0 then []
    else
      var j := draw(k) % |pool|;
      [pool[j]] + Sampled(pool[..j] + pool[j + 1..], n - 1, draw, k + 1)
  }

  /** The sample has `n` elements, all from the pool, and none twice when
      the pool has none twice. */
  lemma {:induction false} SampledSpec(pool: seq<string>, n: nat, draw: nat -> nat, k: nat)
    requires n <= |pool|
    ensures |Sampled(pool, n, draw, k)| == n
    ensures forall x :: x in Sampled(pool, n, draw, k) ==> x in pool
    ensures Distinct(pool) ==> Distinct(Sampled(pool, n, draw, k))
  {
    SampledLength(pool, n, draw, k);
    SampledFrom(pool, n, draw, k);
    if Distinct(pool) {
      SampledDistinct(pool, n, draw, k);
    }
  }

  lemma {:induction false} SampledLength(pool: seq<string>, n: nat, draw: nat -> nat, k: nat)
    requires n <= |pool|
    ensures |Sampled(pool, n, draw, k)| == n
    decreases n
  {
    if n > 0 {
      var j := draw(k) % |pool|;
      SampledLength(pool[..j] + pool[j + 1..], n - 1, draw, k + 1);
    }
  }

  lemma {:induction false} SampledFrom(pool: seq<string>, n: nat, draw: nat -> nat, k: nat)
    requires n <= |pool|
    ensures forall x :: x in Sampled(pool, n, draw, k) ==> x in pool
    decreases n
  {
    if n > 0 {
      var j := draw(k) % |pool|;
      var rest := pool[..j] + pool[j + 1..];
      SampledFrom(rest, n - 1, draw, k + 1);
      RemovedAt(pool, j);
    }
  }

  lemma {:induction false} SampledDistinct(pool: seq<string>, n: nat, draw: nat -> nat, k: nat)
    requires n <= |pool| && Distinct(pool)
    ensures Distinct(Sampled(pool, n, draw, k))
    decreases n
  {
    if n > 0 {
      var j := draw(k) % |pool|;
      var rest := pool[..j] + pool[j + 1..];
      RemovedAt(pool, j);
      RemovedAtDistinct(pool, j);
      SampledDistinct(rest, n - 1, draw, k + 1);
      SampledFrom(rest, n - 1, draw, k + 1);
      var tail := Sampled(rest, n - 1, draw, k + 1);
      assert Sampled(pool, n, draw, k) == [pool[j]] + tail;
      assert pool[j] !in tail;
    }
  }

  /** The pool without its element at `j` holds only elements of the pool. */
  lemma {:induction false} RemovedAt(pool: seq<string>, j: nat)
    requires j < |pool|
    ensures forall x :: x in pool[..j] + pool[j + 1..] ==> x in pool
  {
    var rest := pool[..j] + pool[j + 1..];
    forall x | x in rest ensures x in pool {
      var a :| 0 <= a < |rest| && rest[a] == x;
      var a' := if a < j then a else a + 1;
      assert rest[a] == pool[a'];
    }
  }

  /** Without its element at `j`, a pool with no element twice still has
      none twice, and no longer holds that element. */
  lemma {:induction false} RemovedAtDistinct(pool: seq<string>, j: nat)
    requires j < |pool| && Distinct(pool)
    ensures Distinct(pool[..j] + pool[j + 1..])
    ensures pool[j] !in pool[..j] + pool[j + 1..]
  {
    var rest := pool[..j] + pool[j + 1..];
    forall a, b | 0 <= a < b < |rest| ensures rest[a] != rest[b] {
      var a' := if a < j then a else a + 1;
      var b' := if b < j then b else b + 1;
      assert rest[a] == pool[a'] && rest[b] == pool[b'];
    }
    forall a | 0 <= a < |rest| ensures rest[a] != pool[j] {
      var a' := if a < j then a else a + 1;
      assert rest[a] == pool[a'];
    }
  }

  /** The transformers a processor gets: `n` sampled when fewer than all
      are asked for (a negative `n` makes the sample raise), all of them
      otherwise. */
  function Selected(ts: seq<string>, n: int, draw: nat -> nat): Result<seq<string>>
  {
    if n < |ts| then
      if n < 0 then Err(ValueError("Sample larger than population or is negative"))
      else Ok(Sampled(ts, n, draw, 0))
    else Ok(ts)
  }

  /** Asking for fewer than all gives that many distinct transformers of
      the platform; asking for all or more gives each once, in order. */
  lemma {:induction false} SelectedSpec(ts: seq<string>, n: int, draw: nat -> nat)
    requires Distinct(ts)
    ensures 0 <= n < |ts| ==> var r := Selected(ts, n, draw);
      && r.Ok? && |r.value| == n && Distinct(r.value) && forall x :: x in r.value ==> x in ts
    ensures n >= |ts| ==> Selected(ts, n, draw) == Ok(ts)
    ensures n < 0 ==> Selected(ts, n, draw).Err?
  {
    if 0 <= n < |ts| {
      SampledSpec(ts, n, draw, 0);
    }
  }

  /** The processors built for the platforms from the `i`-th on: an unknown
      platform raises KeyError, a failing sample its ValueError. */
  function Processors(platforms: seq<string>, known: map<string, seq<string>>, n: int, round: int,
                      draw: (nat, nat) -> nat, i: nat): Result<seq<Setup>>
    requires i <= |platforms|
    decreases |platforms| - i
  {
    if i == |platforms| then Ok([])
    else if platforms[i] !in known then Err(KeyError(platforms[i]))
    else
      match Selected(known[platforms[i]], n, k => draw(i, k))
      case Err(e) => Err(e)
      case Ok(ts) =>
        match Processors(platforms, known, n, round, draw, i + 1)
        case Err(e) => Err(e)
        case Ok(rest) => Ok([Setup(platforms[i], ts, round)] + rest)
  }

  /** What the worker's outcome becomes: a non-empty returned path, and
      None for an empty or missing path, any exception and the timeout. */
  function Outcome(x: Exec): Option<string>
  {
    if x.Returned? && x.path.Some? && x.path.value != "" then Some(x.path.value) else None
  }

  /** process_qasm_file: building the processors and choosing one can
      raise; running the chosen one cannot. */
  function ProcessQasmFile(platforms: seq<string>, known: map<string, seq<string>>, n: int, round: int,
                           draw: (nat, nat) -> nat, choice: nat, run: Setup -> Exec): Result<Option<string>>
  {
    match Processors(platforms, known, n, round, draw, 0)
    case Err(e) => Err(e)
    case Ok(ps) =>
      if ps == [] then Err(IndexError("Cannot choose from an empty sequence"))
      else Ok(Outcome(run(ps[choice % |ps|])))
  }

  /** The processor loop, each processor built from the platform's
      transformers. */
  method BuildProcessors(platforms: seq<string>, known: map<string, seq<string>>, n: int, round: int,
                         draw: (nat, nat) -> nat) returns (r: Result<seq<Setup>>)
    ensures r == Processors(platforms, known, n, round, draw, 0)
  {
    var ps: seq<Setup> := [];
    PrependEmpty(Processors(platforms, known, n, round, draw, 0));
    for i := 0 to |platforms|
      invariant Processors(platforms, known, n, round, draw, 0) == Prepend(ps, Processors(platforms, known, n, round, draw, i))
    {
      if platforms[i] !in known {
        return Err(KeyError(platforms[i]));
      }
      var ts := Selected(known[platforms[i]], n, k => draw(i, k));
      if ts.Err? {
        return Err(ts.exc);
      }
      PrependPrepend(ps, [Setup(platforms[i], ts.value, round)], Processors(platforms, known, n, round, draw, i + 1));
      ps := ps + [Setup(platforms[i], ts.value, round)];
    }
    assert ps + [] == ps;
    r := Ok(ps);
  }

  /** The exceptions of the worker, its timeout and an empty result all
      become None; a result path is returned as it is. */
  lemma {:induction false} ProcessSwallowsRunErrors(platforms: seq<string>, known: map<string, seq<string>>, n: int, round: int,
                                 draw: (nat, nat) -> nat, choice: nat, run: Setup -> Exec)
    requires Processors(platforms, known, n, round, draw, 0).Ok? && Processors(platforms, known, n, round, draw, 0).value != []
    ensures var r := ProcessQasmFile(platforms, known, n, round, draw, choice, run);
      var ps := Processors(platforms, known, n, round, draw, 0).value;
      var x := run(ps[choice % |ps|]);
      && r.Ok?
      && (r.value.Some? <==> x.Returned? && x.path.Some? && x.path.value != "")
      && (r.value.Some? ==> r.value == x.path)
  {
  }

  /** Known platforms and a non-negative count build one processor per
      platform, in order. */
  lemma {:induction false} ProcessorsSpec(platforms: seq<string>, known: map<string, seq<string>>, n: int, round: int,
                                          draw: (nat, nat) -> nat, i: nat)
    requires i <= |platforms| && n >= 0
    requires forall j :: i <= j < |platforms| ==> platforms[j] in known
    ensures var r := Processors(platforms, known, n, round, draw, i);
      && r.Ok? && |r.value| == |platforms| - i
      && forall j :: 0 <= j < |r.value| ==> r.value[j].platform == platforms[i + j] && r.value[j].round == round
    decreases |platforms| - i
  {
    if i < |platforms| {
      ProcessorsSpec(platforms, known, n, round, draw, i + 1);
    }
  }

  // The rounds

  /** How a round ends: with the programs it produced, by the deadline, or
      with an exception that leaves the loop. */
  datatype RoundEnd = Finished(outputs: seq<string>) | Exited | Failed(e: Exception)

  function PrependEnd(done: seq<string>, e: RoundEnd): RoundEnd
  {
    if e.Finished? then Finished(done + e.outputs) else e
  }

  /** Round `round` (counted from 0) from its `i`-th program on; `now(round,
      i)` is the clock when the `i`-th program is reached and `process(r, f)`
      what process_qasm_file gives for program `f` in round `r` (counted
      from 1). */
  function Round(files: seq<string>, round: nat, i: nat, process: (nat, string) -> Result<Option<string>>,
                 now: (nat, nat) -> int, deadline: int): RoundEnd
    requires i <= |files|
    decreases |files| - i
  {
    if i == |files| then Finished([])
    else if deadline != NoDeadline && now(round, i) > deadline then Exited
    else
      match process(round + 1, files[i])
      case Err(e) => Failed(e)
      case Ok(out) =>
        PrependEnd(if out.Some? then [out.value] else [], Round(files, round, i + 1, process, now, deadline))
  }

  /** How the whole run ends. */
  datatype RunEnd = Completed | Stopped | Crashed(e: Exception)

  /** The rounds from `round` on, starting from `files`: the stats entries
      `(round, n_program)` appended, and how the run ends. */
  function Rounds(files: seq<string>, round: nat, total: int, process: (nat, string) -> Result<Option<string>>,
                  now: (nat, nat) -> int, deadline: int): (seq<(nat, nat)>, RunEnd)
    decreases total - round
  {
    if round >= total then ([], Completed)
    else
      match Round(files, round, 0, process, now, deadline)
      case Exited => ([], Stopped)
      case Failed(e) => ([], Crashed(e))
      case Finished(outs) =>
        var next := SortStrings(outs);
        var rest := Rounds(next, round + 1, total, process, now, deadline);
        ([(round + 1, |next|)] + rest.0, rest.1)
  }

  /** The stats line of an entry. */
  function StatsLine(entry: (nat, nat)): string
  {
    "{\"round\": " + NatToString(entry.0) + ", \"n_program\": " + NatToString(entry.1) + "}\n"
  }

  lemma {:induction false} PrependEndAssoc(a: seq<string>, b: seq<string>, e: RoundEnd)
    ensures PrependEnd(a, PrependEnd(b, e)) == PrependEnd(a + b, e)
  {
    if e.Finished? {
      assert a + (b + e.outputs) == (a + b) + e.outputs;
    }
  }

  /** One round over its programs. */
  method RunRound(files: seq<string>, round: nat, process: (nat, string) -> Result<Option<string>>,
                  now: (nat, nat) -> int, deadline: int) returns (e: RoundEnd)
    ensures e == Round(files, round, 0, process, now, deadline)
  {
    var generated: seq<string> := [];
    for i := 0 to |files|
      invariant Round(files, round, 0, process, now, deadline) == PrependEnd(generated, Round(files, round, i, process, now, deadline))
    {
      if deadline != NoDeadline && now(round, i) > deadline {
        return Exited;
      }
      var out := process(round + 1, files[i]);
      if out.Err? {
        return Failed(out.exc);
      }
      var more := if out.value.Some? then [out.value.value] else [];
      PrependEndAssoc(generated, more, Round(files, round, i + 1, process, now, deadline));
      generated := generated + more;
    }
    assert generated + [] == generated;
    e := Finished(generated);
  }

  /** A round that finishes adds its stats entry and hands its sorted
      programs to the next round. */
  lemma {:induction false} RoundsStep(files: seq<string>, round: nat, total: int, process: (nat, string) -> Result<Option<string>>,
                   now: (nat, nat) -> int, deadline: int, outs: seq<string>)
    requires round < total && Round(files, round, 0, process, now, deadline) == Finished(outs)
    ensures var next := SortStrings(outs);
      var rest := Rounds(next, round + 1, total, process, now, deadline);
      Rounds(files, round, total, process, now, deadline) == ([(round + 1, |next|)] + rest.0, rest.1)
  {
  }

  /** The rounds from the first on. */
  method RunRounds(files: seq<string>, numberOfRounds: int, process: (nat, string) -> Result<Option<string>>,
                   now: (nat, nat) -> int, deadline: int)
    returns (end: RunEnd, stats: seq<(nat, nat)>)
    ensures (stats, end) == Rounds(files, 0, numberOfRounds, process, now, deadline)
  {
    var current := files;
    stats := [];
    var round: nat := 0;
    while round < numberOfRounds
      invariant Rounds(files, 0, numberOfRounds, process, now, deadline).0
                == stats + Rounds(current, round, numberOfRounds, process, now, deadline).0
      invariant Rounds(files, 0, numberOfRounds, process, now, deadline).1
                == Rounds(current, round, numberOfRounds, process, now, deadline).1
      decreases numberOfRounds - round
    {
      var e := RunRound(current, round, process, now, deadline);
      if !e.Finished? {
        assert stats + [] == stats;
        return if e.Exited? then Stopped else Crashed(e.e), stats;
      }
      var next := SortStrings(e.outputs);
      RoundsStep(current, round, numberOfRounds, process, now, deadline, e.outputs);
      ghost var rest := Rounds(next, round + 1, numberOfRounds, process, now, deadline);
      assert stats + ([(round + 1, |next|)] + rest.0) == (stats + [(round + 1, |next|)]) + rest.0;
      stats := stats + [(round + 1, |next|)];
      current := next;
      round := round + 1;
    }
    assert stats + [] == stats;
    end := Completed;
  }

  /** apply_qite_algorithm: the selection, then the rounds; the stats
      entries are the lines appended to `_qite_stats.txt`. */
  method ApplyQiteAlgorithm(qasmFiles: seq<string>, numberOfRounds: int, range: Option<seq<int>>,
                            process: (nat, string) -> Result<Option<string>>, now: (nat, nat) -> int, deadline: int)
    returns (end: RunEnd, stats: seq<(nat, nat)>)
    ensures SelectFiles(qasmFiles, range).Err? ==> end == Crashed(SelectFiles(qasmFiles, range).exc) && stats == []
    ensures SelectFiles(qasmFiles, range).Ok? ==>
      (stats, end) == Rounds(SelectFiles(qasmFiles, range).value, 0, numberOfRounds, process, now, deadline)
  {
    var selected := SelectFiles(qasmFiles, range);
    if selected.Err? {
      return Crashed(selected.exc), [];
    }
    end, stats := RunRounds(selected.value, numberOfRounds, process, now, deadline);
  }

  /** A round produces at most one program per input program, every one
      a path some call returned; without a deadline it never exits. */
  lemma {:induction false} RoundSpec(files: seq<string>, round: nat, i: nat, process: (nat, string) -> Result<Option<string>>,
                                     now: (nat, nat) -> int, deadline: int)
    requires i <= |files|
    ensures var e := Round(files, round, i, process, now, deadline);
      && (e.Finished? ==> |e.outputs| <= |files| - i)
      && (e.Exited? ==> deadline != NoDeadline && exists j :: i <= j < |files| && now(round, j) > deadline)
      && (e.Failed? ==> exists j :: i <= j < |files| && process(round + 1, files[j]) == Err(e.e))
    decreases |files| - i
  {
    if i < |files| {
      RoundSpec(files, round, i + 1, process, now, deadline);
    }
  }

  /** The stats entries number the completed rounds 1, 2, … and their
      program counts never grow from one round to the next, the first not
      beyond the selected files. */
  lemma {:induction false} RoundsSpec(files: seq<string>, round: nat, total: int, process: (nat, string) -> Result<Option<string>>,
                                      now: (nat, nat) -> int, deadline: int)
    ensures var stats := Rounds(files, round, total, process, now, deadline).0;
      && (forall j :: 0 <= j < |stats| ==> stats[j].0 == round + j + 1)
      && (stats != [] ==> stats[0].1 <= |files|)
      && (forall j :: 0 <= j < |stats| - 1 ==> stats[j + 1].1 <= stats[j].1)
      && (round < total ==> |stats| <= total - round)
    decreases total - round
  {
    if round < total {
      RoundSpec(files, round, 0, process, now, deadline);
      var e := Round(files, round, 0, process, now, deadline);
      if e.Finished? {
        var next := SortStrings(e.outputs);
        RoundsSpec(next, round + 1, total, process, now, deadline);
        var rest := Rounds(next, round + 1, total, process, now, deadline).0;
        var stats := Rounds(files, round, total, process, now, deadline).0;
        assert stats == [(round + 1, |next|)] + rest;
        forall j | 0 <= j < |stats| ensures stats[j].0 == round + j + 1 {
          if j > 0 {
            assert stats[j] == rest[j - 1];
          }
        }
        forall j | 0 <= j < |stats| - 1 ensures stats[j + 1].1 <= stats[j].1 {
          if j > 0 {
            assert stats[j] == rest[j - 1] && stats[j + 1] == rest[j];
          }
        }
      }
    }
  }

  // The coverage configuration

  /** prepare_coverage_file: the template with the data folder and the
      platforms joined by commas filled in. */
  function CoverageConfig(template: string, folder: string, platforms: seq<string>): string
  {
    ReplaceAll(ReplaceAll(template, FolderMark, folder), PlatformsMark, Join(",", platforms))
  }

  /** A template without the placeholders is written as it is. */
  lemma {:induction false} CoverageConfigPlain(template: string, folder: string, platforms: seq<string>)
    requires '{' !in template
    ensures CoverageConfig(template, folder, platforms) == template
  {
    ContainsChar(template, '{');
    NoBraceNoMark(template, FolderMark);
    ReplaceAbsent(template, FolderMark, folder);
    NoBraceNoMark(template, PlatformsMark);
    ReplaceAbsent(template, PlatformsMark, Join(",", platforms));
  }

  /** A mark starting with `{` does not occur in a text without one. */
  lemma {:induction false} NoBraceNoMark(s: string, mark: string)
    requires mark != [] && mark[0] == '{' && '{' !in s
    ensures !Contains(s, mark)
  {
  }

  /** A template ending in the platforms placeholder, with no brace before
      it, ends in the platform list instead. */
  lemma {:induction false} CoverageConfigPlatforms(p: string, folder: string, platforms: seq<string>)
    requires '{' !in p
    ensures CoverageConfig(p + PlatformsMark, folder, platforms) == p + Join(",", platforms)
  {
    var t := p + PlatformsMark;
    forall j | 0 <= j <= |t| ensures !StartsWith(t[j..], FolderMark) {
      if j < |p| && |FolderMark| <= |t[j..]| {
        assert t[j..][0] == p[j] != '{';
      }
    }
    ReplaceAbsent(t, FolderMark, folder);
    ReplaceAtEnd(p, PlatformsMark, Join(",", platforms));
  }

  // main

  /** The configured platforms that PLATFORMS knows, in configured order. */
  function PlatformsToRun(selected: seq<string>): seq<string>
  {
    PySeq.Filter(selected, p => p in Platforms)
  }

  /** Exactly the known configured platforms are run, in the configured
      order. */
  lemma {:induction false} PlatformsToRunSpec(selected: seq<string>)
    ensures forall p :: p in PlatformsToRun(selected) <==> p in selected && p in Platforms
    ensures PySeq.Subsequence(PlatformsToRun(selected), selected)
  {
    PySeq.FilterSpec(selected, p => p in Platforms);
    PySeq.FilterSubsequence(selected, p => p in Platforms);
  }

  /** The keys main reads from the YAML configuration, absent ones as
      None. */
  datatype Config = Config(inputFolder: Option<string>, numberOfRounds: Option<int>, nTransformIter: Option<int>,
                           platforms: Option<seq<string>>, programIdRange: Option<seq<int>>,
                           endTimestamp: Option<int>)

  /** What main does. */
  datatype MainAction =
    | ExitEarly
    | NoConfig
    | Apply(inputFolder: string, numberOfRounds: int, nTransformIter: int, platforms: seq<string>,
            range: Option<seq<int>>, deadline: int)

  /** main: a deadline already past exits at once; without a config file
      nothing runs; otherwise the config's values override the options. */
  function Main(inputFolder: string, numberOfRounds: int, nTransformIter: int, config: Option<Config>,
                deadline: int, now: int): MainAction
  {
    if deadline != NoDeadline && now > deadline then ExitEarly
    else if config.None? then NoConfig
    else
      var c := config.value;
      Apply(if c.inputFolder.Some? then c.inputFolder.value else inputFolder,
            if c.numberOfRounds.Some? then c.numberOfRounds.value else numberOfRounds,
            if c.nTransformIter.Some? then c.nTransformIter.value else nTransformIter,
            PlatformsToRun(if c.platforms.Some? then c.platforms.value else []),
            c.programIdRange,
            if c.endTimestamp.Some? then c.endTimestamp.value else deadline)
  }

  /** A configured run uses only known platforms, and none when the
      configuration names none. */
  lemma {:induction false} MainPlatformsKnown(inputFolder: string, numberOfRounds: int, nTransformIter: int, c: Config,
                           deadline: int, now: int)
    requires !(deadline != NoDeadline && now > deadline)
    ensures var a := Main(inputFolder, numberOfRounds, nTransformIter, Some(c), deadline, now);
      && a.Apply?
      && (forall p :: p in a.platforms ==> p in Platforms)
      && (c.platforms.None? ==> a.platforms == [])
  {
    PlatformsToRunSpec(if c.platforms.Some? then c.platforms.value else []);
  }
}
