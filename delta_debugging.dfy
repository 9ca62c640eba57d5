/** qite/delta_debugging.py: the oracle that replays a transformation chain on
    a candidate QASM file and decides whether the same error came back, and
    the temporary files the minimisation works in. */
module DeltaDebugging {
  import opened Py
  import opened PyStr
  import PyPath

  /** run_qite_wrapper; `replayError` is the exception the replay raised, if
      any. `true` means "not reproduced": only an exception whose message
      holds a non-empty clue counts as the same failure. */
  function RunQiteWrapper(replayError: Option<Exception>, clue: Option<string>): (notReproduced: bool)
    ensures !notReproduced <==>
      replayError.Some? && clue.Some? && clue.value != "" && Contains(Message(replayError.value), clue.value)
  {
    match replayError
    case None => true
    case Some(e) => !(clue.Some? && clue.value != "" && Contains(Message(e), clue.value))
  }

  lemma {:induction false} ContainsSelf(s: string)
    ensures Contains(s, s)
  {
    assert s[0..] == s;
  }

  /** An exception with a non-empty message is recognised by its own
      message, while a missing or empty clue never recognises anything. */
  lemma {:induction false} OwnMessageIsClue(e: Exception, clue: Option<string>)
    ensures Message(e) != "" ==> !RunQiteWrapper(Some(e), Some(Message(e)))
    ensures clue.None? || clue == Some("") ==> RunQiteWrapper(Some(e), clue)
  {
    ContainsSelf(Message(e));
  }

  /** ask_user_to_confirm_clue: the stripped answer, or when it is empty the
      record's `error` field, or "" when the record has none. */
  function AskUserToConfirmClue(errorField: Option<string>, userInput: string): (clue: string)
    ensures Strip(userInput) != "" ==> clue == Strip(userInput)
    ensures Strip(userInput) == "" && errorField.Some? ==> clue == errorField.value
    ensures Strip(userInput) == "" && errorField.None? ==> clue == ""
  {
    var answer := Strip(userInput);
    if answer != "" then answer else match errorField case Some(c) => c case None => ""
  }

  /** The candidate file the replay reads. */
  function TestQasm(tmpdir: string): string { PyPath.Join(tmpdir, "test.qasm") }

  /** The metadata copy written to the temporary folder: the same record
      with `input_qasm` pointing at the candidate file. */
  function ReplayMetadata(metadata: map<string, string>, tmpdir: string): (m: map<string, string>)
    ensures m.Keys == metadata.Keys + {"input_qasm"}
    ensures m["input_qasm"] == TestQasm(tmpdir)
    ensures forall k :: k in metadata && k != "input_qasm" ==> m[k] == metadata[k]
  {
    metadata["input_qasm" := TestQasm(tmpdir)]
  }

  /** The minimised lines are written under the input file's own name. */
  function MinimizedQasmPath(outputFolder: string, inputQasm: string): (p: string)
    ensures PyPath.Name(p) == PyPath.Name(inputQasm)
  {
    PyPath.NameOfJoin(outputFolder, PyPath.Name(inputQasm));
    PyPath.Join(outputFolder, PyPath.Name(inputQasm))
  }

  /** The state `main` sets up: the files of the temporary folder, the
      confirmed clue, and the replay of the chain, which depends only on the
      text of the candidate file. */
  class DebugSession {
    var files: map<string, string>
    const tmpdir: string
    const clue: string
    const replay: string -> Option<Exception>

    constructor (tmpdir: string, clue: string, replay: string -> Option<Exception>)
      ensures this.tmpdir == tmpdir && this.clue == clue && this.replay == replay
      ensures files == map[]
    {
      this.tmpdir := tmpdir;
      this.clue := clue;
      this.replay := replay;
      files := map[];
    }

    /** The `test` closure: writes exactly the candidate lines to the file
        the replay metadata points at, then asks the oracle. */
    method Test(qasmLines: seq<string>) returns (notReproduced: bool)
      modifies this
      ensures files == old(files)[TestQasm(tmpdir) := Concat(qasmLines)]
      ensures notReproduced == RunQiteWrapper(replay(files[TestQasm(tmpdir)]), Some(clue))
    {
      files := files[TestQasm(tmpdir) := Concat(qasmLines)];
      notReproduced := RunQiteWrapper(replay(files[TestQasm(tmpdir)]), Some(clue));
    }
  }
}
