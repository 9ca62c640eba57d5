/** aiexchange/feedback/model_understanding.py: dropping the Markdown fence
    lines from a model's answer. */
module ModelUnderstanding {
  import opened PyStr
  import PySeq

  /** A line survives unless it opens or closes a fenced block. */
  predicate NotFence(line: string)
  {
    !StartsWith(line, "```")
  }

  /** remove_backticks_lines: the lines of `text` that do not start with
      three backticks, joined again by newlines. */
  function RemoveBackticksLines(text: string): string
  {
    Join("\n", PySeq.Filter(Split(text, '\n'), NotFence))
  }

  /** The lines of the result are exactly the kept lines of the input, in
      order; when every line was a fence the result is empty. */
  lemma {:induction false} KeptLines(text: string)
    ensures var kept := PySeq.Filter(Split(text, '\n'), NotFence);
      && (kept != [] ==> Split(RemoveBackticksLines(text), '\n') == kept)
      && (kept == [] ==> RemoveBackticksLines(text) == "")
  {
    var lines := Split(text, '\n');
    var kept := PySeq.Filter(lines, NotFence);
    SplitNoSep(text, '\n');
    PySeq.FilterSpec(lines, NotFence);
    if kept != [] {
      assert forall i :: 0 <= i < |kept| ==> kept[i] in kept;
      SplitJoin(kept, '\n');
    }
  }

  /** No line of the result starts with three backticks, and a line of the
      input that does not is in the result. */
  lemma {:induction false} NoFenceLeft(text: string)
    ensures forall l :: l in Split(RemoveBackticksLines(text), '\n') ==> NotFence(l)
    ensures forall l :: l in Split(text, '\n') && NotFence(l) ==> l in Split(RemoveBackticksLines(text), '\n')
  {
    var kept := PySeq.Filter(Split(text, '\n'), NotFence);
    KeptLines(text);
    PySeq.FilterSpec(Split(text, '\n'), NotFence);
    if kept == [] {
      assert Split("", '\n') == [""] by { NoSepNotFound("", '\n'); }
    }
  }

  /** Removing the fences twice is removing them once. */
  lemma {:induction false} RemoveBackticksIdempotent(text: string)
    ensures RemoveBackticksLines(RemoveBackticksLines(text)) == RemoveBackticksLines(text)
  {
    var kept := PySeq.Filter(Split(text, '\n'), NotFence);
    KeptLines(text);
    if kept != [] {
      PySeq.FilterIdempotent(Split(text, '\n'), NotFence);
    } else {
      assert Split("", '\n') == [""] by { NoSepNotFound("", '\n'); }
      assert PySeq.Filter([""], NotFence) == [""];
    }
  }
}
