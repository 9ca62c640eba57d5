/** The verdicts of the quantum-circuit equivalence checker the harness
    calls, as the harness records them. The checker itself is not part of
    this model: callers pass what it returned or raised. */
module Qcec {
  import opened Py
  import opened PyStr

  datatype Equivalence =
    | NoInformation
    | NotEquivalent
    | Equivalent
    | EquivalentUpToGlobalPhase
    | EquivalentUpToPhase
    | ProbablyEquivalent
    | ProbablyNotEquivalent

  /** `str(result.equivalence)`. */
  function Text(e: Equivalence): string
  {
    match e
    case NoInformation => "no_information"
    case NotEquivalent => "not_equivalent"
    case Equivalent => "equivalent"
    case EquivalentUpToGlobalPhase => "equivalent_up_to_global_phase"
    case EquivalentUpToPhase => "equivalent_up_to_phase"
    case ProbablyEquivalent => "probably_equivalent"
    case ProbablyNotEquivalent => "probably_not_equivalent"
  }

  /** The recorded text names the verdict. */
  lemma {:induction false} TextInjective(a: Equivalence, b: Equivalence)
    ensures Text(a) == Text(b) ==> a == b
  {
  }

  /** The `equivalence` field of a log entry: the verdict's text, or
      `error: ` and the message when the checker raised. */
  function VerdictText(verdict: Result<Equivalence>): (t: string)
    ensures verdict.Err? <==> StartsWith(t, "error: ")
    ensures verdict.Err? ==> t[7..] == Message(verdict.exc)
  {
    match verdict
    case Ok(e) =>
      assert Text(e)[0] != 'e' || Text(e)[1] != 'r';
      Text(e)
    case Err(x) => "error: " + Message(x)
  }

  /** Equal texts mean equal verdicts, or two failures with one message. */
  lemma {:induction false} VerdictTextInjective(a: Result<Equivalence>, b: Result<Equivalence>)
    requires VerdictText(a) == VerdictText(b)
    ensures a.Ok? <==> b.Ok?
    ensures a.Ok? ==> a == b
    ensures a.Err? ==> Message(a.exc) == Message(b.exc)
  {
    if a.Ok? && b.Ok? { TextInjective(a.value, b.value); }
  }
}
