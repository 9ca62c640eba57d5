/** generators/strategies/llm_generator.py, LLMGenerationStrategy: the
    program text a language model answers is cleaned of its Markdown code
    fence, its top-level imports are each wrapped in a try/except that
    prints the error, and failed model calls are retried until ten in a
    row have failed. The model call, the random seed it is given, the
    sixty-second wait and Python's parser and unparser are outside the
    model: they are parameters. */
module LlmGenerator {
  import opened Py
  import opened PyStr

  const Fence := "```"
  const MaxRetries := 10

  // _clean_tags

  /** _clean_tags: strip; a leading fence drops everything through the
      first newline (nothing when there is none, as `find` gives -1); a
      trailing fence drops everything from the last newline on (only the
      last character when there is none, as `rfind` gives -1). */
  function CleanTags(text: string): string
  {
    var t := Strip(text);
    var t' := if StartsWith(t, Fence) then t[Find(t, "\n") + 1..] else t;
    if EndsWith(t', Fence) then
      var k := RFind(t', '\n');
      if k >= 0 then t'[..k] else t'[..|t'| - 1]
    else t'
  }

  lemma {:induction false} StripUnchanged(s: string)
    requires s != [] && !IsSpace(s[0]) && !IsSpace(s[|s| - 1])
    ensures Strip(s) == s
  {
  }

  /** `find("\n")` is the first newline. */
  lemma {:induction false} FindNewline(s: string, k: int)
    requires -1 <= k < |s|
    requires k >= 0 ==> s[k] == '\n'
    requires forall j :: 0 <= j < |s| && (k < 0 || j < k) ==> s[j] != '\n'
    ensures Find(s, "\n") == k
  {
    var r := Find(s, "\n");
    if r >= 0 {
      assert s[r..][0] == s[r];
    }
    if k >= 0 {
      assert s[k..][..1] == "\n";
    }
  }

  /** `rfind("\n")` is the last newline. */
  lemma {:induction false} RFindNewline(s: string, k: int)
    requires -1 <= k < |s|
    requires k >= 0 ==> s[k] == '\n'
    requires forall j :: k < j < |s| ==> s[j] != '\n'
    ensures RFind(s, '\n') == k
  {
    RFindSpec(s, '\n');
  }

  /** A fenced answer comes back as its body: for any language tag
      without a newline and any body, cleaning
      "```tag\n" + body + "\n```" gives the body. */
  lemma {:induction false} CleanFenced(tag: string, body: string)
    requires '\n' !in tag
    ensures CleanTags(Fence + tag + "\n" + body + "\n" + Fence) == body
  {
    var text := Fence + tag + "\n" + body + "\n" + Fence;
    StripUnchanged(text);
    assert text[..3] == Fence;
    var k := |Fence + tag|;
    FindNewline(text, k);
    var t' := text[k + 1..];
    assert t' == body + "\n" + Fence;
    assert t'[|t'| - 3..] == Fence;
    RFindNewline(t', |body|);
    assert t'[..|body|] == body;
  }

  /** Text without fences is only stripped. */
  lemma {:induction false} CleanUnfenced(text: string)
    requires !StartsWith(Strip(text), Fence) && !EndsWith(Strip(text), Fence)
    ensures CleanTags(text) == Strip(text)
  {
  }

  /** A lone fence loses only its last character. */
  lemma {:induction false} CleanLoneFence()
    ensures CleanTags(Fence) == "``"
  {
    StripUnchanged(Fence);
    FindNewline(Fence, -1);
    assert Fence[0..] == Fence;
    RFindNewline(Fence, -1);
  }

  // _surround_imports_with_try_except

  /** A top-level statement of the parsed program. */
  datatype Stmt =
    | Import(text: string)              // `import …`
    | ImportFrom(text: string)          // `from … import …`
    | TryPrint(body: seq<Stmt>)         // try: body / except Exception as e: print(e)
    | Other(text: string)

  predicate IsImport(s: Stmt) { s.Import? || s.ImportFrom? }

  function Wrap(s: Stmt): Stmt
  {
    if IsImport(s) then TryPrint([s]) else s
  }

  /** Every top-level statement with its imports wrapped. */
  function WrapAll(body: seq<Stmt>): (r: seq<Stmt>)
    ensures |r| == |body|
  {
    seq(|body|, i requires 0 <= i < |body| => Wrap(body[i]))
  }

  /** The loop over `root.body`, replacing each import by its try block in
      place. */
  method WrapImports(body: seq<Stmt>) returns (r: seq<Stmt>)
    ensures r == WrapAll(body)
  {
    r := body;
    for i := 0 to |r|
      invariant |r| == |body|
      invariant forall j :: 0 <= j < i ==> r[j] == Wrap(body[j])
      invariant forall j :: i <= j < |r| ==> r[j] == body[j]
    {
      if IsImport(r[i]) {
        r := r[i := TryPrint([r[i]])];
      }
    }
  }

  /** The wrapped program has no top-level import left, keeps every other
      statement where it was, and each import sits alone in a try block at
      its old place. */
  lemma {:induction false} WrapAllSpec(body: seq<Stmt>)
    ensures forall i :: 0 <= i < |body| ==> !IsImport(WrapAll(body)[i])
    ensures forall i :: 0 <= i < |body| && !IsImport(body[i]) ==> WrapAll(body)[i] == body[i]
    ensures forall i :: 0 <= i < |body| && IsImport(body[i]) ==> WrapAll(body)[i] == TryPrint([body[i]])
  {
  }

  /** Wrapping twice wraps nothing more. */
  lemma {:induction false} WrapAllIdempotent(body: seq<Stmt>)
    ensures WrapAll(WrapAll(body)) == WrapAll(body)
  {
    WrapAllSpec(body);
  }

  /** _surround_imports_with_try_except: a program that does not parse, or
      whose tree does not unparse, comes back unchanged. */
  function Surround(code: string, parse: string -> Option<seq<Stmt>>, unparse: seq<Stmt> -> Option<string>): string
  {
    match parse(code)
    case None => code
    case Some(root) =>
      match unparse(WrapAll(root))
      case None => code
      case Some(text) => text
  }

  method SurroundImports(code: string, parse: string -> Option<seq<Stmt>>, unparse: seq<Stmt> -> Option<string>)
    returns (r: string)
    ensures r == Surround(code, parse, unparse)
  {
    var root := parse(code);
    if root.None? {
      return code;
    }
    var wrapped := WrapImports(root.value);
    var text := unparse(wrapped);
    r := if text.Some? then text.value else code;
  }

  /** Unparsable code is left as it is; parsable code is the unparsed
      tree of a program without top-level imports that has as many
      statements. */
  lemma {:induction false} SurroundSpec(code: string, parse: string -> Option<seq<Stmt>>, unparse: seq<Stmt> -> Option<string>)
    ensures parse(code).None? ==> Surround(code, parse, unparse) == code
    ensures parse(code).Some? && unparse(WrapAll(parse(code).value)).Some? ==>
              exists wrapped :: && |wrapped| == |parse(code).value|
                                && (forall i :: 0 <= i < |wrapped| ==> !IsImport(wrapped[i]))
                                && unparse(wrapped).Some? && Surround(code, parse, unparse) == unparse(wrapped).value
  {
    if parse(code).Some? {
      WrapAllSpec(parse(code).value);
    }
  }

  // generate

  /** The strategy's retry counter. */
  class LlmGenerationStrategy {
    var retries: int

    constructor()
      ensures retries == 0
    {
      retries := 0;
    }

    /** generate: `call(k)` is the model's k-th answer in this call, or the
        error it raised. A success resets the counter and returns the
        cleaned, wrapped program; a failure adds one to the counter and is
        raised once the counter reaches ten, otherwise the call is
        retried. */
    method Generate(call: nat -> Result<string>, parse: string -> Option<seq<Stmt>>, unparse: seq<Stmt> -> Option<string>)
      returns (r: Result<string>, calls: nat)
      modifies this
      ensures calls >= 1 && forall k :: 0 <= k < calls - 1 ==> call(k).Err?
      ensures calls >= 2 ==> old(retries) + calls - 1 < MaxRetries
      ensures call(calls - 1).Ok? ==>
                r == Ok(Surround(CleanTags(call(calls - 1).value), parse, unparse)) && retries == 0
      ensures call(calls - 1).Err? ==>
                r == Err(call(calls - 1).exc) && retries == old(retries) + calls && retries >= MaxRetries
    {
      calls := 0;
      while true
        invariant retries == old(retries) + calls
        invariant forall k :: 0 <= k < calls ==> call(k).Err?
        invariant calls >= 1 ==> retries < MaxRetries
        decreases MaxRetries - retries
      {
        var answer := call(calls);
        calls := calls + 1;
        if answer.Ok? {
          retries := 0;
          var code := CleanTags(answer.value);
          code := SurroundImports(code, parse, unparse);
          return Ok(code), calls;
        }
        retries := retries + 1;
        if retries >= MaxRetries {
          return Err(answer.exc), calls;
        }
      }
    }
  }

  /** From a fresh counter, ten failures in a row are raised, and nine are
      retried. */
  method TenFailuresRaise(call: nat -> Result<string>, parse: string -> Option<seq<Stmt>>, unparse: seq<Stmt> -> Option<string>)
    returns (r: Result<string>, calls: nat)
    requires forall k :: 0 <= k < MaxRetries ==> call(k).Err?
    ensures r == Err(call(MaxRetries - 1).exc) && calls == MaxRetries
  {
    var s := new LlmGenerationStrategy();
    r, calls := s.Generate(call, parse, unparse);
    assert calls <= MaxRetries;
  }
}
