/** Numbered output files: the generators and the coverage runner name
    what they write with a zero-padded counter, and continue from the
    highest number already present in the output folder. */
module Numbering {
  import opened Py
  import opened PyStr

  /** `name.split("_")[0]`. */
  function FirstToken(name: string): string
  {
    Before(name, "_")
  }

  /** `int(name.split("_")[0])`, or the ValueError `int` raises. */
  function TokenNumber(name: string): Result<int>
  {
    var t := FirstToken(name);
    match ParseInt(t)
    case Some(n) => Ok(n)
    case None => Err(ValueError("invalid literal for int() with base 10: '" + t + "'"))
  }

  function Max(a: int, b: int): int
  {
    if a >= b then a else b
  }

  /** `0 if not nums else max(nums)`, the numbers read in order, so the
      first that failed to read raises. */
  function Latest(nums: seq<Result<int>>): Result<int>
    decreases |nums|
  {
    if nums == [] then Ok(0)
    else if |nums| == 1 then nums[0]
    else
      var m :- Latest(nums[..|nums| - 1]);
      var n :- nums[|nums| - 1];
      Ok(Max(m, n))
  }

  /** `[f(x) for x in s]`, element by element. */
  function Apply<A, B>(f: A -> B, s: seq<A>): (r: seq<B>)
    ensures |r| == |s|
  {
    seq(|s|, i requires 0 <= i < |s| => f(s[i]))
  }

  lemma {:induction false} ApplyAppend<A, B>(f: A -> B, a: seq<A>, b: seq<A>)
    ensures Apply(f, a + b) == Apply(f, a) + Apply(f, b)
  {
  }

  /** The number of each name, in order. */
  function Numbers(stems: seq<string>): (r: seq<Result<int>>)
    ensures |r| == |stems|
  {
    Apply(TokenNumber, stems)
  }

  /** `0 if not stems else max(int(s.split("_")[0]) for s in stems)`. */
  function LatestIndex(stems: seq<string>): Result<int>
  {
    Latest(Numbers(stems))
  }

  /** The maximum fails iff some number failed to read; otherwise it is
      one of the numbers, and none is higher. */
  lemma {:induction false} LatestSpec(nums: seq<Result<int>>)
    ensures Latest(nums).Err? <==> exists i :: 0 <= i < |nums| && nums[i].Err?
    ensures Latest(nums).Ok? && nums != [] ==> exists i :: 0 <= i < |nums| && nums[i] == Latest(nums)
    ensures Latest(nums).Ok? ==> forall i :: 0 <= i < |nums| ==> nums[i].Ok? && nums[i].value <= Latest(nums).value
    decreases |nums|
  {
    if |nums| > 1 {
      var init := nums[..|nums| - 1];
      LatestSpec(init);
      assert forall i :: 0 <= i < |init| ==> init[i] == nums[i];
      if Latest(nums).Ok? {
        var m := Latest(init).value;
        var j :| 0 <= j < |init| && init[j] == Ok(m);
        if nums[|nums| - 1].value <= m {
          assert nums[j] == Latest(nums);
        }
      } else if Latest(init).Ok? {
        assert nums[|nums| - 1].Err?;
      }
    }
  }

  /** `get_latest_py_index` over the names of a folder: 0 for none;
      otherwise it fails iff some name does not start with an integer,
      and else it is the number of some name and no name's number is
      higher. */
  lemma {:induction false} LatestIndexSpec(stems: seq<string>)
    ensures stems == [] ==> LatestIndex(stems) == Ok(0)
    ensures LatestIndex(stems).Err? <==> exists i :: 0 <= i < |stems| && TokenNumber(stems[i]).Err?
    ensures LatestIndex(stems).Err? ==> exists i :: 0 <= i < |stems| && TokenNumber(stems[i]) == LatestIndex(stems)
    ensures LatestIndex(stems).Ok? ==>
              && (forall i :: 0 <= i < |stems| ==> TokenNumber(stems[i]).Ok? && TokenNumber(stems[i]).value <= LatestIndex(stems).value)
              && (stems != [] ==> exists i :: 0 <= i < |stems| && TokenNumber(stems[i]) == LatestIndex(stems))
  {
    var nums := Numbers(stems);
    LatestSpec(nums);
    assert forall i :: 0 <= i < |stems| ==> nums[i] == TokenNumber(stems[i]);
    if LatestIndex(stems).Err? {
      LatestFirstErr(nums);
    }
  }

  /** A failed maximum is the failure of some number. */
  lemma {:induction false} LatestFirstErr(nums: seq<Result<int>>)
    requires Latest(nums).Err?
    ensures exists i :: 0 <= i < |nums| && nums[i] == Latest(nums)
    decreases |nums|
  {
    if |nums| > 1 {
      var init := nums[..|nums| - 1];
      assert forall i :: 0 <= i < |init| ==> init[i] == nums[i];
      if Latest(init).Err? {
        LatestFirstErr(init);
      } else {
        assert nums[|nums| - 1] == Latest(nums);
      }
    }
  }

  /** One more number. */
  lemma {:induction false} LatestSnoc(nums: seq<Result<int>>, x: Result<int>)
    ensures Latest(nums + [x]) == if nums == [] then x
                                 else if Latest(nums).Err? then Latest(nums)
                                 else if x.Err? then x
                                 else Ok(Max(Latest(nums).value, x.value))
  {
    assert (nums + [x])[..|nums|] == nums;
  }

  /** Two runs of numbers read one after the other: a failure of the
      first is the failure, then one of the second; otherwise the larger
      maximum. */
  lemma {:induction false} LatestConcat(a: seq<Result<int>>, b: seq<Result<int>>)
    ensures Latest(a + b) == if b == [] then Latest(a)
                             else if a == [] then Latest(b)
                             else if Latest(a).Err? then Latest(a)
                             else if Latest(b).Err? then Latest(b)
                             else Ok(Max(Latest(a).value, Latest(b).value))
    decreases |b|
  {
    if b == [] {
      assert a + b == a;
    } else if a == [] {
      assert a + b == b;
    } else {
      var init, x := b[..|b| - 1], b[|b| - 1];
      assert b == init + [x];
      assert a + b == (a + init) + [x];
      LatestConcat(a, init);
      LatestSnoc(a + init, x);
      LatestSnoc(init, x);
    }
  }

  /** `str(n).zfill(width)`: zeros go after a minus sign. */
  function ZFill(n: int, width: nat): string
  {
    if n >= 0 then ZeroPad(n, width)
    else "-" + ZeroPad(-n, if width > 0 then width - 1 else 0)
  }

  /** A name made of a zero-padded number, `_` and any suffix reads back
      as that number. */
  lemma {:induction false} NumberOfName(n: nat, width: nat, suffix: string)
    ensures TokenNumber(ZFill(n, width) + "_" + suffix) == Ok(n)
  {
    var p := ZeroPad(n, width);
    ZeroPadSpec(n, width);
    assert '_' !in p by {
      forall i | 0 <= i < |p| ensures p[i] != '_' {
        assert IsDigit(p[i]);
      }
    }
    BeforeCons(p, '_', suffix);
    assert p + "_" + suffix == p + ['_'] + suffix;
    ParsePadded(n, width);
  }

  /** The names a run writes: numbers `start`, `start + 1`, … padded to
      seven digits, each with its own random suffix. */
  function Names(start: int, suffixes: seq<string>): (r: seq<string>)
    ensures |r| == |suffixes|
  {
    seq(|suffixes|, k requires 0 <= k < |suffixes| => ZFill(start + k, 7) + "_" + suffixes[k])
  }


  /** The numbers `start`, `start + 1`, … read back. */
  function Counting(start: int, m: nat): (r: seq<Result<int>>)
    ensures |r| == m
  {
    seq(m, k requires 0 <= k < m => Ok(start + k))
  }

  /** Numbers counting on from above every number read so far: the
      maximum is the last of them. */
  lemma {:induction false} LatestCounting(nums: seq<Result<int>>, m: int, latest: int, k: nat)
    requires Latest(nums) == Ok(m) && m <= latest
    ensures Latest(nums + Counting(latest + 1, k)) == Ok(if k == 0 then m else latest + k)
    decreases k
  {
    if k == 0 {
      assert nums + Counting(latest + 1, k) == nums;
    } else {
      LatestCounting(nums, m, latest, k - 1);
      assert Counting(latest + 1, k) == Counting(latest + 1, k - 1) + [Ok(latest + k)];
      assert nums + Counting(latest + 1, k) == (nums + Counting(latest + 1, k - 1)) + [Ok(latest + k)];
      LatestSnoc(nums + Counting(latest + 1, k - 1), Ok(latest + k));
    }
  }

  lemma {:induction false} NumbersOfNames(start: nat, suffixes: seq<string>)
    ensures Numbers(Names(start, suffixes)) == Counting(start, |suffixes|)
  {
    forall k | 0 <= k < |suffixes|
      ensures Numbers(Names(start, suffixes))[k] == Counting(start, |suffixes|)[k]
    {
      NameNumber(start, suffixes, k);
    }
  }

  lemma {:induction false} NameNumber(start: nat, suffixes: seq<string>, k: nat)
    requires k < |suffixes|
    ensures TokenNumber(Names(start, suffixes)[k]) == Ok(start + k)
  {
    NumberOfName(start + k, 7, suffixes[k]);
  }

  /** A run that numbers from the latest index plus one leaves the latest
      index of the folder at the number of its last file, so the next
      run continues without a gap or a clash. */
  lemma {:induction false} ContinueNumbering(stems: seq<string>, latest: nat, suffixes: seq<string>)
    requires LatestIndex(stems) == Ok(latest)
    ensures LatestIndex(stems + Names(latest + 1, suffixes)) == Ok(latest + |suffixes|)
  {
    ContinueNumberingAbove(stems, latest, latest, suffixes);
  }

  /** The same when the run numbers from above the folder's maximum `m`
      (a generator that also counts other files, or starts at 1 over
      negative numbers): its last file then holds the maximum. */
  lemma {:induction false} ContinueNumberingAbove(stems: seq<string>, m: int, latest: nat, suffixes: seq<string>)
    requires LatestIndex(stems) == Ok(m) && m <= latest
    ensures LatestIndex(stems + Names(latest + 1, suffixes)) == Ok(if suffixes == [] then m else latest + |suffixes|)
  {
    ApplyAppend(TokenNumber, stems, Names(latest + 1, suffixes));
    NumbersOfNames(latest + 1, suffixes);
    LatestCounting(Numbers(stems), m, latest, |suffixes|);
  }

  /** Six characters of `uuid4().hex`. */
  predicate IsHexSuffix(s: string)
  {
    |s| == 6 && forall i :: 0 <= i < |s| ==> s[i] in "0123456789abcdef"
  }

  /** A program file: its name without the extension, and its text. */
  datatype Program = Program(stem: string, text: string)

  function Stems(ps: seq<Program>): (r: seq<string>)
    ensures |r| == |ps|
  {
    seq(|ps|, i requires 0 <= i < |ps| => ps[i].stem)
  }

  /** The files a run writes in a row, numbered from `start` on, each
      with its suffix and its text. */
  function Files(start: int, suffixes: seq<string>, texts: seq<string>): (r: seq<Program>)
    requires |suffixes| == |texts|
    ensures |r| == |suffixes|
    ensures forall k :: 0 <= k < |r| ==> r[k].text == texts[k]
  {
    seq(|suffixes|, k requires 0 <= k < |suffixes| => Program(ZFill(start + k, 7) + "_" + suffixes[k], texts[k]))
  }

  /** Their names are the names from `start` on. */
  lemma {:induction false} StemsOfFiles(start: int, suffixes: seq<string>, texts: seq<string>)
    requires |suffixes| == |texts|
    ensures Stems(Files(start, suffixes, texts)) == Names(start, suffixes)
  {
  }

  /** `uuid4().hex[:6]`: six random hexadecimal digits. */
  method RandomSuffix() returns (s: string)
    ensures IsHexSuffix(s)
  {
    assert IsHexSuffix("000000");
    s :| IsHexSuffix(s);
  }
}
