/** The methods of Python's `str` that the harness relies on, over `seq<char>`,
    with the exact behaviour of CPython on the inputs the harness passes. */
module PyStr {
  import opened Py

  predicate StartsWith(s: string, p: string) { |p| <= |s| && s[..|p|] == p }

  predicate EndsWith(s: string, p: string) { |p| <= |s| && s[|s| - |p|..] == p }

  lemma {:induction false} SuffixOfSuffix(s: string, j: nat)
    requires 1 <= j <= |s|
    ensures s[1..][j - 1..] == s[j..]
  {
  }

  /** `s.find(sub)`: the first index at which `sub` occurs, or -1. */
  function Find(s: string, sub: string): (r: int)
    ensures -1 <= r <= |s|
    ensures r >= 0 ==> StartsWith(s[r..], sub)
    ensures r >= 0 ==> forall j :: 0 <= j < r ==> !StartsWith(s[j..], sub)
    ensures r < 0 ==> forall j :: 0 <= j <= |s| ==> !StartsWith(s[j..], sub)
    decreases |s|
  {
    if StartsWith(s, sub) then 0
    else if s == [] then -1
    else
      var k := Find(s[1..], sub);
      assert forall j :: 1 <= j <= |s| ==> s[1..][j - 1..] == s[j..];
      if k < 0 then -1 else k + 1
  }

  /** Python's `sub in s`. */
  predicate Contains(s: string, sub: string) { Find(s, sub) >= 0 }

  lemma {:induction false} ContainsAt(s: string, sub: string, i: nat)
    requires i <= |s| && StartsWith(s[i..], sub)
    ensures Contains(s, sub)
  {
  }

  /** For one character, `c in s` as a substring test is membership. */
  lemma {:induction false} ContainsChar(s: string, c: char)
    ensures Contains(s, [c]) <==> c in s
  {
    if c in s {
      var i :| 0 <= i < |s| && s[i] == c;
      assert s[i..][..1] == [c];
      ContainsAt(s, [c], i);
    }
    if Contains(s, [c]) {
      var k := Find(s, [c]);
      assert s[k..][..1] == [c];
      assert s[k] == c;
    }
  }

  /** `s.find(sub, start)` for a start inside the string, scanning from
      `start` (`FindFromSpec` states which index it returns). */
  function FindFrom(s: string, sub: string, start: nat): (r: int)
    requires start <= |s|
    ensures r == -1 || start <= r <= |s|
    ensures r >= 0 ==> r + |sub| <= |s|
    decreases |s| - start
  {
    if StartsWith(s[start..], sub) then start
    else if start == |s| then -1
    else FindFrom(s, sub, start + 1)
  }

  /** The index found holds `sub`, and no earlier index from `start` does;
      -1 means no index from `start` does. */
  lemma {:induction false} FindFromSpec(s: string, sub: string, start: nat)
    requires start <= |s|
    ensures FindFrom(s, sub, start) >= 0 ==> StartsWith(s[FindFrom(s, sub, start)..], sub)
    ensures FindFrom(s, sub, start) >= 0 ==> forall j :: start <= j < FindFrom(s, sub, start) ==> !StartsWith(s[j..], sub)
    ensures FindFrom(s, sub, start) < 0 ==> forall j :: start <= j <= |s| ==> !StartsWith(s[j..], sub)
    decreases |s| - start
  {
    if !StartsWith(s[start..], sub) && start < |s| {
      FindFromSpec(s, sub, start + 1);
    }
  }

  /** Searching from `start` is searching the text from `start` on. */
  lemma {:induction false} FindFromShift(s: string, sub: string, start: nat)
    requires start <= |s|
    ensures FindFrom(s, sub, start) == (if FindFrom(s[start..], sub, 0) < 0 then -1 else FindFrom(s[start..], sub, 0) + start)
    decreases |s| - start
  {
    if !StartsWith(s[start..], sub) && start < |s| {
      FindFromShift(s, sub, start + 1);
      FindFromStep(s[start..], sub, 0);
      assert s[start..][1..] == s[start + 1..];
    }
  }

  lemma {:induction false} FindFromStep(s: string, sub: string, start: nat)
    requires start < |s|
    ensures FindFrom(s, sub, start + 1) == (if FindFrom(s[1..], sub, start) < 0 then -1 else FindFrom(s[1..], sub, start) + 1)
    decreases |s| - start
  {
    assert s[1..][start..] == s[start + 1..];
    if !StartsWith(s[start + 1..], sub) && start + 1 < |s| {
      FindFromStep(s, sub, start + 1);
    }
  }

  /** From the start of the string, it is `s.find(sub)`. */
  lemma {:induction false} FindFromZero(s: string, sub: string)
    ensures FindFrom(s, sub, 0) == Find(s, sub)
  {
    FindFromSpec(s, sub, 0);
  }

  /** `s.rfind(c)` for a one-character `c`: the last index holding `c`, or
      -1 (`RFindSpec` states which index that is). */
  function RFind(s: string, c: char): (r: int)
    ensures -1 <= r < |s|
    decreases |s|
  {
    if s == [] then -1
    else if s[|s| - 1] == c then |s| - 1
    else RFind(s[..|s| - 1], c)
  }

  /** The index found holds `c`, and no later index does. */
  lemma {:induction false} RFindSpec(s: string, c: char)
    ensures var r := RFind(s, c);
      && (r >= 0 ==> s[r] == c)
      && (forall j :: r < j < |s| ==> s[j] != c)
    decreases |s|
  {
    if s != [] && s[|s| - 1] != c {
      RFindSpec(s[..|s| - 1], c);
    }
  }

  /** The characters for which Python's `str.isspace` holds. */
  predicate IsSpace(c: char)
  {
    || c == ' ' || '\t' <= c <= '\r' || '\U{001C}' <= c <= '\U{001F}'
    || c == '\U{0085}' || c == '\U{00A0}' || c == '\U{1680}'
    || '\U{2000}' <= c <= '\U{200A}' || c == '\U{2028}' || c == '\U{2029}'
    || c == '\U{202F}' || c == '\U{205F}' || c == '\U{3000}'
  }

  /** `s.lstrip()`: the suffix left once leading whitespace is dropped. */
  function LStrip(s: string): (r: string)
    ensures |r| <= |s|
    ensures r == [] || !IsSpace(r[0])
    ensures forall i :: 0 <= i < |s| - |r| ==> IsSpace(s[i])
    decreases |s|
  {
    if s != [] && IsSpace(s[0]) then LStrip(s[1..]) else s
  }

  /** What `lstrip` keeps is a suffix of its argument. */
  lemma {:induction false} LStripSuffix(s: string)
    ensures LStrip(s) == s[|s| - |LStrip(s)|..]
    decreases |s|
  {
    if s != [] && IsSpace(s[0]) {
      LStripSuffix(s[1..]);
    }
  }

  /** `s.rstrip()`: the prefix left once trailing whitespace is dropped. */
  function RStrip(s: string): (r: string)
    ensures |r| <= |s|
    ensures r == [] || !IsSpace(r[|r| - 1])
    ensures forall i :: |r| <= i < |s| ==> IsSpace(s[i])
    decreases |s|
  {
    if s != [] && IsSpace(s[|s| - 1]) then
      var t := s[..|s| - 1];
      RStrip(t)
    else s
  }

  /** What `rstrip` keeps is a prefix of its argument. */
  lemma {:induction false} RStripPrefix(s: string)
    ensures RStrip(s) == s[..|RStrip(s)|]
    decreases |s|
  {
    if s != [] && IsSpace(s[|s| - 1]) {
      var t := s[..|s| - 1];
      RStripPrefix(t);
      assert t[..|RStrip(t)|] == s[..|RStrip(t)|];
    }
  }

  /** `s.strip()`. */
  function Strip(s: string): string { RStrip(LStrip(s)) }

  /** `sep.join(parts)`. */
  function Join(sep: string, parts: seq<string>): string
    decreases |parts|
  {
    if |parts| == 0 then ""
    else if |parts| == 1 then parts[0]
    else parts[0] + sep + Join(sep, parts[1..])
  }

  /** `"".join(parts)`. */
  function Concat(parts: seq<string>): string
    decreases |parts|
  {
    if parts == [] then "" else parts[0] + Concat(parts[1..])
  }

  lemma {:induction false} ConcatAppend(parts: seq<string>, p: string)
    ensures Concat(parts + [p]) == Concat(parts) + p
    decreases |parts|
  {
    if parts != [] {
      assert (parts + [p])[1..] == parts[1..] + [p];
      ConcatAppend(parts[1..], p);
    }
  }

  /** `s.split(sep)` for a one-character separator. */
  function Split(s: string, sep: char): (r: seq<string>)
    ensures |r| >= 1
    decreases |s|
  {
    var k := Find(s, [sep]);
    if k < 0 then [s] else [s[..k]] + Split(s[k + 1..], sep)
  }

  /** No part `split` returns holds the separator. */
  lemma {:induction false} SplitNoSep(s: string, sep: char)
    ensures forall i :: 0 <= i < |Split(s, sep)| ==> sep !in Split(s, sep)[i]
    decreases |s|
  {
    var k := Find(s, [sep]);
    var head := if k < 0 then s else s[..k];
    NoSepBeforeFind(s, sep);
    assert sep !in head;
    if k >= 0 {
      var tail := Split(s[k + 1..], sep);
      SplitNoSep(s[k + 1..], sep);
      var parts := Split(s, sep);
      assert parts == [head] + tail;
      forall i | 0 <= i < |parts| ensures sep !in parts[i] {
        if i > 0 {
          assert parts[i] == tail[i - 1];
        }
      }
    }
  }

  /** The separator does not occur before the index `find` returns, nor
      anywhere when it returns -1. */
  lemma {:induction false} NoSepBeforeFind(s: string, sep: char)
    ensures var k := Find(s, [sep]); sep !in (if k < 0 then s else s[..k])
  {
    var k := Find(s, [sep]);
    var n := if k < 0 then |s| else k;
    forall j | 0 <= j < n
      ensures s[j] != sep
    {
      assert s[j..][..1] == [s[j]];
    }
  }

  /** Joining what `split` cut gives back the string. */
  lemma {:induction false} JoinSplit(s: string, sep: char)
    ensures Join([sep], Split(s, sep)) == s
    decreases |s|
  {
    var k := Find(s, [sep]);
    if k >= 0 {
      assert s[k..][..1] == [sep];
      var rest := s[k + 1..];
      JoinSplit(rest, sep);
      var parts := Split(rest, sep);
      assert ([s[..k]] + parts)[1..] == parts;
      CutAt(s, k);
    }
  }

  /** A string is the text before index `k`, the character there and the
      text after. */
  lemma {:induction false} CutAt(s: string, k: nat)
    requires k < |s|
    ensures s[..k] + [s[k]] + s[k + 1..] == s
  {
  }

  /** Splitting what `join` glued gives back the parts, when no part holds the
      separator. */
  lemma {:induction false} SplitJoin(parts: seq<string>, sep: char)
    requires |parts| >= 1
    requires forall i :: 0 <= i < |parts| ==> sep !in parts[i]
    ensures Split(Join([sep], parts), sep) == parts
    decreases |parts|
  {
    var p := parts[0];
    assert sep !in p;
    if |parts| == 1 {
      NoSepNotFound(p, sep);
    } else {
      var rest := parts[1..];
      assert forall i :: 0 <= i < |rest| ==> rest[i] == parts[i + 1];
      SplitJoin(rest, sep);
      SplitCons(p, Join([sep], rest), sep);
      assert [p] + rest == parts;
    }
  }

  /** Splitting at a separator placed between two texts splits each of
      them. */
  lemma {:induction false} SplitAppend(x: string, y: string, sep: char)
    ensures Split(x + [sep] + y, sep) == Split(x, sep) + Split(y, sep)
    decreases |x|, 1
  {
    var k := Find(x, [sep]);
    NoSepBeforeFind(x, sep);
    if k < 0 {
      SplitCons(x, y, sep);
      assert Split(x, sep) == [x];
    } else {
      assert x[k..][..1] == [sep];
      SplitAppendAt(x, k, y, sep);
    }
  }

  lemma {:induction false} SplitAppendAt(x: string, k: nat, y: string, sep: char)
    requires k < |x| && x[k] == sep && sep !in x[..k]
    ensures Split(x + [sep] + y, sep) == Split(x, sep) + Split(y, sep)
    decreases |x|, 0
  {
    SplitAppendStep(x, k, y, sep);
    SplitAppend(x[k + 1..], y, sep);
    ConsAppend(x[..k], Split(x[k + 1..], sep), Split(y, sep));
  }

  lemma {:induction false} ConsAppend<T>(h: T, a: seq<T>, b: seq<T>)
    ensures [h] + (a + b) == ([h] + a) + b
  {
  }

  lemma {:induction false} SplitAppendStep(x: string, k: nat, y: string, sep: char)
    requires k < |x| && x[k] == sep && sep !in x[..k]
    ensures Split(x + [sep] + y, sep) == [x[..k]] + Split(x[k + 1..] + [sep] + y, sep)
    ensures Split(x, sep) == [x[..k]] + Split(x[k + 1..], sep)
  {
    var x1, x2 := x[..k], x[k + 1..];
    CutAt(x, k);
    assert x + [sep] + y == x1 + [sep] + (x2 + [sep] + y);
    SplitCons(x1, x2 + [sep] + y, sep);
    SplitCons(x1, x2, sep);
  }

  lemma {:induction false} NoSepNotFound(s: string, sep: char)
    requires sep !in s
    ensures Find(s, [sep]) < 0
  {
    assert forall j :: 0 <= j < |s| ==> s[j..][..1] == [s[j]];
  }

  lemma {:induction false} SplitCons(p: string, rest: string, sep: char)
    requires sep !in p
    ensures Split(p + [sep] + rest, sep) == [p] + Split(rest, sep)
  {
    var s := p + [sep] + rest;
    assert s[|p|..][..1] == [sep];
    assert forall j :: 0 <= j < |p| ==> s[j..][..1] == [p[j]];
    assert Find(s, [sep]) == |p|;
    assert s[..|p|] == p;
    assert s[|p| + 1..] == rest;
  }

  /** `s.split(sep)[0]` for a non-empty separator: the text before its first
      occurrence, or all of `s`. */
  function Before(s: string, sep: string): (r: string)
    requires sep != []
    ensures StartsWith(s, r)
    ensures !Contains(r, sep)
  {
    var k := Find(s, sep);
    if k < 0 then s
    else
      PrefixBeforeMatch(s, sep, k);
      s[..k]
  }

  lemma {:induction false} PrefixBeforeMatch(s: string, sep: string, k: nat)
    requires sep != [] && k <= |s|
    requires forall j :: 0 <= j < k ==> !StartsWith(s[j..], sep)
    ensures !Contains(s[..k], sep)
  {
    forall f | 0 <= f <= k && |sep| <= k - f
      ensures s[..k][f..][..|sep|] == s[f..][..|sep|]
    {
    }
  }

  /** The text before the first separator is the part that holds none. */
  lemma {:induction false} BeforeCons(p: string, c: char, rest: string)
    requires c !in p
    ensures Before(p + [c] + rest, [c]) == p
  {
    var s := p + [c] + rest;
    assert s[|p|..][..1] == [c];
    assert forall j :: 0 <= j < |p| ==> s[j..][..1] == [p[j]];
    assert Find(s, [c]) == |p|;
    assert s[..|p|] == p;
  }

  /** The text after the first occurrence of `sep`. */
  function After(s: string, sep: string): (r: string)
    requires sep != [] && Contains(s, sep)
    ensures s == Before(s, sep) + sep + r
  {
    var k := Find(s, sep);
    assert s[k..][..|sep|] == sep;
    s[k + |sep|..]
  }

  /** `str.lower()` on ASCII letters. */
  function LowerChar(c: char): char
  {
    if 'A' <= c <= 'Z' then (c as int + 32) as char else c
  }

  function Lower(s: string): (r: string)
    ensures |r| == |s|
    ensures forall i :: 0 <= i < |s| ==> r[i] == LowerChar(s[i])
  {
    seq(|s|, i requires 0 <= i < |s| => LowerChar(s[i]))
  }

  /** `s.replace(old, new)`: every occurrence of `old`, left to right and not
      overlapping, replaced by `new`. */
  function ReplaceAll(s: string, pat: string, repl: string): (r: string)
    requires pat != []
    decreases |s|
  {
    if s == [] then []
    else if StartsWith(s, pat) then repl + ReplaceAll(s[|pat|..], pat, repl)
    else [s[0]] + ReplaceAll(s[1..], pat, repl)
  }

  /** A string in which `pat` does not occur is left as it is. */
  lemma {:induction false} ReplaceAbsent(s: string, pat: string, repl: string)
    requires pat != [] && !Contains(s, pat)
    ensures ReplaceAll(s, pat, repl) == s
    decreases |s|
  {
    if s != [] {
      assert !StartsWith(s[0..], pat);
      assert s[0..] == s;
      forall j | 0 <= j <= |s[1..]| ensures !StartsWith(s[1..][j..], pat) {
        assert s[1..][j..] == s[j + 1..];
      }
      ReplaceAbsent(s[1..], pat, repl);
    }
  }

  /** Replacing a text by itself changes nothing. */
  lemma {:induction false} ReplaceBySelf(s: string, pat: string)
    requires pat != []
    ensures ReplaceAll(s, pat, pat) == s
    decreases |s|
  {
    if s != [] {
      if StartsWith(s, pat) {
        ReplaceBySelf(s[|pat|..], pat);
        assert s == s[..|pat|] + s[|pat|..];
      } else {
        ReplaceBySelf(s[1..], pat);
      }
    }
  }

  /** A path ending in `pat`, whose first character occurs nowhere before,
      has exactly that ending replaced. */
  lemma {:induction false} ReplaceAtEnd(p: string, pat: string, repl: string)
    requires pat != [] && pat[0] !in p
    ensures ReplaceAll(p + pat, pat, repl) == p + repl
    decreases |p|
  {
    if p == [] {
      assert p + pat == pat;
      assert StartsWith(pat, pat);
      assert pat[|pat|..] == [];
    } else {
      assert (p + pat)[0] == p[0];
      assert !StartsWith(p + pat, pat);
      assert (p + pat)[1..] == p[1..] + pat;
      ReplaceAtEnd(p[1..], pat, repl);
      assert p == [p[0]] + p[1..];
    }
  }

  // Decimal numbers

  predicate IsDigit(c: char) { '0' <= c <= '9' }

  /** `s.isdigit()` on ASCII: non-empty and made of digits only. */
  predicate IsDigits(s: string) { |s| > 0 && forall i :: 0 <= i < |s| ==> IsDigit(s[i]) }

  function DigitValue(c: char): nat requires IsDigit(c) { c as int - '0' as int }

  function DigitChar(d: nat): (c: char)
    requires d < 10
    ensures IsDigit(c) && DigitValue(c) == d
  {
    ('0' as int + d) as char
  }

  /** The number a run of decimal digits spells. */
  function DigitsValue(s: string): nat
    requires forall i :: 0 <= i < |s| ==> IsDigit(s[i])
    decreases |s|
  {
    if s == [] then 0 else DigitsValue(s[..|s| - 1]) * 10 + DigitValue(s[|s| - 1])
  }

  /** `str(n)` for a natural number. */
  function NatToString(n: nat): (r: string)
    ensures IsDigits(r)
    ensures DigitsValue(r) == n
    ensures r[0] != '0' || r == "0"
    decreases n
  {
    if n < 10 then [DigitChar(n)]
    else
      var p := NatToString(n / 10);
      var r := p + [DigitChar(n % 10)];
      assert r[..|r| - 1] == p;
      r
  }

  /** `str(n)` for any integer: a minus sign before the digits of a
      negative number. */
  function IntToString(n: int): string
  {
    if n >= 0 then NatToString(n) else "-" + NatToString(-n)
  }

  function Zeros(k: nat): (r: string)
    ensures |r| == k && forall i :: 0 <= i < k ==> r[i] == '0'
  {
    seq(k, _ => '0')
  }

  lemma {:induction false} LeadingZeros(k: nat, s: string)
    requires forall i :: 0 <= i < |s| ==> IsDigit(s[i])
    ensures DigitsValue(Zeros(k) + s) == DigitsValue(s)
    decreases |s|
  {
    var z := Zeros(k) + s;
    if s == [] {
      ZerosValue(k);
      assert z == Zeros(k);
    } else {
      assert z[..|z| - 1] == Zeros(k) + s[..|s| - 1];
      LeadingZeros(k, s[..|s| - 1]);
    }
  }

  lemma {:induction false} ZerosValue(k: nat)
    ensures DigitsValue(Zeros(k)) == 0
    decreases k
  {
    if k > 0 {
      assert Zeros(k)[..k - 1] == Zeros(k - 1);
      ZerosValue(k - 1);
    }
  }

  /** `str(n).zfill(width)`, equally `f"{n:0{width}d}"`: the decimal digits of
      `n` padded on the left with zeros to at least `width` characters. */
  function ZeroPad(n: nat, width: nat): string
  {
    var s := NatToString(n);
    Zeros(if width > |s| then width - |s| else 0) + s
  }

  /** The padded text is at least `width` digits long, and spells `n`. */
  lemma {:induction false} ZeroPadSpec(n: nat, width: nat)
    ensures |ZeroPad(n, width)| == if width > |NatToString(n)| then width else |NatToString(n)|
    ensures IsDigits(ZeroPad(n, width)) && DigitsValue(ZeroPad(n, width)) == n
  {
    var s := NatToString(n);
    LeadingZeros(if width > |s| then width - |s| else 0, s);
  }

  /** The body of an integer literal that Python's `int()` accepts: digits,
      with single underscores only between digits. */
  predicate IsIntBody(b: string)
  {
    && |b| > 0 && IsDigit(b[0]) && IsDigit(b[|b| - 1])
    && (forall i :: 0 <= i < |b| ==> IsDigit(b[i]) || b[i] == '_')
    && (forall i :: 0 <= i < |b| - 1 ==> !(b[i] == '_' && b[i + 1] == '_'))
  }

  function DropUnderscores(b: string): (r: string)
    requires forall i :: 0 <= i < |b| ==> IsDigit(b[i]) || b[i] == '_'
    ensures forall i :: 0 <= i < |r| ==> IsDigit(r[i])
    decreases |b|
  {
    if b == [] then []
    else if b[0] == '_' then DropUnderscores(b[1..])
    else [b[0]] + DropUnderscores(b[1..])
  }

  lemma {:induction false} DropUnderscoresOfDigits(b: string)
    requires forall i :: 0 <= i < |b| ==> IsDigit(b[i])
    ensures DropUnderscores(b) == b
    decreases |b|
  {
    if b != [] {
      DropUnderscoresOfDigits(b[1..]);
    }
  }

  /** Python's `int(s)` on a string: surrounding whitespace, an optional sign,
      then digits; anything else raises ValueError, here `None`. */
  function ParseInt(s: string): (r: Option<int>)
  {
    var t := Strip(s);
    if t == [] then None
    else
      var neg := t[0] == '-';
      var body := if t[0] == '-' || t[0] == '+' then t[1..] else t;
      if !IsIntBody(body) then None
      else
        var v: int := DigitsValue(DropUnderscores(body));
        Some(if neg then -v else v)
  }

  lemma {:induction false} StripOfDigits(s: string)
    requires IsDigits(s)
    ensures Strip(s) == s
  {
    assert !IsSpace(s[0]);
    assert !IsSpace(s[|s| - 1]);
  }

  /** `int(str(n).zfill(w)) == n`: a zero-padded decimal name reads back as
      the number it was made from. */
  lemma {:induction false} ParsePadded(n: nat, width: nat)
    ensures ParseInt(ZeroPad(n, width)) == Some(n)
  {
    var s := ZeroPad(n, width);
    ZeroPadSpec(n, width);
    StripOfDigits(s);
    DropUnderscoresOfDigits(s);
  }

  /** A run of ASCII digits reads back as its decimal value. */
  lemma {:induction false} ParseDigits(s: string)
    requires IsDigits(s)
    ensures ParseInt(s) == Some(DigitsValue(s))
  {
    StripOfDigits(s);
    DropUnderscoresOfDigits(s);
  }

  /** `int(s)` raises when `s` holds a character that is neither
      whitespace, a digit, a sign nor an underscore. */
  lemma {:induction false} ParseIntRejects(s: string, m: nat)
    requires m < |s| && !IsSpace(s[m]) && !IsDigit(s[m]) && s[m] !in "+-_"
    ensures ParseInt(s) == None
  {
    var l := LStrip(s);
    LStripSuffix(s);
    var t := RStrip(l);
    RStripPrefix(l);
    var a := |s| - |l|;
    assert a <= m;
    assert m - a < |t|;
    assert t[m - a] == s[m];
    if t[0] == '-' || t[0] == '+' {
      assert t[1..][m - a - 1] == s[m];
    }
  }
}
