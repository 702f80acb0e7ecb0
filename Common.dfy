/** Small value types and the Python built-ins the pipeline leans on:
    slicing `s[:k]`, `str(n)`, `sep.join(parts)`, `sub in s`, `s.strip()` and `s.lower()`. */
module Common {

  datatype Option<+T> = None | Some(value: T) {
    function GetOr(default: T): T {
      match this
      case Some(v) => v
      case None => default
    }
  }

  datatype Result<+T, +E> = Ok(value: T) | Err(error: E)

  function Min(a: int, b: int): int { if a <= b then a else b }

  function Max(a: int, b: int): int { if a >= b then a else b }

  /** Python's `x or default` for an optional integer: None and 0 are falsy. */
  function IntOr(x: Option<int>, default: int): (r: int)
    ensures x.Some? && x.value != 0 ==> r == x.value
    ensures x.None? || x.value == 0 ==> r == default
  {
    match x
    case Some(v) => if v != 0 then v else default
    case None => default
  }

  /** Python's `x or default` for an optional string: None and "" are falsy. */
  function StrOr(x: Option<string>, default: string): (r: string)
    ensures x.Some? && x.value != "" ==> r == x.value
    ensures x.None? || x.value == "" ==> r == default
  {
    match x
    case Some(v) => if v != "" then v else default
    case None => default
  }

  /** Python's `s[:k]`: a non-negative k keeps at most k items, a negative k drops -k items from the end. */
  function Take<T>(s: seq<T>, k: int): (r: seq<T>)
    ensures |r| == (if k >= 0 then Min(k, |s|) else Max(0, |s| + k))
    ensures r == s[..|r|]
  {
    if k >= 0 then (if k <= |s| then s[..k] else s)
    else if |s| + k >= 0 then s[..|s| + k]
    else []
  }

  /** Python's `s[:k]` for k >= 0 on a string or list. */
  function Prefix<T>(s: seq<T>, k: nat): (r: seq<T>)
    ensures |r| == Min(k, |s|) && r == s[..|r|]
  {
    if k <= |s| then s[..k] else s
  }

  function DigitChar(d: nat): (c: char)
    requires d < 10
    ensures '0' <= c <= '9'
  {
    "0123456789"[d]
  }

  /** Python's `str(n)` for n >= 0: decimal digits, never empty. */
  function Decimal(n: nat): (r: string)
    ensures 1 <= |r|
    ensures forall i :: 0 <= i < |r| ==> '0' <= r[i] <= '9'
    ensures (|r| == 1) == (n < 10)
  {
    if n < 10 then [DigitChar(n)] else Decimal(n / 10) + [DigitChar(n % 10)]
  }

  /** Python's `str(i)` for any integer. */
  function IntToString(i: int): (r: string)
    ensures 1 <= |r|
    ensures (r[0] == '-') == (i < 0)
  {
    if i < 0 then "-" + Decimal(-i) else Decimal(i)
  }

  /** Python's `sep.join(parts)`. */
  function Join(parts: seq<string>, sep: string): (r: string)
    ensures |parts| == 1 ==> r == parts[0]
    ensures |parts| == 0 ==> r == ""
  {
    if |parts| == 0 then ""
    else if |parts| == 1 then parts[0]
    else parts[0] + sep + Join(parts[1..], sep)
  }

  /** Where each piece of a concatenation of five sits in it. */
  lemma ConcatLayout<T>(a: seq<T>, b: seq<T>, c: seq<T>, d: seq<T>, e: seq<T>)
    ensures var r := a + b + c + d + e;
      |r| == |a| + |b| + |c| + |d| + |e|
      && r[..|a|] == a
      && r[|a|..|a| + |b|] == b
      && r[|a| + |b|..|a| + |b| + |c|] == c
      && r[|a| + |b| + |c|..|a| + |b| + |c| + |d|] == d
      && r[|r| - |e|..] == e
      && r[|r| - |d| - |e|..] == d + e
      && r[|a| + |b|..|r| - |d| - |e|] == c
  {
    var r := a + b + c + d + e;
    assert r[..|a|] == a;
    assert r[|a|..|a| + |b|] == b;
    assert r[|a| + |b|..|a| + |b| + |c|] == c;
    assert r[|a| + |b| + |c|..|a| + |b| + |c| + |d|] == d;
    assert r[|r| - |e|..] == e;
    assert r[|r| - |d| - |e|..] == d + e;
    assert r[|a| + |b|..|r| - |d| - |e|] == c;
  }

  /** The summed length of the parts, separators excluded. */
  function TotalLength(parts: seq<string>): nat {
    if parts == [] then 0 else TotalLength(parts[..|parts| - 1]) + |parts[|parts| - 1]|
  }

  lemma {:induction false} TotalLengthFront(x: string, xs: seq<string>)
    ensures TotalLength([x] + xs) == |x| + TotalLength(xs)
    decreases |xs|
  {
    if xs != [] {
      TotalLengthFront(x, xs[..|xs| - 1]);
      assert ([x] + xs)[..|[x] + xs| - 1] == [x] + xs[..|xs| - 1];
    } else {
      assert [x] + xs == [x];
      assert [x][..0] == [];
    }
  }

  /** Python's `sub in s` for strings. */
  predicate Contains(s: string, sub: string)
    decreases |s|
  {
    |sub| <= |s| && (s[..|sub|] == sub || Contains(s[1..], sub))
  }

  /** A string contains every string that it contains a containing string of. */
  lemma {:induction false} ContainsPrefixOf(s: string, sub: string, pre: string)
    requires Contains(s, sub) && |pre| <= |sub| && sub[..|pre|] == pre
    ensures Contains(s, pre)
    decreases |s|
  {
    if s[..|sub|] == sub {
      assert s[..|pre|] == s[..|sub|][..|pre|];
    } else {
      ContainsPrefixOf(s[1..], sub, pre);
    }
  }

  /** Characters for which Python's `str.isspace()` holds, so `strip()` removes them. */
  predicate IsSpace(c: char) {
    c == ' ' || c == '\t' || c == '\n' || c == '\r' || c == '\U{000B}' || c == '\U{000C}'
    || ('\U{001C}' <= c <= '\U{001F}') || c == '\U{0085}' || c == '\U{00A0}' || c == '\U{1680}'
    || ('\U{2000}' <= c <= '\U{200A}') || c == '\U{2028}' || c == '\U{2029}' || c == '\U{202F}'
    || c == '\U{205F}' || c == '\U{3000}'
  }

  function StripLeft(s: string): string {
    if s != [] && IsSpace(s[0]) then StripLeft(s[1..]) else s
  }

  /** `lstrip()` keeps a suffix that does not start with whitespace and drops only whitespace. */
  lemma {:induction false} StripLeftIsSuffix(s: string)
    ensures |StripLeft(s)| <= |s| && StripLeft(s) == s[|s| - |StripLeft(s)|..]
    ensures StripLeft(s) == [] || !IsSpace(StripLeft(s)[0])
    ensures forall i :: 0 <= i < |s| - |StripLeft(s)| ==> IsSpace(s[i])
    decreases |s|
  {
    if s != [] && IsSpace(s[0]) {
      StripLeftIsSuffix(s[1..]);
      assert forall i :: 1 <= i < |s| ==> s[i] == s[1..][i - 1];
    }
  }

  function StripRight(s: string): string {
    if s != [] && IsSpace(s[|s| - 1]) then StripRight(s[..|s| - 1]) else s
  }

  /** `rstrip()` keeps a prefix that does not end with whitespace and drops only whitespace. */
  lemma {:induction false} StripRightIsPrefix(s: string)
    ensures |StripRight(s)| <= |s| && StripRight(s) == s[..|StripRight(s)|]
    ensures StripRight(s) == [] || !IsSpace(StripRight(s)[|StripRight(s)| - 1])
    ensures forall i :: |StripRight(s)| <= i < |s| ==> IsSpace(s[i])
    decreases |s|
  {
    if s != [] && IsSpace(s[|s| - 1]) {
      var init := s[..|s| - 1];
      StripRightIsPrefix(init);
      assert forall i :: 0 <= i < |init| ==> init[i] == s[i];
      assert StripRight(s) == init[..|StripRight(init)|];
    }
  }

  /** Python's `s.strip()`: the text between the leading and trailing whitespace. */
  function Strip(s: string): string {
    StripRight(StripLeft(s))
  }

  /** What strip keeps: the piece of s starting at `start`, with only whitespace around it. */
  lemma StripIsTrimmedInfix(s: string) returns (start: nat)
    ensures start + |Strip(s)| <= |s| && s[start..start + |Strip(s)|] == Strip(s)
    ensures forall i :: 0 <= i < start ==> IsSpace(s[i])
    ensures forall i :: start + |Strip(s)| <= i < |s| ==> IsSpace(s[i])
    ensures Strip(s) == [] || (!IsSpace(Strip(s)[0]) && !IsSpace(Strip(s)[|Strip(s)| - 1]))
  {
    var l := StripLeft(s);
    StripLeftIsSuffix(s);
    StripRightIsPrefix(l);
    start := |s| - |l|;
    var r := Strip(s);
    assert r == l[..|r|];
    assert s[start..start + |r|] == l[..|r|];
    assert forall i :: start + |r| <= i < |s| ==> s[i] == l[i - start];
    if r != [] {
      assert r[0] == l[0];
    }
  }

  /** `not s.strip()` holds exactly when s is made of whitespace only. */
  lemma StripEmptyIffBlank(s: string)
    ensures Strip(s) == [] <==> forall i :: 0 <= i < |s| ==> IsSpace(s[i])
  {
    var l := StripLeft(s);
    StripLeftIsSuffix(s);
    StripRightIsPrefix(l);
    assert Strip(s) == [] ==> l == [];
  }

  /** ASCII lower-casing, the part of Python's `str.lower()` that model names use. */
  function LowerChar(c: char): char {
    if 'A' <= c <= 'Z' then (c as int + 32) as char else c
  }

  function Lower(s: string): (r: string)
    ensures |r| == |s| && forall i :: 0 <= i < |s| ==> r[i] == LowerChar(s[i])
  {
    seq(|s|, i requires 0 <= i < |s| => LowerChar(s[i]))
  }

  /** All the items of a list of lists, in order (`for xs in xss: out.extend(xs)`). */
  function Flatten<T>(xss: seq<seq<T>>): seq<T> {
    if xss == [] then [] else Flatten(xss[..|xss| - 1]) + xss[|xss| - 1]
  }

  lemma {:induction false} FlattenAppend<T>(xss: seq<seq<T>>, yss: seq<seq<T>>)
    ensures Flatten(xss + yss) == Flatten(xss) + Flatten(yss)
    decreases |yss|
  {
    if yss == [] {
      assert xss + yss == xss;
    } else {
      var init, last := yss[..|yss| - 1], yss[|yss| - 1];
      FlattenAppend(xss, init);
      assert (xss + yss)[..|xss + yss| - 1] == xss + init;
      assert (xss + yss)[|xss + yss| - 1] == last;
      assert Flatten(xss + yss) == Flatten(xss + init) + last;
      assert Flatten(yss) == Flatten(init) + last;
    }
  }

  lemma FlattenSingle<T>(xs: seq<T>)
    ensures Flatten([xs]) == xs
  {
    assert [xs][..0] == [];
  }

  /** The positions lo, lo+1, ..., hi-1. */
  function Range(lo: nat, hi: nat): (r: seq<nat>)
    ensures |r| == (if lo <= hi then hi - lo else 0)
    ensures forall i :: 0 <= i < |r| ==> r[i] == lo + i
    decreases hi - lo
  {
    if lo >= hi then [] else [lo] + Range(lo + 1, hi)
  }
}
