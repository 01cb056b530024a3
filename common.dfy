/** Small value types and the Python string operations the rest of the model relies on.
    Every function here states, in its ensures clauses, the meaning Python gives it. */
module Common {

  datatype Option<+T> = None | Some(value: T)

  datatype Result<+T, +E> = Ok(value: T) | Err(error: E)

  /** The Python exceptions the modelled code raises or catches, with their messages. */
  datatype Exception =
    | ValueError(message: string)
    | TypeError(message: string)
    | KeyError(message: string)
    | AttributeError(message: string)
    | RuntimeError(message: string)
    | ValidationError(message: string)
    | DecodeError(message: string)
    | ZeroDivisionError(message: string)
    | OtherError(message: string)

  /** `sub` occurs in `s` starting at index `i`. */
  predicate OccursAt(s: string, sub: string, i: int)
  {
    0 <= i && i + |sub| <= |s| && s[i..i + |sub|] == sub
  }

  /** The second part of a concatenation occurs where the first ends. */
  lemma OccursAtEnd(s: string, t: string)
    ensures OccursAt(s + t, t, |s|)
  {
    assert (s + t)[|s|..|s| + |t|] == t;
  }

  /** Python's `sub in s`. */
  predicate Contains(s: string, sub: string)
  {
    exists i | 0 <= i <= |s| - |sub| :: OccursAt(s, sub, i)
  }

  predicate StartsWith(s: string, prefix: string)
  {
    |prefix| <= |s| && s[..|prefix|] == prefix
  }

  /** Python's `s.find(sub)`: the lowest index of an occurrence, or -1. */
  function Find(s: string, sub: string): (r: int)
    ensures -1 <= r <= |s|
    ensures r >= 0 ==> OccursAt(s, sub, r) && forall i | 0 <= i < r :: !OccursAt(s, sub, i)
    ensures r == -1 <==> !Contains(s, sub)
  {
    FindFrom(s, sub, 0)
  }

  function FindFrom(s: string, sub: string, from: nat): (r: int)
    requires from <= |s|
    ensures -1 <= r <= |s|
    ensures r >= 0 ==> from <= r && OccursAt(s, sub, r) && forall i | from <= i < r :: !OccursAt(s, sub, i)
    ensures r == -1 ==> forall i | from <= i <= |s| - |sub| :: !OccursAt(s, sub, i)
    decreases |s| - from
  {
    if OccursAt(s, sub, from) then from
    else if from + |sub| >= |s| then -1
    else FindFrom(s, sub, from + 1)
  }

  /** A one-character `sub` occurs wherever that character is. */
  lemma OccursAtChar(s: string, c: char, i: int)
    ensures OccursAt(s, [c], i) <==> 0 <= i < |s| && s[i] == c
  {
    if 0 <= i < |s| {
      assert s[i..i + 1] == [s[i]];
    }
  }

  /** An occurrence with none before it is what `Find` finds. */
  lemma FindIs(s: string, sub: string, k: int)
    requires OccursAt(s, sub, k) && forall i | 0 <= i < k :: !OccursAt(s, sub, i)
    ensures Find(s, sub) == k
  {
    assert Contains(s, sub);
  }

  /** An occurrence with none after it is what `RFind` finds. */
  lemma RFindIs(s: string, sub: string, k: int)
    requires OccursAt(s, sub, k) && forall i | k < i <= |s| :: !OccursAt(s, sub, i)
    ensures RFind(s, sub) == k
  {
    assert Contains(s, sub);
  }

  /** Python's `s.rfind(sub)`: the highest index of an occurrence, or -1. */
  function RFind(s: string, sub: string): (r: int)
    ensures -1 <= r <= |s|
    ensures r >= 0 ==> OccursAt(s, sub, r) && forall i | r < i <= |s| :: !OccursAt(s, sub, i)
    ensures r == -1 <==> !Contains(s, sub)
  {
    if |sub| > |s| then -1 else RFindBelow(s, sub, |s| - |sub| + 1)
  }

  function RFindBelow(s: string, sub: string, below: nat): (r: int)
    requires below <= |s| - |sub| + 1
    ensures -1 <= r < below
    ensures r >= 0 ==> OccursAt(s, sub, r) && forall i | r < i < below :: !OccursAt(s, sub, i)
    ensures r == -1 ==> forall i | 0 <= i < below :: !OccursAt(s, sub, i)
  {
    if below == 0 then -1
    else if OccursAt(s, sub, below - 1) then below - 1
    else RFindBelow(s, sub, below - 1)
  }

  /** Python's normalisation of one slice bound against a length `n`. */
  function SliceBound(i: int, n: nat): (r: nat)
    ensures r <= n
    ensures 0 <= i <= n ==> r == i
    ensures -(n as int) <= i < 0 ==> r as int == n as int + i
  {
    if i < 0 then (if n + i < 0 then 0 else n + i) else if i > n then n else i
  }

  /** Python's `s[a:b]`, for any integers `a` and `b`. */
  function Slice(s: string, a: int, b: int): (r: string)
    ensures |r| <= |s|
    ensures SliceBound(a, |s|) <= SliceBound(b, |s|) ==> r == s[SliceBound(a, |s|)..SliceBound(b, |s|)]
    ensures SliceBound(a, |s|) > SliceBound(b, |s|) ==> r == ""
  {
    var lo, hi := SliceBound(a, |s|), SliceBound(b, |s|);
    if lo <= hi then s[lo..hi] else ""
  }

  /** Python's `s[a:]`. */
  function SliceFrom(s: string, a: int): (r: string)
    ensures r == s[SliceBound(a, |s|)..]
  {
    s[SliceBound(a, |s|)..]
  }

  /** Python's `c * n` for a one-character string `c`: empty when `n <= 0`. */
  function Repeat(c: char, n: int): (r: string)
    ensures |r| == if n <= 0 then 0 else n
    ensures forall i | 0 <= i < |r| :: r[i] == c
    decreases n
  {
    if n <= 0 then "" else Repeat(c, n - 1) + [c]
  }

  /** Python's `sep.join(parts)`. */
  function Join(sep: string, parts: seq<string>): (r: string)
    ensures parts == [] ==> r == ""
    ensures |parts| == 1 ==> r == parts[0]
  {
    if parts == [] then ""
    else if |parts| == 1 then parts[0]
    else Join(sep, parts[..|parts| - 1]) + sep + parts[|parts| - 1]
  }

  /** The characters Python's `str.isspace` accepts (Unicode White_Space plus the four
      ASCII information separators), which `str.strip()` removes. */
  predicate IsSpace(c: char)
  {
    c == ' ' || ('\t' <= c <= '\r') || ('\U{1C}' <= c <= '\U{1F}') || c == '\U{85}' || c == '\U{A0}'
    || c == '\U{1680}' || ('\U{2000}' <= c <= '\U{200A}') || c == '\U{2028}' || c == '\U{2029}'
    || c == '\U{202F}' || c == '\U{205F}' || c == '\U{3000}'
  }

  predicate AllSpace(t: string)
  {
    forall i | 0 <= i < |t| :: IsSpace(t[i])
  }

  function StripLeft(s: string): (r: string)
    ensures |r| <= |s| && r == s[|s| - |r|..]
    ensures r == "" || !IsSpace(r[0])
  {
    if s != [] && IsSpace(s[0]) then StripLeft(s[1..]) else s
  }

  function StripRight(s: string): (r: string)
    ensures |r| <= |s| && r == s[..|r|]
    ensures r == "" || !IsSpace(r[|r| - 1])
  {
    if s != [] && IsSpace(s[|s| - 1]) then StripRight(s[..|s| - 1]) else s
  }

  /** What `StripLeft` removes is whitespace. */
  lemma {:induction false} StripLeftSpaces(s: string)
    ensures AllSpace(s[..|s| - |StripLeft(s)|])
  {
    if s != [] && IsSpace(s[0]) {
      StripLeftSpaces(s[1..]);
      var n := |s| - |StripLeft(s)|;
      assert forall i | 1 <= i < n :: s[..n][i] == s[1..][..n - 1][i - 1];
    }
  }

  /** What `StripRight` removes is whitespace. */
  lemma {:induction false} StripRightSpaces(s: string)
    ensures AllSpace(s[|StripRight(s)|..])
  {
    if s != [] && IsSpace(s[|s| - 1]) {
      var t := s[..|s| - 1];
      StripRightSpaces(t);
      var n := |StripRight(s)|;
      assert forall i | 0 <= i < |s| - 1 - n :: s[n..][i] == t[n..][i];
    }
  }

  /** Python's `s.strip()`. */
  function Strip(s: string): (r: string)
    ensures r == "" || (!IsSpace(r[0]) && !IsSpace(r[|r| - 1]))
    ensures Contains(s, r)
  {
    StripEnds(s);
    StripRight(StripLeft(s))
  }

  /** What is left after both ends are stripped starts and ends with a non-space and is
      part of the original string. */
  lemma StripEnds(s: string)
    ensures var r := StripRight(StripLeft(s)); r == "" || (!IsSpace(r[0]) && !IsSpace(r[|r| - 1]))
    ensures Contains(s, StripRight(StripLeft(s)))
  {
    var l := StripLeft(s);
    var r := StripRight(l);
    KeptEnds(l, r);
    PrefixOfSuffix(s, l, r);
  }

  /** A prefix of `l` that ends with a non-space, of an `l` that starts with one, starts
      and ends with a non-space. */
  lemma KeptEnds(l: string, r: string)
    requires l == "" || !IsSpace(l[0])
    requires |r| <= |l| && r == l[..|r|]
    requires r == "" || !IsSpace(r[|r| - 1])
    ensures r == "" || (!IsSpace(r[0]) && !IsSpace(r[|r| - 1]))
  {
    if r != "" {
      assert r[0] == l[0];
    }
  }

  /** A prefix of a suffix of `s` is part of `s`. */
  lemma PrefixOfSuffix(s: string, l: string, r: string)
    requires |l| <= |s| && l == s[|s| - |l|..]
    requires |r| <= |l| && r == l[..|r|]
    ensures Contains(s, r)
  {
    var off := |s| - |l|;
    assert s[off..off + |r|] == s[off..][..|r|];
    assert OccursAt(s, r, off);
  }

  /** `strip()` cuts the text into whitespace, the result, and whitespace. */
  lemma StripSplits(s: string)
    ensures exists a, b :: s == a + Strip(s) + b && AllSpace(a) && AllSpace(b)
  {
    var l := StripLeft(s);
    var r := StripRight(l);
    StripLeftSpaces(s);
    StripRightSpaces(l);
    var a, b := s[..|s| - |l|], l[|r|..];
    SplitThree(s, a, l, r, b);
    assert Strip(s) == r;
    assert s == a + Strip(s) + b && AllSpace(a) && AllSpace(b);
  }

  lemma SplitThree(s: string, a: string, l: string, r: string, b: string)
    requires |a| <= |s| && a == s[..|a|] && l == s[|a|..]
    requires |r| <= |l| && r == l[..|r|] && b == l[|r|..]
    ensures s == a + r + b
  {
    assert l == r + b;
    assert s == a + l;
  }

  /** Python's `s.split(c, 1)` when it gives two parts: the text before the first `c`
      and everything after it; None when `c` does not occur. */
  function SplitFirst(s: string, c: char): (r: Option<(string, string)>)
    ensures r.None? <==> c !in s
    ensures r.Some? ==> s == r.value.0 + [c] + r.value.1 && c !in r.value.0
  {
    if c !in s then None
    else if s[0] == c then Some(("", s[1..]))
    else
      var rest := SplitFirst(s[1..], c);
      assert s == [s[0]] + s[1..];
      Some(([s[0]] + rest.value.0, rest.value.1))
  }

  /** `s.split(c, 1)` splits at the first occurrence of `c`. */
  lemma {:induction false} SplitFirstAt(a: string, c: char, b: string)
    requires c !in a
    ensures SplitFirst(a + [c] + b, c) == Some((a, b))
  {
    var s := a + [c] + b;
    assert s[|a|] == c;
    if a == [] {
      assert s[1..] == b;
    } else {
      assert s[0] == a[0] != c;
      assert s[1..] == a[1..] + [c] + b;
      SplitFirstAt(a[1..], c, b);
      assert [a[0]] + a[1..] == a;
    }
  }

  /** Python's `s.split('\n')[0]`: the text before the first newline, or all of `s`. */
  function FirstLine(s: string): (r: string)
    ensures StartsWith(s, r) && '\n' !in r
    ensures r == s || (|r| < |s| && s[|r|] == '\n')
  {
    match SplitFirst(s, '\n')
    case None => s
    case Some(parts) => assert s[..|parts.0|] == parts.0; parts.0
  }

  /** `str.upper()` and `str.lower()` restricted to ASCII letters; other characters are kept. */
  function UpperChar(c: char): char
  {
    if 'a' <= c <= 'z' then (c as int - 32) as char else c
  }

  function LowerChar(c: char): char
  {
    if 'A' <= c <= 'Z' then (c as int + 32) as char else c
  }

  function Upper(s: string): (r: string)
    ensures |r| == |s| && forall i | 0 <= i < |s| :: r[i] == UpperChar(s[i])
  {
    seq(|s|, i requires 0 <= i < |s| => UpperChar(s[i]))
  }

  function Lower(s: string): (r: string)
    ensures |r| == |s| && forall i | 0 <= i < |s| :: r[i] == LowerChar(s[i])
  {
    seq(|s|, i requires 0 <= i < |s| => LowerChar(s[i]))
  }

  /** `str(n)` for a natural number: its decimal digits. */
  function NatToString(n: nat): (r: string)
    ensures |r| >= 1 && forall i | 0 <= i < |r| :: '0' <= r[i] <= '9'
  {
    var d := ['0', '1', '2', '3', '4', '5', '6', '7', '8', '9'];
    if n < 10 then [d[n]] else NatToString(n / 10) + [d[n % 10]]
  }

  /** Applies `f` to the elements in order until one fails: the values of those before it
      and the error, or all the values and no error. */
  function RunUntilError<A, B, E>(xs: seq<A>, f: A -> Result<B, E>): (seq<B>, Option<E>)
  {
    if xs == [] then ([], None)
    else
      var before := RunUntilError(xs[..|xs| - 1], f);
      if before.1.Some? then before
      else
        match f(xs[|xs| - 1])
        case Err(e) => (before.0, Some(e))
        case Ok(y) => (before.0 + [y], None)
  }

  /** One more element after a prefix that raised nothing. */
  lemma RunUntilErrorStep<A, B, E>(xs: seq<A>, n: nat, f: A -> Result<B, E>)
    requires n < |xs| && RunUntilError(xs[..n], f).1.None?
    ensures var before, t := RunUntilError(xs[..n], f), f(xs[n]);
      && (t.Err? ==> RunUntilError(xs[..n + 1], f) == (before.0, Some(t.error)))
      && (t.Ok? ==> RunUntilError(xs[..n + 1], f) == (before.0 + [t.value], None))
  {
    assert xs[..n + 1][..n] == xs[..n];
  }

  /** Once an element has failed, the later ones are not run. */
  lemma {:induction false} RunUntilErrorRaised<A, B, E>(xs: seq<A>, n: nat, f: A -> Result<B, E>)
    requires n <= |xs| && RunUntilError(xs[..n], f).1.Some?
    ensures RunUntilError(xs, f) == RunUntilError(xs[..n], f)
    decreases |xs| - n
  {
    if n < |xs| {
      assert xs[..n + 1][..n] == xs[..n];
      RunUntilErrorRaised(xs, n + 1, f);
    } else {
      assert xs[..n] == xs;
    }
  }

  /** At most one value per element, one per element when nothing failed, and each the
      value of the element at its own position. */
  lemma {:induction false} RunUntilErrorMeaning<A, B, E>(xs: seq<A>, f: A -> Result<B, E>)
    ensures var r := RunUntilError(xs, f);
      && |r.0| <= |xs| && (r.1.None? ==> |r.0| == |xs|)
      && forall i | 0 <= i < |r.0| :: f(xs[i]) == Ok(r.0[i])
  {
    if xs != [] {
      var n := |xs|;
      var front := xs[..n - 1];
      RunUntilErrorMeaning(front, f);
      var before := RunUntilError(front, f);
      forall i | 0 <= i < |before.0| ensures xs[i] == front[i] { }
      if before.1.None? && f(xs[n - 1]).Ok? {
        var r := before.0 + [f(xs[n - 1]).value];
        assert RunUntilError(xs, f) == (r, None);
        forall i | 0 <= i < |r| ensures f(xs[i]) == Ok(r[i]) {
          if i < n - 1 {
            assert r[i] == before.0[i];
          }
        }
      }
    }
  }

  /** Values that every element yields are what `RunUntilError` collects, with no error. */
  lemma {:induction false} RunUntilErrorAllOk<A, B, E>(xs: seq<A>, f: A -> Result<B, E>, ys: seq<B>)
    requires |ys| == |xs|
    requires forall j | 0 <= j < |xs| :: f(xs[j]) == Ok(ys[j])
    ensures RunUntilError(xs, f) == (ys, None)
  {
    if xs != [] {
      var n := |xs|;
      var front, more := xs[..n - 1], ys[..n - 1];
      forall j | 0 <= j < |front| ensures f(front[j]) == Ok(more[j]) {
        assert front[j] == xs[j] && more[j] == ys[j];
      }
      RunUntilErrorAllOk(front, f, more);
      assert f(xs[n - 1]) == Ok(ys[n - 1]);
      assert more + [ys[n - 1]] == ys;
    }
  }

  /** The error `RunUntilError` stops at is the first element's error. */
  lemma RunUntilErrorFirstError<A, B, E>(xs: seq<A>, f: A -> Result<B, E>, i: nat)
    requires i < |xs| && f(xs[i]).Err?
    requires forall j | 0 <= j < i :: f(xs[j]).Ok?
    ensures RunUntilError(xs, f).1 == Some(f(xs[i]).error)
  {
    var front := xs[..i];
    var ys := seq(i, j requires 0 <= j < i => f(xs[j]).value);
    forall j | 0 <= j < i ensures f(front[j]) == Ok(ys[j]) {
      assert front[j] == xs[j];
    }
    RunUntilErrorAllOk(front, f, ys);
    RunUntilErrorStep(xs, i, f);
    RunUntilErrorRaised(xs, i + 1, f);
  }
}
