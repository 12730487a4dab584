/** Strings, decimal numerals and small option values shared by the models.
    A Go string is a sequence of bytes; each char of a Dafny string stands for one byte. */
module Text {

  datatype Option<+T> = None | Some(value: T)

  /** strings.Contains */
  predicate Contains(s: string, sub: string)
  {
    exists k :: 0 <= k <= |s| - |sub| && OccursAt(s, sub, k)
  }

  predicate OccursAt(s: string, sub: string, k: int)
    requires 0 <= k <= |s| - |sub|
  {
    s[k..k + |sub|] == sub
  }

  predicate HasPrefix(s: string, p: string)
  {
    |p| <= |s| && s[..|p|] == p
  }

  predicate HasSuffix(s: string, p: string)
  {
    |p| <= |s| && s[|s| - |p|..] == p
  }

  /** strings.IndexByte: the first position of c at or after `from`, or -1. */
  function IndexFrom(s: string, c: char, from: nat): (k: int)
    requires from <= |s|
    ensures k == -1 || (from <= k < |s| && s[k] == c)
    ensures forall j :: from <= j < (if k == -1 then |s| else k) ==> s[j] != c
    decreases |s| - from
  {
    if from == |s| then -1
    else if s[from] == c then from
    else IndexFrom(s, c, from + 1)
  }

  const DIGITS := "0123456789"

  predicate IsDigit(c: char) { '0' <= c <= '9' }

  /** strconv.Itoa for the non-negative numbers this repository formats. */
  function Itoa(n: nat): (s: string)
    ensures |s| > 0 && forall k :: 0 <= k < |s| ==> IsDigit(s[k])
  {
    if n < 10 then [DIGITS[n]] else Itoa(n / 10) + [DIGITS[n % 10]]
  }

  /** The value a decimal numeral denotes. */
  function ValueOf(s: string): int
    requires forall k :: 0 <= k < |s| ==> IsDigit(s[k])
  {
    if s == "" then 0 else ValueOf(s[..|s| - 1]) * 10 + (s[|s| - 1] as int - '0' as int)
  }

  lemma {:induction false} ItoaRoundTrip(n: nat)
    ensures ValueOf(Itoa(n)) == n
  {
    if n >= 10 {
      ItoaRoundTrip(n / 10);
      assert Itoa(n)[..|Itoa(n)| - 1] == Itoa(n / 10);
    }
  }

  /** Distinct numbers have distinct numerals. */
  lemma ItoaInjective(m: nat, n: nat)
    requires Itoa(m) == Itoa(n)
    ensures m == n
  {
    ItoaRoundTrip(m);
    ItoaRoundTrip(n);
  }

  function Pow10(d: nat): nat { if d == 0 then 1 else 10 * Pow10(d - 1) }

  lemma {:induction false} ItoaLength(n: nat, d: nat)
    requires d > 0 && n < Pow10(d)
    ensures |Itoa(n)| <= d
  {
    if n >= 10 {
      ItoaLength(n / 10, d - 1);
    }
  }

  // ---- Texts put together and taken apart ----

  lemma SameHead(a: string, b: string, s: string, t: string, c: char)
    requires a + [c] + s == b + [c] + t && c !in a && c !in b
    ensures a == b && s == t
  {
    var all := a + [c] + s;
    assert all[|a|] == c && all[|b|] == c;
    assert forall i :: 0 <= i < |a| ==> all[i] == a[i];
    assert forall i :: 0 <= i < |b| ==> all[i] == b[i];
    assert |a| == |b|;
    assert a == all[..|a|] && b == all[..|b|] && s == all[|a| + 1..] && t == all[|b| + 1..];
  }

  lemma SameTail(a: string, b: string, s: string, t: string, c: char)
    requires a + [c] + s == b + [c] + t && c !in s && c !in t
    ensures a == b && s == t
  {
    var all := a + [c] + s;
    assert all[|a|] == c && all[|b|] == c;
    assert forall i :: |a| < i < |all| ==> all[i] == s[i - |a| - 1];
    assert forall i :: |b| < i < |all| ==> all[i] == t[i - |b| - 1];
    assert |a| == |b|;
    assert a == all[..|a|] && b == all[..|b|] && s == all[|a| + 1..] && t == all[|b| + 1..];
  }

  lemma SameFront(a: string, b: string, s: string)
    requires a + s == b + s
    ensures a == b
  {
    assert a == (a + s)[..|a|] && b == (b + s)[..|b|];
  }

  lemma SameBack(a: string, s: string, t: string)
    requires a + s == a + t
    ensures s == t
  {
    assert s == (a + s)[|a|..] && t == (a + t)[|a|..];
  }
}
