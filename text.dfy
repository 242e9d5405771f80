/** String helpers with the meaning of the Python built-ins they stand for. */
module Text {

  /** `sep.join(parts)`. */
  function Join(sep: string, parts: seq<string>): string
  {
    if |parts| == 0 then ""
    else if |parts| == 1 then parts[0]
    else Join(sep, parts[..|parts| - 1]) + sep + parts[|parts| - 1]
  }

  /** Joining more parts only extends the text of a non-empty list. */
  lemma {:induction false} JoinExtends(sep: string, a: seq<string>, b: seq<string>)
    requires a != []
    ensures Join(sep, a) <= Join(sep, a + b)
    decreases |b|
  {
    if b != [] {
      var init := b[..|b| - 1];
      assert (a + b)[..|a + b| - 1] == a + init;
      JoinExtends(sep, a, init);
    } else {
      assert a + b == a;
    }
  }

  /** `s[:n]` for a non-negative `n`. */
  function Truncate(s: string, n: nat): (r: string)
    ensures |r| <= n && |r| <= |s|
    ensures r == s[..|r|]
    ensures |s| <= n ==> r == s
  {
    if |s| <= n then s else s[..n]
  }

  predicate OccursAt(s: string, sub: string, i: int)
  {
    0 <= i && i + |sub| <= |s| && s[i..i + |sub|] == sub
  }

  /** `sub in s` for strings. */
  predicate Contains(s: string, sub: string)
  {
    exists i | 0 <= i <= |s| - |sub| :: OccursAt(s, sub, i)
  }

  function DigitChar(d: nat): char
    requires d < 10
  {
    "0123456789"[d]
  }

  /** Decimal digits of a natural number, as `str(n)`. */
  function NatToString(n: nat): (r: string)
    ensures |r| >= 1
  {
    if n < 10 then [DigitChar(n)] else NatToString(n / 10) + [DigitChar(n % 10)]
  }

  /** `str(i)` for a Python int. */
  function IntToString(i: int): string
  {
    if i < 0 then "-" + NatToString(-i) else NatToString(i)
  }

  /**
   * `str(sum / 2)` for an int `sum` (Python's true division yields a float
   * whose shortest form is `q.0` or `q.5`); exact for |sum| < 2^53, where the
   * half-integer quotient is still a float.
   */
  function HalfToString(sum: int): string
  {
    var magnitude := if sum < 0 then -sum else sum;
    (if sum < 0 then "-" else "") + NatToString(magnitude / 2) + (if magnitude % 2 == 0 then ".0" else ".5")
  }
}
