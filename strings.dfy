/** The Python string operations the processors rely on: `s * n`,
    `str.lower()` (restricted to ASCII letters), decimal formatting of a
    count and the `f"{label}_{n}"` token. */
module Strings {

  /** Python's `s * n` for a non-negative count. */
  function Repeat(s: string, n: nat): (r: string)
    ensures |r| == |s| * n
    ensures forall i :: 0 <= i < |r| ==> r[i] in s
    ensures |s| == 1 ==> forall i :: 0 <= i < |r| ==> r[i] == s[0]
  {
    if n == 0 then "" else Repeat(s, n - 1) + s
  }

  /** Character `i` of `s * n` is character `i mod |s|` of `s`: the copies
      follow one another, each starting at a multiple of `|s|`. */
  lemma {:induction false} RepeatAt(s: string, n: nat)
    ensures forall i :: 0 <= i < |Repeat(s, n)| ==> |s| > 0 && Repeat(s, n)[i] == s[i % |s|]
  {
    if n > 0 {
      RepeatAt(s, n - 1);
      var prefix := Repeat(s, n - 1);
      assert Repeat(s, n) == prefix + s;
      assert |prefix| == (n - 1) * |s|;
      forall i | 0 <= i < |Repeat(s, n)|
        ensures |s| > 0 && Repeat(s, n)[i] == s[i % |s|]
      {
        if i >= |prefix| {
          BlockRemainder(n - 1, |s|, i - |prefix|);
        }
      }
    } else {
      assert Repeat(s, n) == "";
    }
  }

  /** Dividing `q * m + j` by `m` leaves `j` when `j < m`. */
  lemma {:induction false} BlockRemainder(q: nat, m: nat, j: nat)
    requires j < m
    ensures (q * m + j) % m == j
  {
    var x := q * m + j;
    var d, r := x / m, x % m;
    assert x == d * m + r && 0 <= r < m;
    assert (d - q) * m == d * m - q * m;
    assert (d - q) * m == j - r;
    if d != q {
      NonzeroMultiple(d - q, m);
    }
  }

  /** A non-zero multiple of `m` is at least `m` away from zero. */
  lemma {:induction false} NonzeroMultiple(k: int, m: int)
    requires k != 0 && m >= 0
    ensures k * m >= m || k * m <= -m
    decreases if k > 0 then k else -k
  {
    if k > 1 {
      NonzeroMultiple(k - 1, m);
    } else if k < -1 {
      NonzeroMultiple(k + 1, m);
    }
  }

  predicate IsUpper(c: char) { 'A' <= c <= 'Z' }

  function LowerChar(c: char): (d: char)
    ensures !IsUpper(d)
  {
    if IsUpper(c) then (c as int + 32) as char else c
  }

  /** `str.lower()` on ASCII letters; every other character is kept. */
  function Lower(s: string): (r: string)
    ensures |r| == |s|
    ensures forall i :: 0 <= i < |s| ==> r[i] == LowerChar(s[i])
  {
    if s == [] then [] else [LowerChar(s[0])] + Lower(s[1..])
  }

  /** Lower-casing twice is lower-casing once. */
  lemma LowerIdempotent(s: string)
    ensures Lower(Lower(s)) == Lower(s)
  {
  }

  predicate IsDigit(c: char) { '0' <= c <= '9' }

  predicate AllDigits(s: string) {
    forall i :: 0 <= i < |s| ==> IsDigit(s[i])
  }

  function DigitChar(d: nat): (c: char)
    requires d < 10
    ensures IsDigit(c) && c as int - '0' as int == d
  {
    ('0' as int + d) as char
  }

  /** Python's `str(n)` for a non-negative integer: canonical decimal digits. */
  function Decimal(n: nat): (r: string)
    ensures r != [] && AllDigits(r)
    ensures r[0] == '0' ==> n == 0
  {
    if n < 10 then [DigitChar(n)] else Decimal(n / 10) + [DigitChar(n % 10)]
  }

  /** The number a string of decimal digits denotes. */
  function DecimalValue(s: string): nat
    requires AllDigits(s)
  {
    if s == [] then 0
    else DecimalValue(s[..|s| - 1]) * 10 + (s[|s| - 1] as int - '0' as int)
  }

  /** Reading back a formatted count gives the count. */
  lemma {:induction false} DecimalRoundTrip(n: nat)
    ensures DecimalValue(Decimal(n)) == n
  {
    if n >= 10 {
      DecimalRoundTrip(n / 10);
      var r := Decimal(n);
      assert r[..|r| - 1] == Decimal(n / 10);
    }
  }

  /** The `f"{key}_{n}"` token used by both marker styles. */
  function Numbered(key: string, n: nat): string {
    key + "_" + Decimal(n)
  }

  /** The token's `_` sits right after the key; only digits follow it. */
  lemma NumberedShape(key: string, n: nat)
    ensures Numbered(key, n)[|key|] == '_'
    ensures forall i :: |key| < i < |Numbered(key, n)| ==> IsDigit(Numbered(key, n)[i])
  {
    var d := Decimal(n);
    assert forall i :: |key| < i < |Numbered(key, n)| ==> Numbered(key, n)[i] == d[i - |key| - 1];
  }

  /** Distinct (label, count) pairs give distinct tokens: the digits after
      the last `_` are the count, and what precedes that `_` is the label. */
  lemma NumberedInjective(l1: string, n1: nat, l2: string, n2: nat)
    requires Numbered(l1, n1) == Numbered(l2, n2)
    ensures l1 == l2 && n1 == n2
  {
    var s := Numbered(l1, n1);
    var d1, d2 := Decimal(n1), Decimal(n2);
    assert s == l1 + "_" + d1 && s == l2 + "_" + d2;
    NumberedShape(l1, n1);
    NumberedShape(l2, n2);
    // each key ends where the other token has its `_`, not a digit
    assert !IsDigit(s[|l1|]) && !IsDigit(s[|l2|]);
    assert |l1| == |l2|;
    assert l1 == s[..|l1|] == l2;
    assert d1 == s[|l1| + 1..] == d2;
    DecimalRoundTrip(n1);
    DecimalRoundTrip(n2);
  }
}
