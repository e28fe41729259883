/** Decimal text of non-negative integers, as JavaScript's `toString`,
    `slice(-k)`, `padStart` and `parseInt` produce and read it. The order
    service builds local order ids through these and routes requests by the
    length of an id's text. */
module Decimal {

  predicate IsDigit(c: char) { '0' <= c <= '9' }

  predicate AllDigits(s: string) { forall i :: 0 <= i < |s| ==> IsDigit(s[i]) }

  function DigitChar(d: nat): (c: char)
    requires d < 10
    ensures IsDigit(c)
  {
    ('0' as int + d) as char
  }

  function DigitValue(c: char): (d: nat)
    requires IsDigit(c)
    ensures d < 10
  {
    c as int - '0' as int
  }

  function Pow10(k: nat): (p: nat)
    ensures p >= 1
  {
    if k == 0 then 1 else 10 * Pow10(k - 1)
  }

  /** `n.toString()`: the shortest decimal text of `n`, no leading zeros. */
  function ToDecimal(n: nat): (s: string)
    ensures |s| >= 1 && AllDigits(s)
  {
    if n < 10 then [DigitChar(n)] else ToDecimal(n / 10) + [DigitChar(n % 10)]
  }

  /** `parseInt` applied to a text made of decimal digits only (leading
      zeros are read and ignored, the empty text reads as 0 here). */
  function ParseDigits(s: string): (n: nat)
    requires AllDigits(s)
  {
    if s == [] then 0 else 10 * ParseDigits(s[..|s| - 1]) + DigitValue(s[|s| - 1])
  }

  /** `s.slice(-k)`: the last `k` characters, or all of `s` when it is
      shorter; `-0` is `0`, so `slice(-0)` is all of `s` too. */
  function TakeLast(s: string, k: nat): (t: string)
    ensures |t| == if k == 0 || |s| < k then |s| else k
    ensures t == s[|s| - |t|..]
  {
    if k == 0 || |s| < k then s else s[|s| - k..]
  }

  function Zeros(k: nat): (z: string)
    ensures |z| == k && AllDigits(z)
    ensures forall i :: 0 <= i < k ==> z[i] == '0'
  {
    if k == 0 then [] else Zeros(k - 1) + ['0']
  }

  /** `s.padStart(k, '0')`. */
  function PadStart(s: string, k: nat): (t: string)
    ensures |t| == if |s| < k then k else |s|
    ensures |s| >= k ==> t == s
    ensures t[|t| - |s|..] == s && forall i :: 0 <= i < |t| - |s| ==> t[i] == '0'
  {
    if |s| < k then Zeros(k - |s|) + s else s
  }

  /** Padding a digit text with zeros keeps it a digit text of the same value. */
  lemma PadStartParse(s: string, k: nat)
    requires AllDigits(s)
    ensures AllDigits(PadStart(s, k)) && ParseDigits(PadStart(s, k)) == ParseDigits(s)
  {
    if |s| < k {
      ParseAppend(Zeros(k - |s|), s);
      ParseZeros(k - |s|);
    }
  }

  lemma {:induction false} ParseZeros(k: nat)
    ensures ParseDigits(Zeros(k)) == 0
  {
    if k > 0 {
      assert Zeros(k)[..k - 1] == Zeros(k - 1);
      ParseZeros(k - 1);
    }
  }

  lemma {:induction false} ParseBound(s: string)
    requires AllDigits(s)
    ensures ParseDigits(s) < Pow10(|s|)
  {
    if s != [] {
      ParseBound(s[..|s| - 1]);
    }
  }

  /** Reading a concatenation shifts the first part by the length of the second. */
  lemma {:induction false} ParseAppend(s: string, t: string)
    requires AllDigits(s) && AllDigits(t)
    ensures AllDigits(s + t)
    ensures ParseDigits(s + t) == ParseDigits(s) * Pow10(|t|) + ParseDigits(t)
  {
    if t == [] {
      assert s + t == s;
    } else {
      var t' := t[..|t| - 1];
      assert (s + t)[..|s + t| - 1] == s + t';
      assert (s + t)[|s + t| - 1] == t[|t| - 1];
      ParseAppend(s, t');
      calc {
        ParseDigits(s + t);
        10 * ParseDigits(s + t') + DigitValue(t[|t| - 1]);
        10 * (ParseDigits(s) * Pow10(|t'|) + ParseDigits(t')) + DigitValue(t[|t| - 1]);
        { MulAssoc10(ParseDigits(s), Pow10(|t'|)); }
        ParseDigits(s) * Pow10(|t|) + ParseDigits(t);
      }
    }
  }

  lemma MulAssoc10(a: nat, b: nat)
    ensures 10 * (a * b) == a * (10 * b)
  {
  }

  /** `parseInt(n.toString()) == n`. */
  lemma {:induction false} ParseToDecimal(n: nat)
    ensures ParseDigits(ToDecimal(n)) == n
  {
    if n >= 10 {
      var s := ToDecimal(n);
      assert s[..|s| - 1] == ToDecimal(n / 10);
      ParseToDecimal(n / 10);
    }
  }

  lemma ModOfSplit(a: nat, b: nat, m: nat)
    requires m >= 1 && b < m
    ensures (a * m + b) % m == b && (a * m + b) / m == a
  {
    var x := a * m + b;
    var q, r := x / m, x % m;
    assert x == q * m + r;
    assert (a - q) * m == r - b;
    if q < a {
      MulAtLeast(a - q, m);
      assert false;
    } else if a < q {
      MulAtLeast(q - a, m);
      assert false;
    }
  }

  lemma {:induction false} MulAtLeast(d: nat, m: nat)
    requires d >= 1
    ensures d * m >= m
  {
    if d > 1 {
      MulAtLeast(d - 1, m);
      assert d * m == (d - 1) * m + m;
    }
  }

  /** Reading the last `k` digits of a text keeps its value modulo 10^k. */
  lemma ParseSuffix(s: string, k: nat)
    requires AllDigits(s) && k <= |s|
    ensures ParseDigits(s[|s| - k..]) == ParseDigits(s) % Pow10(k)
  {
    var pre, suf := s[..|s| - k], s[|s| - k..];
    assert s == pre + suf;
    ParseAppend(pre, suf);
    ParseBound(suf);
    ModOfSplit(ParseDigits(pre), ParseDigits(suf), Pow10(k));
  }

  /** The text of `n` has at most `k` characters exactly when `n < 10^k`. */
  lemma {:induction false} DecimalLength(n: nat, k: nat)
    requires k >= 1
    ensures |ToDecimal(n)| <= k <==> n < Pow10(k)
  {
    if n >= 10 {
      if k == 1 {
        assert |ToDecimal(n)| == |ToDecimal(n / 10)| + 1;
      } else {
        DecimalLength(n / 10, k - 1);
      }
    }
  }
}
