/** Decimal strings: the printer behind `U256::to_string`, the parser behind
    `U256::from_dec_str`, and how cutting and padding strings relates to integer arithmetic. */
module Decimal {
  import opened Prelude
  import opened Arithmetic

  predicate IsDigit(c: char) { '0' <= c <= '9' }

  predicate AllDigits(s: string) { forall i :: 0 <= i < |s| ==> IsDigit(s[i]) }

  function Digit(d: nat): char
    requires d < 10
  {
    ('0' as int + d) as char
  }

  function DigitValue(c: char): (d: nat)
    requires IsDigit(c)
    ensures d < 10 && Digit(d) == c
  {
    c as int - '0' as int
  }

  /** The number a digit string denotes; the empty string denotes 0. */
  function Value(s: string): nat
    requires AllDigits(s)
  {
    if s == "" then 0 else 10 * Value(s[..|s| - 1]) + DigitValue(s[|s| - 1])
  }

  function Pow10(k: nat): (p: nat)
    ensures p > 0
  {
    if k == 0 then 1 else 10 * Pow10(k - 1)
  }

  function Zeros(k: nat): (s: string)
    ensures |s| == k
    ensures forall i :: 0 <= i < k ==> s[i] == '0'
  {
    seq(k, _ => '0')
  }

  /** `U256::to_string`: no leading zeros, and "0" for zero. */
  function Print(n: nat): string {
    if n < 10 then [Digit(n)] else Print(n / 10) + [Digit(n % 10)]
  }

  /** The low `k` decimal digits of `n`, zero-padded to exactly `k` characters. */
  function Fixed(n: nat, k: nat): string {
    if k == 0 then "" else Fixed(n / 10, k - 1) + [Digit(n % 10)]
  }

  /** `U256::from_dec_str`: accepts any digit string, the empty one included, whose value fits. */
  function FromDecStr(s: string): Result<nat, string> {
    if AllDigits(s) && Value(s) < U256_LIMIT then Ok(Value(s)) else Err("invalid decimal string")
  }

  lemma PowSum(a: nat, b: nat)
    ensures Pow10(a + b) == Pow10(a) * Pow10(b)
    decreases b
  {
    if b > 0 {
      PowSum(a, b - 1);
      assert Pow10(a + b) == 10 * Pow10(a + (b - 1));
    }
  }

  lemma PowMonotone(a: nat, b: nat)
    requires a <= b
    ensures Pow10(a) <= Pow10(b)
  {
    PowSum(a, b - a);
    MulAtLeast(Pow10(a), Pow10(b - a));
  }

  /** Concatenation shifts the left part by the length of the right part. */
  lemma {:induction false} ValueConcat(a: string, b: string)
    requires AllDigits(a) && AllDigits(b)
    ensures AllDigits(a + b)
    ensures Value(a + b) == Value(a) * Pow10(|b|) + Value(b)
    decreases |b|
  {
    if b == "" {
      assert a + b == a;
    } else {
      var b', d := b[..|b| - 1], DigitValue(b[|b| - 1]);
      assert (a + b)[..|a + b| - 1] == a + b';
      ValueConcat(a, b');
      MulTen(Value(a), Pow10(|b'|));
      assert Value(a + b) == 10 * Value(a + b') + d;
      assert Value(b) == 10 * Value(b') + d;
    }
  }

  lemma {:induction false} ValueZeros(k: nat)
    ensures AllDigits(Zeros(k)) && Value(Zeros(k)) == 0
  {
    if k > 0 {
      assert Zeros(k)[..k - 1] == Zeros(k - 1);
      ValueZeros(k - 1);
    }
  }

  /** Printing and reading undo each other. */
  lemma {:induction false} PrintValue(n: nat)
    ensures |Print(n)| > 0 && AllDigits(Print(n)) && Value(Print(n)) == n
  {
    if n >= 10 {
      PrintValue(n / 10);
      assert Print(n)[..|Print(n)| - 1] == Print(n / 10);
    } else {
      assert [Digit(n)][..0] == "";
    }
  }

  lemma {:induction false} FixedValue(n: nat, k: nat)
    ensures |Fixed(n, k)| == k && AllDigits(Fixed(n, k)) && Value(Fixed(n, k)) == n % Pow10(k)
    decreases k
  {
    if k > 0 {
      FixedValue(n / 10, k - 1);
      assert Fixed(n, k)[..k - 1] == Fixed(n / 10, k - 1);
      DivDiv(n, 10, Pow10(k - 1));
    }
  }

  lemma {:induction false} FixedLength(n: nat, k: nat)
    ensures |Fixed(n, k)| == k
    decreases k
  {
    if k > 0 {
      FixedLength(n / 10, k - 1);
    }
  }

  /** A number of more than `k` digits prints as its quotient followed by its last `k` digits. */
  lemma {:induction false} PrintSplit(n: nat, k: nat)
    requires n >= Pow10(k)
    ensures Print(n) == Print(n / Pow10(k)) + Fixed(n, k)
    decreases k
  {
    if k == 0 {
      assert Print(n) + "" == Print(n);
    } else {
      PrintSplit(n / 10, k - 1);
      DivDiv(n, 10, Pow10(k - 1));
    }
  }

  /** A number of at most `k` digits prints as its fixed-width form without leading zeros. */
  lemma {:induction false} PrintPad(n: nat, k: nat)
    requires k > 0 && n < Pow10(k)
    ensures 1 <= |Print(n)| <= k
    ensures Fixed(n, k) == Zeros(k - |Print(n)|) + Print(n)
    decreases k
  {
    if n < 10 {
      FixedSmall(n, k);
    } else {
      assert Pow10(k) == 10 * Pow10(k - 1);
      PrintPad(n / 10, k - 1);
      assert Zeros(k - |Print(n)|) == Zeros(k - 1 - |Print(n / 10)|);
    }
  }

  lemma {:induction false} FixedSmall(n: nat, k: nat)
    requires k > 0 && n < 10
    ensures Fixed(n, k) == Zeros(k - 1) + [Digit(n)]
    decreases k
  {
    if k > 1 {
      FixedSmall(0, k - 1);
      assert Zeros(k - 1) == Zeros(k - 2) + ['0'];
    }
  }

  /** Dropping the last `k` characters of a printed number is floor division by 10^k; a number
      with at most `k` digits loses them all and denotes 0. */
  lemma {:induction false} DropIsDivision(n: nat, k: nat)
    requires k > 0
    ensures var kept := Print(n)[..if |Print(n)| > k then |Print(n)| - k else 0];
            AllDigits(kept) && Value(kept) == n / Pow10(k)
  {
    PrintValue(n);
    if n < Pow10(k) {
      PrintPad(n, k);
      DivUnique(n, Pow10(k), 0, n);
    } else {
      PrintSplit(n, k);
      FixedValue(n, k);
      PrintValue(n / Pow10(k));
      assert Print(n)[..|Print(n)| - k] == Print(n / Pow10(k));
    }
  }
}
