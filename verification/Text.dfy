/**
 The order in which the storage engine keeps its string keys, and the decimal
 rendering that history keys end with.

 A `str` key compares byte by byte, which on UTF-8 text is the same as code
 point by code point; `Less` is that order.
 */
module Text {

  const NUL := '\0'

  /// The strict lexicographic order of string keys.
  predicate Less(a: string, b: string) {
    b != [] && (a == [] || a[0] < b[0] || (a[0] == b[0] && Less(a[1..], b[1..])))
  }

  lemma {:induction false} LessIrreflexive(a: string)
    ensures !Less(a, a)
  {
    if a != [] {
      LessIrreflexive(a[1..]);
    }
  }

  lemma {:induction false} LessTransitive(a: string, b: string, c: string)
    requires Less(a, b) && Less(b, c)
    ensures Less(a, c)
  {
    if a != [] && a[0] == b[0] && b[0] == c[0] {
      LessTransitive(a[1..], b[1..], c[1..]);
    }
  }

  lemma {:induction false} LessTotal(a: string, b: string)
    ensures Less(a, b) || a == b || Less(b, a)
  {
    if a != [] && b != [] && a[0] == b[0] {
      LessTotal(a[1..], b[1..]);
      assert a == [a[0]] + a[1..] && b == [b[0]] + b[1..];
    }
  }

  /// A common prefix does not influence a comparison.
  lemma {:induction false} LessAfterPrefix(p: string, a: string, b: string)
    ensures Less(p + a, p + b) <==> Less(a, b)
  {
    if p == [] {
      assert p + a == a && p + b == b;
    } else {
      LessAfterPrefix(p[1..], a, b);
      assert (p + a)[1..] == p[1..] + a && (p + b)[1..] == p[1..] + b;
    }
  }

  /// Between strings of one length, whatever follows them does not matter.
  lemma {:induction false} LessBeforeSuffix(a: string, b: string, u: string, v: string)
    requires |a| == |b| && Less(a, b)
    ensures Less(a + u, b + v)
  {
    assert (a + u)[1..] == a[1..] + u && (b + v)[1..] == b[1..] + v;
    if a[0] == b[0] {
      LessBeforeSuffix(a[1..], b[1..], u, v);
    }
  }

  /// The keys that start with `p` are contiguous in key order: none lies below
  /// `p`, and once a scan from `p` upwards meets a key without the prefix, no
  /// later key has it.
  lemma {:induction false} PrefixIsContiguous(p: string, k: string, later: string)
    ensures p <= k ==> !Less(k, p)
    ensures !Less(k, p) && !(p <= k) && Less(k, later) ==> !(p <= later)
  {
    if p != [] && k != [] && p[0] == k[0] {
      PrefixIsContiguous(p[1..], k[1..], if later == [] then [] else later[1..]);
      assert p <= k <==> p[1..] <= k[1..] by {
        assert p == [p[0]] + p[1..] && k == [k[0]] + k[1..];
      }
      if p <= later {
        assert later[0] == p[0] && p[1..] <= later[1..];
      }
    }
  }

  // ---- Decimal rendering ----------------------------------------------------

  function Digit(d: nat): char
    requires d < 10
  {
    "0123456789"[d]
  }

  lemma DigitOrder(a: nat, b: nat)
    requires a < b < 10
    ensures Digit(a) < Digit(b)
  {
  }

  /// The shortest decimal rendering.
  function Decimal(n: nat): (s: string)
    ensures s != []
  {
    if n < 10 then [Digit(n)] else Decimal(n / 10) + [Digit(n % 10)]
  }

  function Repeat(c: char, n: nat): (s: string)
    ensures |s| == n
  {
    if n == 0 then [] else [c] + Repeat(c, n - 1)
  }

  /// Rendering padded on the left with zeros to at least 20 characters.
  function Padded(n: nat): string {
    var s := Decimal(n);
    Repeat('0', if |s| < 20 then 20 - |s| else 0) + s
  }

  function Pow10(w: nat): (p: nat)
    ensures p > 0
  {
    if w == 0 then 1 else 10 * Pow10(w - 1)
  }

  /// The last `w` decimal digits of `n`.
  function Digits(n: nat, w: nat): (s: string)
    ensures |s| == w
  {
    if w == 0 then [] else Digits(n / 10, w - 1) + [Digit(n % 10)]
  }

  lemma {:induction false} DecimalIsDigits(n: nat)
    ensures Decimal(n) == Digits(n, |Decimal(n)|)
    ensures n < Pow10(|Decimal(n)|)
  {
    if n < 10 {
      assert Digits(n, 1) == Digits(n / 10, 0) + [Digit(n % 10)];
      assert Pow10(1) == 10 * Pow10(0);
    } else {
      DecimalIsDigits(n / 10);
    }
  }

  lemma {:induction false} DecimalIsShort(n: nat, w: nat)
    requires 0 < w && n < Pow10(w)
    ensures |Decimal(n)| <= w
  {
    if n >= 10 {
      assert Pow10(1) == 10;
      DecimalIsShort(n / 10, w - 1);
    }
  }

  lemma {:induction false} LeadingZero(n: nat, w: nat)
    requires n < Pow10(w)
    ensures Digits(n, w + 1) == ['0'] + Digits(n, w)
  {
    if w > 0 {
      LeadingZero(n / 10, w - 1);
    }
  }

  lemma {:induction false} LeadingZeros(n: nat, w: nat, zeros: nat)
    requires n < Pow10(w)
    ensures Digits(n, w + zeros) == Repeat('0', zeros) + Digits(n, w)
    ensures n < Pow10(w + zeros)
  {
    if zeros > 0 {
      LeadingZeros(n, w, zeros - 1);
      LeadingZero(n, w + zeros - 1);
    }
  }

  const U64_MAX := 0xFFFF_FFFF_FFFF_FFFF

  lemma U64FitsTwentyDigits()
    ensures U64_MAX < Pow10(20)
  {
    assert Pow10(4) == 10000 by { assert Pow10(2) == 100; }
    assert Pow10(8) == 10000_0000 by { assert Pow10(6) == 100_0000; }
    assert Pow10(12) == 10000_0000_0000 by { assert Pow10(10) == 100_0000_0000; }
    assert Pow10(16) == 10000_0000_0000_0000 by { assert Pow10(14) == 100_0000_0000_0000; }
    assert Pow10(20) == 10000_0000_0000_0000_0000 by { assert Pow10(18) == 100_0000_0000_0000_0000; }
  }

  lemma PaddedIsTwentyDigits(n: nat)
    requires n <= U64_MAX
    ensures Padded(n) == Digits(n, 20)
  {
    U64FitsTwentyDigits();
    DecimalIsDigits(n);
    DecimalIsShort(n, 20);
    var w := |Decimal(n)|;
    LeadingZeros(n, w, 20 - w);
  }

  lemma {:induction false} DigitsOrder(a: nat, b: nat, w: nat)
    requires a < b < Pow10(w)
    ensures Less(Digits(a, w), Digits(b, w))
  {
    if a / 10 < b / 10 {
      DigitsOrder(a / 10, b / 10, w - 1);
      LessBeforeSuffix(Digits(a / 10, w - 1), Digits(b / 10, w - 1), [Digit(a % 10)], [Digit(b % 10)]);
    } else {
      DigitOrder(a % 10, b % 10);
      LessAfterPrefix(Digits(a / 10, w - 1), [Digit(a % 10)], [Digit(b % 10)]);
    }
  }

  /// Zero padding to 20 digits turns numeric order into key order, for every
  /// pair of 64-bit sequence numbers and in both directions.
  lemma PaddedOrder(a: nat, b: nat)
    requires a <= U64_MAX && b <= U64_MAX
    ensures a < b <==> Less(Padded(a), Padded(b))
    ensures a == b <==> Padded(a) == Padded(b)
  {
    U64FitsTwentyDigits();
    PaddedIsTwentyDigits(a);
    PaddedIsTwentyDigits(b);
    LessIrreflexive(Padded(a));
    if a < b {
      DigitsOrder(a, b, 20);
    } else if b < a {
      DigitsOrder(b, a, 20);
      if Less(Padded(a), Padded(b)) {
        LessTransitive(Padded(a), Padded(b), Padded(a));
      }
    }
  }
}
