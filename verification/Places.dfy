/** What the number formats say digit by digit: positional notation, independent of how the
    encoders walk. */
module Places {
  import opened Common

  /** The bytes of an ASCII literal. */
  function Ascii(s: string): (b: Bytes)
    requires forall i :: 0 <= i < |s| ==> s[i] < 128 as char
  {
    seq(|s|, i requires 0 <= i < |s| => s[i] as int)
  }

  function Power(base: nat, k: nat): (p: nat)
    requires base > 0
    ensures p > 0
  {
    if k == 0 then 1 else base * Power(base, k - 1)
  }

  lemma MultipleOutside(e: int, d: int)
    requires d > 0
    ensures (e >= 1 ==> e * d >= d) && (e <= -1 ==> e * d <= -d)
  {
  }

  lemma QuotientIs(n: int, d: int, q: int, r: int)
    requires d > 0 && n == q * d + r && 0 <= r < d
    ensures n / d == q && n % d == r
  {
    var e := n / d - q;
    assert e * d == (n / d) * d - q * d;
    MultipleOutside(e, d);
  }

  lemma Regroup(a: int, b: int, r: int, t: int)
    ensures a * (b * r + t) == r * (a * b) + a * t
  {
    calc {
      a * (b * r + t);
      a * (b * r) + a * t;
      (a * b) * r + a * t;
    }
  }

  lemma Below(a: int, t: int, b: int)
    requires a > 0 && 0 <= t <= b - 1
    ensures 0 <= a * t <= a * b - a
  {
    var c := b - 1 - t;
    NotNegative(a, t);
    NotNegative(a, c);
    assert a * b == a * (c + 1 + t);
    assert a * (c + 1 + t) == a * c + a + a * t;
  }

  lemma NotNegative(a: int, c: int)
    requires a > 0 && c >= 0
    ensures a * c >= 0
  {
  }

  /** Dividing twice is dividing once by the product. */
  lemma DivideTwice(n: nat, a: nat, b: nat)
    requires a > 0 && b > 0
    ensures a * b > 0 && n / a / b == n / (a * b)
  {
    var q, s := n / a, n % a;
    var r, t := q / b, q % b;
    Regroup(a, b, r, t);
    Below(a, t, b);
    var m, u := a * b, a * t + s;
    assert n == r * m + u;
    QuotientIs(n, m, r, u);
  }

  /** The digit of n at place k. */
  function Digit(n: nat, base: nat, k: nat): (d: nat)
    requires base > 0
    ensures d < base
  {
    n / Power(base, k) % base
  }

  lemma NextDigit(n: nat, base: nat, k: nat)
    requires base > 0
    ensures Digit(n, base, k + 1) == Digit(n / base, base, k)
  {
    DivideTwice(n, base, Power(base, k));
  }

  /** The sum of digit times place value, the least significant digit last. */
  function PlaceSum(s: seq<nat>, base: nat, k: nat): nat
    requires base > 0 && k <= |s|
  {
    if k == 0 then 0 else PlaceSum(s, base, k - 1) + s[|s| - k] * Power(base, k - 1)
  }

  lemma {:induction false} PlaceSumShifts(s: seq<nat>, base: nat, k: nat)
    requires base > 0 && 1 <= k <= |s|
    ensures PlaceSum(s, base, k) == s[|s| - 1] + base * PlaceSum(s[..|s| - 1], base, k - 1)
  {
    var init := s[..|s| - 1];
    if k == 1 {
      assert PlaceSum(s, base, 0) == 0 && Power(base, 0) == 1;
    } else {
      PlaceSumShifts(s, base, k - 1);
      var x, p := s[|s| - k], Power(base, k - 2);
      assert init[|init| - (k - 1)] == x;
      Distribute(base, PlaceSum(init, base, k - 2), x, p);
    }
  }

  lemma Distribute(base: nat, sum: nat, x: nat, p: nat)
    ensures base * sum + x * (base * p) == base * (sum + x * p)
  {
    assert x * (base * p) == base * (x * p);
  }

  // ----- decimals -----

  /** Decimal text is the digits of the number, most significant first, without a leading zero. */
  lemma {:induction false} DecimalByPlace(n: nat)
    ensures var s := Decimal(n);
            && (forall k :: 0 <= k < |s| ==> s[|s| - 1 - k] - 48 == Digit(n, 10, k))
            && n < Power(10, |s|)
            && (n > 0 ==> s[0] != 48)
  {
    var s := Decimal(n);
    assert Power(10, 0) == 1;
    if n < 10 {
      assert Power(10, 1) == 10;
    } else {
      var init := Decimal(n / 10);
      DecimalByPlace(n / 10);
      forall k | 0 <= k < |s| ensures s[|s| - 1 - k] - 48 == Digit(n, 10, k) {
        if k > 0 {
          NextDigit(n, 10, k - 1);
          assert s[|s| - 1 - k] == init[|init| - 1 - (k - 1)];
        }
      }
      assert Power(10, |s|) == 10 * Power(10, |init|);
    }
  }

  function DigitsOf(s: Bytes): (ds: seq<nat>)
    requires AllDigits(s)
    ensures |ds| == |s|
  {
    seq(|s|, i requires 0 <= i < |s| => s[i] - 48)
  }

  /** The value of decimal text is the sum of digit times power of ten. */
  lemma {:induction false} DecimalValueByPlace(s: Bytes)
    requires AllDigits(s)
    ensures DecimalValue(s) == PlaceSum(DigitsOf(s), 10, |s|)
  {
    if s != [] {
      var init := s[..|s| - 1];
      DecimalValueByPlace(init);
      PlaceSumShifts(DigitsOf(s), 10, |s|);
      assert DigitsOf(s)[..|s| - 1] == DigitsOf(init);
    }
  }

  // ----- fixed-width integers -----

  /** Little-endian: the byte at position i is the digit at place i. */
  lemma {:induction false} LEByPlace(n: nat, width: nat)
    ensures forall i :: 0 <= i < width ==> PutLE(n, width)[i] == Digit(n, 256, i)
  {
    if width > 0 {
      LEByPlace(n / 256, width - 1);
      forall i | 0 <= i < width ensures PutLE(n, width)[i] == Digit(n, 256, i) {
        if i == 0 {
          assert Power(256, 0) == 1;
        } else {
          NextDigit(n, 256, i - 1);
        }
      }
    }
  }

  /** Big-endian: the byte at position i is the digit at place width - 1 - i. */
  lemma {:induction false} BEByPlace(n: nat, width: nat)
    ensures forall i :: 0 <= i < width ==> PutBE(n, width)[i] == Digit(n, 256, width - 1 - i)
  {
    if width > 0 {
      BEByPlace(n / 256, width - 1);
      forall i | 0 <= i < width ensures PutBE(n, width)[i] == Digit(n, 256, width - 1 - i) {
        if i == width - 1 {
          assert Power(256, 0) == 1;
        } else {
          NextDigit(n, 256, width - 2 - i);
        }
      }
    }
  }

  /** The little-endian reader inverts the writer on every byte string. */
  lemma {:induction false} LEReadBack(b: Bytes)
    ensures PutLE(GetLE(b), |b|) == b
  {
    if b != [] {
      LEReadBack(b[1..]);
      QuotientIs(GetLE(b), 256, GetLE(b[1..]), b[0]);
    }
  }

  /** So does the big-endian one. */
  lemma {:induction false} BEReadBack(b: Bytes)
    ensures PutBE(GetBE(b), |b|) == b
  {
    if b != [] {
      BEReadBack(b[..|b| - 1]);
      QuotientIs(GetBE(b), 256, GetBE(b[..|b| - 1]), b[|b| - 1]);
    }
  }
}
