/** Positional numerals in any base, most significant digit first. Bytes are base 256,
    hexadecimal text base 16, decimal text base 10. */
module Numerals {

  type Base = b: nat | b > 1 witness 2

  function Pow(b: Base, w: nat): nat {
    if w == 0 then 1 else b * Pow(b, w - 1)
  }

  ghost predicate Digits(b: Base, s: seq<nat>) {
    forall i :: 0 <= i < |s| ==> s[i] < b
  }

  /** The number a digit sequence denotes. */
  function Value(b: Base, s: seq<nat>): nat {
    if s == [] then 0 else Value(b, s[..|s| - 1]) * b + s[|s| - 1]
  }

  /** The `w` low digits of `n`. */
  function Fixed(b: Base, n: nat, w: nat): (s: seq<nat>)
    ensures |s| == w && Digits(b, s)
  {
    if w == 0 then [] else Quotient(n, b); Fixed(b, n / b, w - 1) + [n % b]
  }

  /** All digits of `n`, without leading zeros (zero itself is one digit). */
  function Minimal(b: Base, n: nat): (s: seq<nat>)
    ensures |s| > 0 && Digits(b, s)
  {
    if n < b then [n] else Quotient(n, b); Minimal(b, n / b) + [n % b]
  }

  lemma MulMono(a: int, b: int, c: nat)
    requires a <= b
    ensures a * c <= b * c
  {
  }

  lemma Euclid(n: nat, b: Base)
    ensures n == b * (n / b) + n % b && 0 <= n % b < b
  {
  }

  lemma Quotient(n: nat, b: Base)
    ensures n == n / b * b + n % b && 0 <= n % b < b
    ensures 0 <= n / b && (n >= b ==> 0 < n / b < n)
  {
    Euclid(n, b);
    var q, r := n / b, n % b;
    assert n == q * b + r;
    if q < 0 { MulMono(q, -1, b); }
    if n >= b {
      if q <= 0 { MulMono(q, 0, b); }
      MulMono(2, b, q);
    }
  }

  lemma Unique(q: nat, b: Base, r: nat, q': nat, r': nat)
    requires q * b + r == q' * b + r' && r < b && r' < b
    ensures q == q' && r == r'
  {
    if q < q' { MulMono(q + 1, q', b); }
    if q' < q { MulMono(q' + 1, q, b); }
  }

  lemma DivMod(q: nat, b: Base, r: nat)
    requires r < b && q * b + r >= 0
    ensures (q * b + r) / b == q && (q * b + r) % b == r
  {
    var n: nat := q * b + r;
    Quotient(n, b);
    Unique(q, b, r, n / b, n % b);
  }

  lemma QuotientBound(b: Base, n: nat, w: nat)
    requires w > 0 && n < Pow(b, w)
    ensures 0 <= n / b < Pow(b, w - 1)
  {
    Quotient(n, b);
    var q, p := n / b, Pow(b, w - 1);
    assert Pow(b, w) == p * b;
    if q >= p { MulMono(p, q, b); }
  }

  lemma {:induction false} PowPositive(b: Base, w: nat)
    ensures Pow(b, w) >= 1
  {
    if w > 0 { PowPositive(b, w - 1); MulMono(1, b, Pow(b, w - 1)); }
  }

  lemma {:induction false} PowMono(b: Base, v: nat, w: nat)
    requires v <= w
    ensures Pow(b, v) <= Pow(b, w)
    decreases w
  {
    if v < w {
      PowMono(b, v, w - 1);
      MulMono(1, b, Pow(b, w - 1));
    }
  }

  lemma PowStrict(b: Base, v: nat, w: nat)
    requires v < w
    ensures Pow(b, v) < Pow(b, w)
  {
    PowMono(b, v, w - 1);
    PowPositive(b, w - 1);
    MulMono(2, b, Pow(b, w - 1));
  }

  lemma {:induction false} PowSum(b: Base, v: nat, w: nat)
    ensures Pow(b, v + w) == Pow(b, v) * Pow(b, w)
  {
    if v > 0 {
      PowSum(b, v - 1, w);
      assert b * (Pow(b, v - 1) * Pow(b, w)) == (b * Pow(b, v - 1)) * Pow(b, w);
    }
  }

  /** Reading the low digits back gives the number, if they were enough. */
  lemma {:induction false} ValueFixed(b: Base, n: nat, w: nat)
    requires n < Pow(b, w)
    ensures Value(b, Fixed(b, n, w)) == n
  {
    if w > 0 {
      Quotient(n, b);
      QuotientBound(b, n, w);
      var init := Fixed(b, n / b, w - 1);
      ValueFixed(b, n / b, w - 1);
      assert (init + [n % b])[..w - 1] == init;
    }
  }

  lemma {:induction false} ValueBound(b: Base, s: seq<nat>)
    requires Digits(b, s)
    ensures Value(b, s) < Pow(b, |s|)
  {
    if s != [] {
      var n := |s| - 1;
      ValueBound(b, s[..n]);
      var v, p := Value(b, s[..n]), Pow(b, n);
      MulMono(v + 1, p, b);
      assert (v + 1) * b == v * b + b;
    }
  }

  /** Writing a digit sequence's value at its own width gives it back. */
  lemma {:induction false} FixedValue(b: Base, s: seq<nat>)
    requires Digits(b, s)
    ensures Fixed(b, Value(b, s), |s|) == s
  {
    if s != [] {
      var n := |s| - 1;
      DivMod(Value(b, s[..n]), b, s[n]);
      FixedValue(b, s[..n]);
      assert s == s[..n] + [s[n]];
    }
  }

  lemma Distribute(v: nat, p: nat, u: nat, b: nat)
    ensures (v * p + u) * b == v * (b * p) + u * b
  {
    assert (v * p + u) * b == v * p * b + u * b;
  }

  lemma {:induction false} ValueConcat(b: Base, s: seq<nat>, t: seq<nat>)
    ensures Value(b, s + t) == Value(b, s) * Pow(b, |t|) + Value(b, t)
  {
    if t == [] {
      assert s + t == s;
    } else {
      var n := |t| - 1;
      assert (s + t)[..|s + t| - 1] == s + t[..n];
      ValueConcat(b, s, t[..n]);
      Distribute(Value(b, s), Pow(b, n), Value(b, t[..n]), b);
    }
  }

  function Zeros(k: nat): (s: seq<nat>)
    ensures |s| == k && forall i :: 0 <= i < k ==> s[i] == 0
  {
    seq(k, i => 0)
  }

  lemma {:induction false} ValueZeros(b: Base, k: nat)
    ensures Value(b, Zeros(k)) == 0
  {
    if k > 0 {
      assert Zeros(k)[..k - 1] == Zeros(k - 1);
      ValueZeros(b, k - 1);
    }
  }

  lemma ValuePadded(b: Base, k: nat, s: seq<nat>)
    ensures Value(b, Zeros(k) + s) == Value(b, s)
  {
    ValueConcat(b, Zeros(k), s);
    ValueZeros(b, k);
  }

  lemma {:induction false} ValueMinimal(b: Base, n: nat)
    ensures Value(b, Minimal(b, n)) == n
    ensures n > 0 ==> Minimal(b, n)[0] > 0
  {
    if n < b {
      assert [n][..0] == [];
    } else {
      Quotient(n, b);
      ValueMinimal(b, n / b);
      var init := Minimal(b, n / b);
      assert (init + [n % b])[..|init|] == init;
    }
  }

  /** The width of a number: `w` digits suffice exactly when it is below the power. */
  lemma MinimalWidth(b: Base, n: nat, w: nat)
    requires w > 0
    ensures |Minimal(b, n)| <= w <==> n < Pow(b, w)
  {
    var s := Minimal(b, n);
    ValueMinimal(b, n);
    ValueBound(b, s);
    if |s| <= w {
      PowMono(b, |s|, w);
    } else {
      assert n >= b;
      LeadingDigit(b, s, w);
    }
  }

  /** A sequence with a nonzero first digit and more than `w` digits is at least b^w. */
  lemma LeadingDigit(b: Base, s: seq<nat>, w: nat)
    requires |s| > w && s[0] > 0
    ensures Value(b, s) >= Pow(b, w)
  {
    assert s == [s[0]] + s[1..];
    ValueConcat(b, [s[0]], s[1..]);
    assert [s[0]][..0] == [];
    var k := |s| - 1;
    MulMono(1, s[0], Pow(b, k));
    PowMono(b, w, k);
  }

  /** Left-padding with zeros: short numbers get exactly `w` digits, long ones all theirs. */
  function Padded(b: Base, n: nat, w: nat): seq<nat> {
    var s := Minimal(b, n);
    if |s| < w then Zeros(w - |s|) + s else s
  }

  lemma PaddedIsFixed(b: Base, n: nat, w: nat)
    requires w > 0 && n < Pow(b, w)
    ensures Padded(b, n, w) == Fixed(b, n, w)
  {
    MinimalWidth(b, n, w);
    ValueMinimal(b, n);
    var s := Padded(b, n, w);
    if |Minimal(b, n)| < w {
      ValuePadded(b, w - |Minimal(b, n)|, Minimal(b, n));
    }
    assert |s| == w && Value(b, s) == n;
    FixedValue(b, s);
  }

  /** Cutting off all but the last `k` digits. */
  lemma {:induction false} FixedSuffix(b: Base, n: nat, w: nat, k: nat)
    requires k <= w
    ensures Fixed(b, n, w)[w - k..] == Fixed(b, n, k)
  {
    if k > 0 {
      Quotient(n, b);
      FixedSuffix(b, n / b, w - 1, k - 1);
      var init := Fixed(b, n / b, w - 1);
      assert (init + [n % b])[w - k..] == init[w - k..] + [n % b];
    } else {
      assert Fixed(b, n, w)[w..] == [];
    }
  }

  // ----- order -----

  ghost predicate Below(s: seq<nat>, t: seq<nat>) {
    t != [] && (s == [] || s[0] < t[0] || (s[0] == t[0] && Below(s[1..], t[1..])))
  }

  lemma {:induction false} BelowSnoc(s: seq<nat>, t: seq<nat>, x: nat, y: nat)
    requires |s| == |t|
    ensures Below(s + [x], t + [y]) <==> Below(s, t) || (s == t && x < y)
  {
    if s == [] {
    } else {
      BelowSnoc(s[1..], t[1..], x, y);
      assert (s + [x])[1..] == s[1..] + [x] && (t + [y])[1..] == t[1..] + [y];
      if s[0] == t[0] {
        assert s == t <==> s[1..] == t[1..] by {
          assert s == [s[0]] + s[1..] && t == [t[0]] + t[1..];
        }
      }
    }
  }

  lemma DigitOrder(b: Base, q: nat, r: nat, q': nat, r': nat)
    requires r < b && r' < b
    ensures q * b + r < q' * b + r' <==> q < q' || (q == q' && r < r')
  {
    if q < q' { MulMono(q + 1, q', b); }
    if q' < q { MulMono(q' + 1, q, b); }
  }

  /** At equal width, dictionary order is numeric order. */
  lemma {:induction false} ValueOrder(b: Base, s: seq<nat>, t: seq<nat>)
    requires |s| == |t| && Digits(b, s) && Digits(b, t)
    ensures Below(s, t) <==> Value(b, s) < Value(b, t)
    ensures s == t <==> Value(b, s) == Value(b, t)
  {
    FixedValue(b, s);
    FixedValue(b, t);
    if s != [] {
      var n := |s| - 1;
      ValueOrder(b, s[..n], t[..n]);
      BelowSnoc(s[..n], t[..n], s[n], t[n]);
      assert s == s[..n] + [s[n]] && t == t[..n] + [t[n]];
      DigitOrder(b, Value(b, s[..n]), s[n], Value(b, t[..n]), t[n]);
    }
  }

  lemma FixedOrder(b: Base, m: nat, n: nat, w: nat)
    requires m < Pow(b, w) && n < Pow(b, w)
    ensures Below(Fixed(b, m, w), Fixed(b, n, w)) <==> m < n
  {
    ValueFixed(b, m, w);
    ValueFixed(b, n, w);
    ValueOrder(b, Fixed(b, m, w), Fixed(b, n, w));
  }
}
