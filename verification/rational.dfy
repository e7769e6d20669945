/**
 The base-256 numbers that team index ranges are made of (lib/core/rational.go), and
 their meaning: digit-wise comparison is numeric order, and the two shifts halve and
 double.
 */
module Rationals {
  import opened Common

  type Byte = x: int | 0 <= x < 256

  /** `base` read as one big-endian number, times 256 to the `exp`; or infinity. */
  datatype Rational = Finite(base: seq<Byte>, exp: int) | Infinity {
    function MaxPow(): (p: int) { if Infinity? then 0 else |base| + exp }
    function MinPow(): (p: int) { if Infinity? then 0 else exp }

    /** The digit at place `i`; the digit worth 256 to the e is at place e + 1. */
    function PlaceValue(i: int): (v: Byte) {
      if Infinity? then 0
      else
        var pos := MaxPow() - i;
        if pos < 0 || pos >= |base| then 0 else base[pos]
    }
  }

  function Min(a: int, b: int): (m: int) { if a < b then a else b }
  function Max(a: int, b: int): (m: int) { if a > b then a else b }

  /** Compares places `i` down to `low`. */
  function CmpFrom(r1: Rational, r2: Rational, i: int, low: int): (c: int)
    decreases i - low
  {
    if i < low then 0
    else if r1.PlaceValue(i) > r2.PlaceValue(i) then 1
    else if r1.PlaceValue(i) < r2.PlaceValue(i) then -1
    else CmpFrom(r1, r2, i - 1, low)
  }

  function Cmp(r1: Rational, r2: Rational): (c: int) {
    if r1.Infinity? && r2.Infinity? then 0
    else if r1.Infinity? then 1
    else if r2.Infinity? then -1
    else CmpFrom(r1, r2, Max(r1.MaxPow(), r2.MaxPow()), Min(r1.MinPow(), r2.MinPow()))
  }

  method Compare(r1: Rational, r2: Rational) returns (c: int)
    ensures c == Cmp(r1, r2)
  {
    if r1.Infinity? && r2.Infinity? { return 0; }
    if r1.Infinity? { return 1; }
    if r2.Infinity? { return -1; }
    var low, i := Min(r1.MinPow(), r2.MinPow()), Max(r1.MaxPow(), r2.MaxPow());
    while i >= low
      invariant CmpFrom(r1, r2, i, low) == Cmp(r1, r2)
      decreases i - low
    {
      var v1, v2 := r1.PlaceValue(i), r2.PlaceValue(i);
      if v1 > v2 { return 1; }
      if v1 < v2 { return -1; }
      i := i - 1;
    }
    return 0;
  }

  // --------------------------------------------------------------------- meaning

  /** 256 to the i. */
  ghost function Pow(i: int): (p: real)
    decreases if i < 0 then -i else i
  {
    if i == 0 then 1.0 else if i > 0 then 256.0 * Pow(i - 1) else Pow(i + 1) / 256.0
  }

  lemma {:induction false} PowStep(i: int)
    ensures Pow(i) > 0.0 && Pow(i + 1) == 256.0 * Pow(i)
    decreases if i < 0 then -i else i
  {
    if i < 0 {
      PowStep(i + 1);
    } else if i > 0 {
      PowStep(i - 1);
    }
  }

  /** A digit's worth at a power, by repeated addition. */
  ghost function Worth(d: nat, i: int): (w: real) {
    if d == 0 then 0.0 else Worth(d - 1, i) + Pow(i)
  }

  lemma {:induction false} WorthIs(d: nat, i: int)
    ensures Worth(d, i) == d as real * Pow(i)
  {
    if d > 0 {
      WorthIs(d - 1, i);
      assert (d - 1) as real * Pow(i) + Pow(i) == ((d - 1) as real + 1.0) * Pow(i);
    }
  }

  /** A smaller digit is worth at least one unit less. */
  lemma {:induction false} WorthOrder(a: nat, b: nat, i: int)
    requires a < b
    ensures 0.0 <= Worth(a, i) && Worth(a, i) + Pow(i) <= Worth(b, i)
  {
    PowStep(i);
    if b == a + 1 {
      WorthNotNegative(a, i);
    } else {
      WorthOrder(a, b - 1, i);
    }
  }

  lemma {:induction false} WorthNotNegative(d: nat, i: int)
    ensures 0.0 <= Worth(d, i)
  {
    PowStep(i);
    if d > 0 { WorthNotNegative(d - 1, i); }
  }

  lemma {:induction false} WorthAdds(a: nat, b: nat, i: int)
    ensures Worth(a + b, i) == Worth(a, i) + Worth(b, i)
  {
    if b > 0 { WorthAdds(a, b - 1, i); }
  }

  lemma DigitWorth(d: nat, i: int)
    requires d < 256
    ensures 0.0 <= Worth(d, i) <= 255.0 * Pow(i)
  {
    WorthNotNegative(d, i);
    WorthIs(255, i);
    if d < 255 {
      WorthOrder(d, 255, i);
      PowStep(i);
    }
  }

  ghost function Digits(base: seq<Byte>, exp: int): (v: real)
    decreases |base|
  {
    if base == [] then 0.0
    else Digits(base[..|base| - 1], exp + 1) + Worth(base[|base| - 1], exp)
  }

  ghost function Value(r: Rational): (v: real)
    requires r.Finite?
  {
    Digits(r.base, r.exp)
  }

  /** What the places above `low`, up to `i`, add up to. */
  ghost function Places(r: Rational, low: int, i: int): (v: real)
    decreases i - low
  {
    if i <= low then 0.0 else Places(r, low, i - 1) + Worth(r.PlaceValue(i), i - 1)
  }

  lemma {:induction false} PlacesBounded(r: Rational, low: int, i: int)
    requires low <= i
    ensures 0.0 <= Places(r, low, i) <= Pow(i) - Pow(low)
    decreases i - low
  {
    if low < i {
      PlacesBounded(r, low, i - 1);
      PowStep(i - 1);
      DigitWorth(r.PlaceValue(i), i - 1);
    }
  }

  /** The first place that differs decides. */
  lemma {:induction false} CmpIsPlaceOrder(r1: Rational, r2: Rational, low: int, i: int)
    requires low <= i && r1.PlaceValue(low) == r2.PlaceValue(low)
    ensures CmpFrom(r1, r2, i, low) == 0 <==> Places(r1, low, i) == Places(r2, low, i)
    ensures CmpFrom(r1, r2, i, low) < 0 <==> Places(r1, low, i) < Places(r2, low, i)
    decreases i - low
  {
    if low < i {
      CmpIsPlaceOrder(r1, r2, low, i - 1);
      PlacesBounded(r1, low, i - 1);
      PlacesBounded(r2, low, i - 1);
      PowStep(low);
      var v1, v2 := r1.PlaceValue(i), r2.PlaceValue(i);
      if v1 < v2 {
        WorthOrder(v1, v2, i - 1);
      } else if v2 < v1 {
        WorthOrder(v2, v1, i - 1);
      }
    }
  }

  /** Places below the exponent hold nothing. */
  lemma {:induction false} PlacesFrom(r: Rational, low: int, i: int)
    requires r.Finite? && low <= r.exp <= i
    ensures Places(r, low, i) == Places(r, r.exp, i)
    decreases i - low
  {
    if r.exp < i {
      PlacesFrom(r, low, i - 1);
    } else if low < i {
      PlacesEmpty(r, low, i);
    }
  }

  lemma {:induction false} PlacesEmpty(r: Rational, low: int, i: int)
    requires r.Finite? && low <= i <= r.exp
    ensures Places(r, low, i) == 0.0
    decreases i - low
  {
    if low < i { PlacesEmpty(r, low, i - 1); }
  }

  /** Dropping the last digit leaves the higher places as they are. */
  lemma {:induction false} PlacesOfFront(r: Rational, i: int)
    requires r.Finite? && r.base != [] && r.exp + 1 <= i
    ensures var front := Finite(r.base[..|r.base| - 1], r.exp + 1);
            Places(r, r.exp, i) == Places(front, r.exp + 1, i) + Worth(r.base[|r.base| - 1], r.exp)
    decreases i - r.exp
  {
    var front := Finite(r.base[..|r.base| - 1], r.exp + 1);
    if i == r.exp + 1 {
      assert Places(r, r.exp, r.exp) == 0.0;
    } else {
      PlacesOfFront(r, i - 1);
      assert r.PlaceValue(i) == front.PlaceValue(i);
    }
  }

  /** All places together are the value. */
  lemma {:induction false} PlacesAreValue(r: Rational, i: int)
    requires r.Finite? && r.MaxPow() <= i
    ensures Places(r, r.exp, i) == Value(r)
    decreases |r.base|
  {
    if r.base == [] {
      NoDigits(r, i);
    } else {
      var front := Finite(r.base[..|r.base| - 1], r.exp + 1);
      PlacesOfFront(r, i);
      PlacesAreValue(front, i);
    }
  }

  lemma {:induction false} NoDigits(r: Rational, i: int)
    requires r.Finite? && r.base == [] && r.exp <= i
    ensures Places(r, r.exp, i) == 0.0
    decreases i - r.exp
  {
    if r.exp < i { NoDigits(r, i - 1); }
  }

  /** `Cmp` is the order of the numbers, with infinity on top. */
  lemma CmpIsNumericOrder(r1: Rational, r2: Rational)
    ensures r1.Finite? && r2.Finite? ==>
              && (Cmp(r1, r2) == 0 <==> Value(r1) == Value(r2)) && (Cmp(r1, r2) < 0 <==> Value(r1) < Value(r2))
              && (Cmp(r1, r2) > 0 <==> Value(r1) > Value(r2))
    ensures Cmp(r1, r2) < 0 <==> r1.Finite? && (r2.Infinity? || Value(r1) < Value(r2))
  {
    if r1.Finite? && r2.Finite? {
      var low, i := Min(r1.MinPow(), r2.MinPow()), Max(r1.MaxPow(), r2.MaxPow());
      CmpIsPlaceOrder(r1, r2, low, i);
      PlacesFrom(r1, low, i);
      PlacesFrom(r2, low, i);
      PlacesAreValue(r1, i);
      PlacesAreValue(r2, i);
    }
  }

  // ---------------------------------------------------------------------- shifts

  /** The right-shifted digits; a bit shifted out of one digit comes in on top of the next. */
  function RshDigits(base: seq<Byte>): (d: seq<Byte>)
    ensures |d| == |base|
  {
    if base == [] then []
    else
      var n := |base| - 1;
      var b: Byte := base[n] / 2 + if n > 0 && base[n - 1] % 2 == 1 then 128 else 0;
      RshDigits(base[..n]) + [b]
  }

  function DropLeadingZero(base: seq<Byte>): (d: seq<Byte>) { if base != [] && base[0] == 0 then base[1..] else base }

  function Rsh(r: Rational): (s: Option<Rational>) {
    if r.Infinity? then None
    else
      var carry := r.base != [] && r.base[|r.base| - 1] % 2 == 1;
      var d := RshDigits(r.base);
      Some(Finite(DropLeadingZero(if carry then d + [128] else d), if carry then r.exp - 1 else r.exp))
  }

  method RightShift(r: Rational) returns (s: Option<Rational>)
    ensures s == Rsh(r)
  {
    if r.Infinity? { return None; }
    var newBase: seq<Byte>, carry := [], false;
    for i := 0 to |r.base|
      invariant newBase == RshDigits(r.base[..i]) && carry == (i > 0 && r.base[i - 1] % 2 == 1)
    {
      assert r.base[..i + 1][..i] == r.base[..i];
      var b := r.base[i] / 2 + if carry then 128 else 0;
      newBase, carry := newBase + [b], r.base[i] % 2 == 1;
    }
    assert r.base[..|r.base|] == r.base;
    var newExp := r.exp;
    if carry { newBase, newExp := newBase + [128], newExp - 1; }
    return Some(Finite(DropLeadingZero(newBase), newExp));
  }

  /** Half a unit at this exponent, if the last digit is odd. */
  ghost function Rest(base: seq<Byte>, exp: int): (v: real) {
    if base != [] && base[|base| - 1] % 2 == 1 then Pow(exp) / 2.0 else 0.0
  }

  lemma {:induction false} RshDigitsHalve(base: seq<Byte>, exp: int)
    ensures Digits(RshDigits(base), exp) + Rest(base, exp) == Digits(base, exp) / 2.0
    decreases |base|
  {
    if base != [] {
      var n := |base| - 1;
      RshDigitsHalve(base[..n], exp + 1);
      RshOneMore(base, exp);
    }
  }

  lemma RshOneMore(base: seq<Byte>, exp: int)
    requires base != []
    requires var front := base[..|base| - 1];
             Digits(RshDigits(front), exp + 1) + Rest(front, exp + 1) == Digits(front, exp + 1) / 2.0
    ensures Digits(RshDigits(base), exp) + Rest(base, exp) == Digits(base, exp) / 2.0
  {
    var n := |base| - 1;
    var front, b, p := base[..n], base[n], Pow(exp);
    var odd := n > 0 && base[n - 1] % 2 == 1;
    PowStep(exp);
    LastDigitOf(base);
    DigitWithCarry(b / 2, odd, exp);
    HalfOf(b, exp);
    CarryBalances(Digits(RshDigits(front), exp + 1), Rest(front, exp + 1), Digits(front, exp + 1),
                  Worth(b, exp), Worth(b / 2, exp),
                  Rest(base, exp), if odd then 128.0 * p else 0.0);
  }

  lemma LastDigitOf(base: seq<Byte>)
    requires base != []
    ensures var n := |base| - 1;
            && RshDigits(base)[..n] == RshDigits(base[..n])
            && RshDigits(base)[n] == base[n] / 2 + if n > 0 && base[n - 1] % 2 == 1 then 128 else 0
  {
  }

  lemma CarryBalances(shifted: real, rest: real, front: real, last: real, half: real, carry: real, came: real)
    requires shifted + rest == front / 2.0 && last / 2.0 == half + carry && rest == came
    ensures shifted + (half + came) + carry == (front + last) / 2.0
  {
  }

  lemma DigitWithCarry(h: nat, odd: bool, i: int)
    ensures Worth(h + if odd then 128 else 0, i) == Worth(h, i) + if odd then 128.0 * Pow(i) else 0.0
  {
    if odd {
      WorthAdds(h, 128, i);
      WorthIs(128, i);
    }
  }

  /** Twice a digit and a bit. */
  lemma TwiceAndABit(h: nat, c: nat, i: int)
    requires c <= 1
    ensures Worth(2 * h + c, i) == 2.0 * Worth(h, i) + if c == 1 then Pow(i) else 0.0
  {
    WorthAdds(2 * h, c, i);
    WorthAdds(h, h, i);
    assert Worth(1, i) == Worth(0, i) + Pow(i);
  }

  lemma HalfOf(b: nat, i: int)
    ensures Worth(b, i) / 2.0 == Worth(b / 2, i) + if b % 2 == 1 then Pow(i) / 2.0 else 0.0
  {
    TwiceAndABit(b / 2, b % 2, i);
  }

  lemma {:induction false} LeadingZero(base: seq<Byte>, exp: int)
    requires base != [] && base[0] == 0
    ensures Digits(base[1..], exp) == Digits(base, exp)
    decreases |base|
  {
    var n := |base| - 1;
    if n == 0 {
      assert base[..0] == [] && base[1..] == [];
    } else {
      LeadingZero(base[..n], exp + 1);
      assert base[1..][..n - 1] == base[..n][1..];
    }
  }

  /** A right shift halves. */
  lemma RshHalves(r: Rational)
    requires r.Finite?
    ensures Rsh(r).Some? && Rsh(r).value.Finite? && Value(Rsh(r).value) == Value(r) / 2.0
  {
    var carry := r.base != [] && r.base[|r.base| - 1] % 2 == 1;
    var d := RshDigits(r.base);
    RshDigitsHalve(r.base, r.exp);
    var e, x := if carry then d + [128] else d, if carry then r.exp - 1 else r.exp;
    if carry {
      assert e[..|d|] == d;
      PowStep(r.exp - 1);
      WorthIs(128, r.exp - 1);
    }
    assert Digits(e, x) == Value(r) / 2.0;
    if e != [] && e[0] == 0 { LeadingZero(e, x); }
  }

  /** The digits of twice the number plus a carry coming in at the bottom. */
  function LshDigits(base: seq<Byte>, carry: bool): (d: seq<Byte>)
    decreases |base|
  {
    if base == [] then if carry then [1] else []
    else
      var n := |base| - 1;
      var twice: int := 2 * (base[n] as int) + if carry then 1 else 0;
      LshDigits(base[..n], twice >= 256) + [twice % 256]
  }

  function Lsh(r: Rational): (s: Option<Rational>) {
    if r.Infinity? then None
    else
      var d := LshDigits(r.base, false);
      if d != [] && d[|d| - 1] == 0 then Some(Finite(d[..|d| - 1], r.exp + 1)) else Some(Finite(d, r.exp))
  }

  method LeftShift(r: Rational) returns (s: Option<Rational>)
    ensures s == Lsh(r)
  {
    if r.Infinity? { return None; }
    var newBase := ShiftDigits(r.base);
    var l := |newBase| - 1;
    if |newBase| > 0 && newBase[l] == 0 { return Some(Finite(newBase[..l], r.exp + 1)); }
    return Some(Finite(newBase, r.exp));
  }

  /** The loop over the digits, from the lowest up. */
  method ShiftDigits(base: seq<Byte>) returns (newBase: seq<Byte>)
    ensures newBase == LshDigits(base, false)
  {
    newBase := [];
    var carry := false;
    var i := |base|;
    NoDigitLeft(base);
    while i > 0
      invariant 0 <= i <= |base| && LshDigits(base[..i], carry) + newBase == LshDigits(base, false)
    {
      i := i - 1;
      var twice: int := 2 * (base[i] as int) + if carry then 1 else 0;
      OneDigitLeft(base, i, carry, newBase);
      newBase, carry := [twice % 256] + newBase, twice >= 256;
    }
    AllDigitsLeft(base, carry, newBase);
    if carry { newBase := [1] + newBase; }
  }

  lemma NoDigitLeft(base: seq<Byte>)
    ensures LshDigits(base[..|base|], false) + [] == LshDigits(base, false)
  {
    assert base[..|base|] == base;
  }

  lemma OneDigitLeft(base: seq<Byte>, i: nat, carry: bool, done: seq<Byte>)
    requires i < |base|
    ensures var twice := 2 * (base[i] as int) + if carry then 1 else 0;
            LshDigits(base[..i + 1], carry) + done == LshDigits(base[..i], twice >= 256) + ([twice % 256] + done)
  {
    assert base[..i + 1][..i] == base[..i];
  }

  lemma AllDigitsLeft(base: seq<Byte>, carry: bool, done: seq<Byte>)
    ensures LshDigits(base[..0], carry) + done == if carry then [1] + done else done
  {
    assert base[..0] == [];
  }

  lemma {:induction false} LshDigitsDouble(base: seq<Byte>, carry: bool, exp: int)
    ensures Digits(LshDigits(base, carry), exp) == 2.0 * Digits(base, exp) + if carry then Pow(exp) else 0.0
    decreases |base|
  {
    if base == [] {
      assert carry ==> LshDigits(base, carry)[..0] == [];
      assert Worth(1, exp) == Worth(0, exp) + Pow(exp);
    } else {
      var n := |base| - 1;
      var twice: int := 2 * (base[n] as int) + if carry then 1 else 0;
      LshDigitsDouble(base[..n], twice >= 256, exp + 1);
      var d := LshDigits(base, carry);
      assert d[..|d| - 1] == LshDigits(base[..n], twice >= 256) && d[|d| - 1] == twice % 256;
      PowStep(exp);
      DoubleWorth(base[n], carry, exp);
    }
  }

  lemma DoubleWorth(b: nat, carry: bool, i: int)
    requires b < 256
    ensures var twice := 2 * b + if carry then 1 else 0;
            Worth(twice % 256, i) + (if twice >= 256 then 256.0 * Pow(i) else 0.0)
            == 2.0 * Worth(b, i) + if carry then Pow(i) else 0.0
  {
    var twice := 2 * b + if carry then 1 else 0;
    TwiceAndABit(b, if carry then 1 else 0, i);
    if twice >= 256 {
      WorthAdds(twice - 256, 256, i);
      WorthIs(256, i);
    }
  }

  /** A left shift doubles. */
  lemma LshDoubles(r: Rational)
    requires r.Finite?
    ensures Lsh(r).Some? && Lsh(r).value.Finite? && Value(Lsh(r).value) == 2.0 * Value(r)
  {
    LshDigitsDouble(r.base, false, r.exp);
  }
}
