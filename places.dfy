/**
 * The place-value decomposition of a parsed number into the nine decimal
 * slots `places[0..8]` (units up to hundred-millions).
 */
module PlaceValue {
  import opened Decimal

  /** Digits in range 0..9. */
  predicate IsDigitSlots(p: seq<int>) {
    forall i :: 0 <= i < |p| ==> 0 <= p[i] <= 9
  }

  /** The number the slots stand for: the sum of p[i] * 10^i. */
  function SlotsValue(p: seq<int>): int {
    if p == [] then 0 else p[0] + 10 * SlotsValue(p[1..])
  }

  /** The lowest k decimal digits of n, units first. */
  function DigitsOf(n: nat, k: nat): (p: seq<int>)
    ensures |p| == k && IsDigitSlots(p)
  {
    if k == 0 then [] else [n % 10] + DigitsOf(n / 10, k - 1)
  }

  /** The nine slots of a number below one billion. */
  function Places(n: nat): (p: seq<int>)
    requires n < Pow10(9)
    ensures |p| == 9 && IsDigitSlots(p) && SlotsValue(p) == n
  {
    DigitsRecombine(n, 9);
    DigitsOf(n, 9)
  }

  /** The k lowest digits of a number below 10^k recombine to it. */
  lemma {:induction false} DigitsRecombine(n: nat, k: nat)
    requires n < Pow10(k)
    ensures SlotsValue(DigitsOf(n, k)) == n
  {
    if k > 0 {
      var p := DigitsOf(n, k);
      assert p[1..] == DigitsOf(n / 10, k - 1);
      DigitsRecombine(n / 10, k - 1);
    }
  }

  /** Digit slots of equal length and equal value are the same slots. */
  lemma {:induction false} SlotsUnique(p: seq<int>, q: seq<int>)
    requires |p| == |q| && IsDigitSlots(p) && IsDigitSlots(q)
    requires SlotsValue(p) == SlotsValue(q)
    ensures p == q
  {
    if p != [] {
      assert p[0] - q[0] == 10 * (SlotsValue(q[1..]) - SlotsValue(p[1..]));
      SlotsUnique(p[1..], q[1..]);
      assert p == [p[0]] + p[1..];
      assert q == [q[0]] + q[1..];
    }
  }

  /** Setting slot x to d changes the value by (d - p[x]) * 10^x. */
  lemma {:induction false} SlotsValueUpdate(p: seq<int>, x: nat, d: int)
    requires x < |p|
    ensures SlotsValue(p[x := d]) == SlotsValue(p) + (d - p[x]) * Pow10(x)
  {
    if x > 0 {
      assert p[x := d][1..] == p[1..][x - 1 := d];
      SlotsValueUpdate(p[1..], x - 1, d);
      assert 10 * ((d - p[x]) * Pow10(x - 1)) == (d - p[x]) * Pow10(x);
    }
  }

  /** Slots that are all zero stand for zero. */
  lemma {:induction false} ZeroSlots(p: seq<int>)
    requires forall i :: 0 <= i < |p| ==> p[i] == 0
    ensures SlotsValue(p) == 0
  {
    if p != [] {
      ZeroSlots(p[1..]);
    }
  }

  /** One step of the fill: the quotient is a digit and the remainder is below the divisor. */
  lemma QuotientIsDigit(rest: int, num: int)
    requires num >= 1 && 0 <= rest < 10 * num
    ensures 0 <= rest / num <= 9 && 0 <= rest - (rest / num) * num < num
  {
    var q := rest / num;
    assert rest == q * num + rest % num;
  }

  /**
   * Fills the nine slots from the highest down, taking `in / 10^x` as the
   * slot's digit and subtracting it back out of `in` when it is nonzero.
   */
  method FillPlaces(n: nat) returns (places: seq<int>)
    requires n < Pow10(9)
    ensures |places| == 9 && IsDigitSlots(places) && SlotsValue(places) == n
    ensures places == Places(n)
  {
    var slots := new int[9](_ => 0);
    var rest := n;
    var x := 8;
    ZeroSlots(slots[..]);
    while x >= 0
      invariant -1 <= x <= 8
      invariant 0 <= rest < Pow10(x + 1)
      invariant IsDigitSlots(slots[..])
      invariant forall j :: 0 <= j <= x ==> slots[j] == 0
      invariant SlotsValue(slots[..]) + rest == n
    {
      var num := Pow10(x);
      var digit := rest / num;
      FillStep(slots[..], x, rest, n);
      slots[x] := digit;
      if digit != 0 {
        rest := rest - digit * num;
      }
      x := x - 1;
    }
    places := slots[..];
    SlotsUnique(places, Places(n));
  }

  /**
   * One step of the fill at slot x: the quotient by 10^x is a digit, the
   * slots below x stay zero, and the value still adds up with the remainder.
   */
  lemma FillStep(before: seq<int>, x: nat, rest: nat, n: nat)
    requires x < |before| && IsDigitSlots(before) && (forall j :: 0 <= j <= x ==> before[j] == 0)
    requires SlotsValue(before) + rest == n && rest < Pow10(x + 1)
    ensures var d := rest / Pow10(x);
      var after := before[x := d];
      && IsDigitSlots(after) && (forall j :: 0 <= j < x ==> after[j] == 0)
      && SlotsValue(after) + (rest - d * Pow10(x)) == n && 0 <= rest - d * Pow10(x) < Pow10(x)
  {
    var num := Pow10(x);
    QuotientIsDigit(rest, num);
    SlotsValueUpdate(before, x, rest / num);
  }

  /** The value of nine slots written out place by place. */
  lemma SlotsValueNine(p: seq<int>)
    requires |p| == 9
    ensures SlotsValue(p) == p[0] + 10 * p[1] + 100 * p[2] + 1000 * p[3] + 10000 * p[4]
      + 100000 * p[5] + 1000000 * p[6] + 10000000 * p[7] + 100000000 * p[8]
  {
    assert p[8..][1..] == [];
    assert SlotsValue(p[8..]) == p[8];
    assert p[7..][1..] == p[8..];
    assert SlotsValue(p[7..]) == p[7] + 10 * (p[8]);
    assert p[6..][1..] == p[7..];
    assert SlotsValue(p[6..]) == p[6] + 10 * (p[7] + 10 * (p[8]));
    assert p[5..][1..] == p[6..];
    assert SlotsValue(p[5..]) == p[5] + 10 * (p[6] + 10 * (p[7] + 10 * (p[8])));
    assert p[4..][1..] == p[5..];
    assert SlotsValue(p[4..]) == p[4] + 10 * (p[5] + 10 * (p[6] + 10 * (p[7] + 10 * (p[8]))));
    assert p[3..][1..] == p[4..];
    assert SlotsValue(p[3..]) == p[3] + 10 * (p[4] + 10 * (p[5] + 10 * (p[6] + 10 * (p[7] + 10 * (p[8])))));
    assert p[2..][1..] == p[3..];
    assert SlotsValue(p[2..]) == p[2] + 10 * (p[3] + 10 * (p[4] + 10 * (p[5] + 10 * (p[6] + 10 * (p[7] + 10 * (p[8]))))));
    assert p[1..][1..] == p[2..];
    assert SlotsValue(p[1..]) == p[1] + 10 * (p[2] + 10 * (p[3] + 10 * (p[4] + 10 * (p[5] + 10 * (p[6] + 10 * (p[7] + 10 * (p[8])))))));
    assert p[0..][1..] == p[1..];
    assert SlotsValue(p[0..]) == p[0] + 10 * (p[1] + 10 * (p[2] + 10 * (p[3] + 10 * (p[4] + 10 * (p[5] + 10 * (p[6] + 10 * (p[7] + 10 * (p[8]))))))));
    assert p[0..] == p;
  }
}
