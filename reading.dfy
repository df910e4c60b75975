/**
 * A listener for the number paths: it hears a sequence of "digits/..."
 * files the way a Norwegian speaker hears the words, and adds up the value
 * they name. It is the independent reference the number renderers are
 * checked against: rendering a number and hearing it back gives the number.
 */
module Reading {
  import opened Decimal
  import opened SayTypes
  import opened Group

  /** What one file means to the listener. */
  datatype Word = Num(v: nat) | HundredWord | ThousandWord | MillionWord | Other

  /** Words already added up (total) and the group being heard (current). */
  datatype Tally = Tally(total: nat, current: nat)

  function WordOf(f: string): Word {
    if |f| < 7 || f[..7] != "digits/" then Other
    else
      var u := f[7..];
      if u == "100" || u == "r-100" then HundredWord
      else if u == "1000" then ThousandWord
      else if u == "miljon" || u == "miljoner" then MillionWord
      else if u == "n-1" || u == "u-1" then Num(1)
      else
        var v := if |u| >= 2 && u[..2] == "r-" then u[2..] else u;
        if 1 <= |v| <= 2 && AllDigits(v) then Num(DecimalValue(v)) else Other
  }

  /** A scale word with nothing before it counts as one of it. */
  function Lead(x: nat): nat {
    if x == 0 then 1 else x
  }

  function Step(t: Tally, w: Word): Tally {
    match w
    case Num(v) => Tally(t.total, t.current + v)
    case HundredWord => Tally(t.total, Lead(t.current) * 100)
    case ThousandWord => Tally(t.total + Lead(t.current) * 1000, 0)
    case MillionWord => Tally(t.total + Lead(t.current) * 1000000, 0)
    case Other => t
  }

  function ReadFrom(t: Tally, fs: seq<string>): Tally
    decreases |fs|
  {
    if fs == [] then t else ReadFrom(Step(t, WordOf(fs[0])), fs[1..])
  }

  /** The value a listener hears in a sequence of files. */
  function Hear(fs: seq<string>): nat {
    var t := ReadFrom(Tally(0, 0), fs);
    t.total + t.current
  }

  /** Hearing two pieces one after the other is hearing their concatenation. */
  lemma {:induction false} ReadFromAppend(t: Tally, xs: seq<string>, ys: seq<string>)
    ensures ReadFrom(t, xs + ys) == ReadFrom(ReadFrom(t, xs), ys)
    decreases |xs|
  {
    if xs != [] {
      assert (xs + ys)[1..] == xs[1..] + ys;
      assert (xs + ys)[0] == xs[0];
      ReadFromAppend(Step(t, WordOf(xs[0])), xs[1..], ys);
    } else {
      assert xs + ys == ys;
    }
  }

  lemma ReadOne(t: Tally, f: string)
    ensures ReadFrom(t, [f]) == Step(t, WordOf(f))
  {
  }

  lemma ReadTwo(t: Tally, f: string, g: string)
    ensures ReadFrom(t, [f, g]) == Step(Step(t, WordOf(f)), WordOf(g))
  {
    assert [f, g][1..] == [g];
    ReadOne(Step(t, WordOf(f)), g);
  }

  /** The suffix of a "digits/" file names no scale word and no "one". */
  predicate PlainSuffix(u: string) {
    u != "100" && u != "r-100" && u != "1000" && u != "miljon" && u != "miljoner"
      && u != "n-1" && u != "u-1"
  }

  /** The files of the group renderer mean what their names say. */
  lemma WordOfDigitFile(d: int)
    requires IsDigitValue(d)
    ensures WordOf(DigitFile(d)) == Num(d)
  {
    var f, u := DigitFile(d), [DigitChar(d)];
    assert f[..7] == "digits/" && f[7..] == u;
    assert PlainSuffix(u) && AllDigits(u);
    assert u[..0] == [];
    assert DecimalValue(u) == d;
  }

  lemma WordOfCountedDigitFile(d: int)
    requires IsDigitValue(d)
    ensures WordOf(CountedDigitFile(d)) == Num(d)
  {
    var f, u, v := CountedDigitFile(d), ['r', '-', DigitChar(d)], [DigitChar(d)];
    assert f[..7] == "digits/" && f[7..] == u;
    assert PlainSuffix(u);
    assert u[..2] == "r-" && u[2..] == v && AllDigits(v);
    assert v[..0] == [];
    assert DecimalValue(v) == d;
  }

  lemma WordOfPairFile(b: int, c: int)
    requires IsDigitValue(b) && IsDigitValue(c)
    ensures WordOf(PairFile(b, c)) == Num(10 * b + c)
  {
    var f, u := PairFile(b, c), [DigitChar(b), DigitChar(c)];
    assert f[..7] == "digits/" && f[7..] == u;
    assert PlainSuffix(u) && AllDigits(u);
    assert u[..2][0] == DigitChar(b) && IsDigit(DigitChar(b));
    assert u[..1] == [DigitChar(b)] && [DigitChar(b)][..0] == [];
    assert DecimalValue([DigitChar(b)]) == b;
    assert DecimalValue(u) == 10 * b + c;
  }

  lemma WordOfCountedPairFile(b: int, c: int)
    requires IsDigitValue(b) && IsDigitValue(c)
    ensures WordOf(CountedPairFile(b, c)) == Num(10 * b + c)
  {
    var f, u, v := CountedPairFile(b, c), ['r', '-', DigitChar(b), DigitChar(c)], [DigitChar(b), DigitChar(c)];
    assert f[..7] == "digits/" && f[7..] == u;
    assert PlainSuffix(u);
    assert u[..2] == "r-" && u[2..] == v && AllDigits(v);
    assert v[..1] == [DigitChar(b)] && [DigitChar(b)][..0] == [];
    assert DecimalValue([DigitChar(b)]) == b;
    assert DecimalValue(v) == 10 * b + c;
  }

  lemma WordOfFixedFiles()
    ensures WordOf(NeuterOne) == Num(1) && WordOf(UtrumOne) == Num(1)
    ensures WordOf(Hundred) == HundredWord && WordOf(CountedHundred) == HundredWord
    ensures WordOf("digits/1000") == ThousandWord
    ensures WordOf("digits/miljon") == MillionWord && WordOf("digits/miljoner") == MillionWord
    ensures WordOf("digits/0") == Num(0)
  {
    WordOfOneFiles();
    WordOfHundredFiles();
    WordOfScaleFiles();
    WordOfZeroFile();
  }

  lemma WordOfOneFiles()
    ensures WordOf(NeuterOne) == Num(1) && WordOf(UtrumOne) == Num(1)
  {
    assert NeuterOne[..7] == "digits/" && NeuterOne[7..] == "n-1";
    assert UtrumOne[..7] == "digits/" && UtrumOne[7..] == "u-1";
  }

  lemma WordOfHundredFiles()
    ensures WordOf(Hundred) == HundredWord && WordOf(CountedHundred) == HundredWord
  {
    assert Hundred[..7] == "digits/" && Hundred[7..] == "100";
    assert CountedHundred[..7] == "digits/" && CountedHundred[7..] == "r-100";
  }

  lemma WordOfScaleFiles()
    ensures WordOf("digits/1000") == ThousandWord
    ensures WordOf("digits/miljon") == MillionWord && WordOf("digits/miljoner") == MillionWord
  {
    assert "digits/1000"[..7] == "digits/" && "digits/1000"[7..] == "1000";
    assert "digits/miljon"[..7] == "digits/" && "digits/miljon"[7..] == "miljon";
    assert "digits/miljoner"[..7] == "digits/" && "digits/miljoner"[7..] == "miljoner";
  }

  lemma WordOfZeroFile()
    ensures WordOf("digits/0") == Num(0)
  {
    assert "digits/0"[..7] == "digits/" && "digits/0"[7..] == "0" && "0"[..0] == [];
  }

  /**
   * What a listener hears in one rendered group: its value, except that a
   * counted group a b c with a > 1 and b, c not both zero is heard as 1 b c,
   * because the counted hundreds leave the digit a unsaid.
   */
  function HeardGroupValue(m: SayMethod, a: int, b: int, c: int): int {
    100 * a + 10 * b + c - (if m == Counted && a > 1 && (b != 0 || c != 0) then (a - 1) * 100 else 0)
  }

  /** The unit-name markers the number composer passes to the group renderer. */
  predicate IsScaleMarker(what: Option<string>) {
    what.None? || what.value == "digits/1000" || what.value == "digits/miljon" || what.value == "digits/miljoner"
  }

  function ScaleOf(marker: string): nat {
    if marker == "digits/1000" then 1000 else 1000000
  }

  lemma HearHundreds(m: SayMethod, a: int, b: int, c: int, total: nat)
    requires IsDigitValue(a)
    ensures ReadFrom(Tally(total, 0), HundredsFiles(m, a, b, c))
         == Tally(total, if a == 0 then 0
                         else if m == Counted && !(a > 1 && b == 0 && c == 0) then 100
                         else 100 * a)
  {
    WordOfFixedFiles();
    if a != 0 {
      WordOfDigitFile(a);
      var fs := HundredsFiles(m, a, b, c);
      if |fs| == 1 {
        ReadOne(Tally(total, 0), fs[0]);
      } else {
        assert fs == [fs[0], fs[1]];
        ReadTwo(Tally(total, 0), fs[0], fs[1]);
      }
    }
  }

  lemma HearTens(m: SayMethod, b: int, c: int, total: nat, current: nat)
    requires IsDigitValue(b) && IsDigitValue(c)
    ensures ReadFrom(Tally(total, current), TensFiles(m, b, c))
         == Tally(total, current + (if b == 1 then 10 + c else 10 * b))
  {
    if b != 0 {
      WordOfPairFile(b, 0);
      WordOfCountedPairFile(b, 0);
      WordOfPairFile(b, c);
      WordOfCountedPairFile(b, c);
      ReadOne(Tally(total, current), TensFiles(m, b, c)[0]);
    }
  }

  lemma HearUnits(m: SayMethod, g: SayGender, c: int, what: Option<string>, total: nat, current: nat)
    requires IsDigitValue(c)
    ensures ReadFrom(Tally(total, current), UnitsFiles(m, g, c, what)) == Tally(total, current + c)
  {
    if c != 0 {
      WordOfFixedFiles();
      WordOfDigitFile(c);
      WordOfCountedDigitFile(c);
      ReadOne(Tally(total, current), UnitsFiles(m, g, c, what)[0]);
    }
  }

  /** The parts of a group add up to what a listener hears in it. */
  lemma HeardGroupParts(m: SayMethod, a: int, b: int, c: int)
    requires IsDigitValue(a) && IsDigitValue(b) && IsDigitValue(c)
    ensures (if a == 0 then 0 else if m == Counted && !(a > 1 && b == 0 && c == 0) then 100 else 100 * a)
            + (if b == 1 then 10 + c else 10 * b) + (if b == 1 then 0 else c)
            == HeardGroupValue(m, a, b, c)
    ensures HeardGroupValue(m, a, b, c) >= 0
    ensures HeardGroupValue(m, a, b, c) == 0 <==> a == 0 && b == 0 && c == 0
  {
  }

  /** Hearing the three digit parts of a group from the start of the group. */
  lemma HearDigitParts(m: SayMethod, g: SayGender, a: int, b: int, c: int, what: Option<string>, total: nat)
    requires IsDigitValue(a) && IsDigitValue(b) && IsDigitValue(c)
    ensures ReadFrom(Tally(total, 0), HundredsFiles(m, a, b, c) + TensFiles(m, b, c)
                     + UnitsFiles(m, g, if b == 1 then 0 else c, what))
         == Tally(total, HeardGroupValue(m, a, b, c))
  {
    var units := if b == 1 then 0 else c;
    var h, t, u := HundredsFiles(m, a, b, c), TensFiles(m, b, c), UnitsFiles(m, g, units, what);
    ReadFromAppend(Tally(total, 0), h + t, u);
    ReadFromAppend(Tally(total, 0), h, t);
    HearHundreds(m, a, b, c, total);
    var t1 := ReadFrom(Tally(total, 0), h);
    HearTens(m, b, c, total, t1.current);
    var t2 := ReadFrom(t1, t);
    HearUnits(m, g, units, what, total, t2.current);
    HeardGroupParts(m, a, b, c);
  }

  /** Hearing an unmarked group leaves its value pending in the current tally. */
  lemma HearPlainGroup(m: SayMethod, g: SayGender, a: int, b: int, c: int, total: nat)
    requires IsDigitValue(a) && IsDigitValue(b) && IsDigitValue(c)
    ensures HeardGroupValue(m, a, b, c) >= 0
    ensures ReadFrom(Tally(total, 0), GroupFiles(m, g, a, b, c, None))
         == Tally(total, HeardGroupValue(m, a, b, c))
  {
    var digits := HundredsFiles(m, a, b, c) + TensFiles(m, b, c) + UnitsFiles(m, g, if b == 1 then 0 else c, None);
    assert MarkerFiles(None, a, b, if b == 1 then 0 else c) == [];
    assert GroupFiles(m, g, a, b, c, None) == digits;
    HearDigitParts(m, g, a, b, c, None, total);
    HeardGroupParts(m, a, b, c);
  }

  /**
   * Hearing a group marked with a thousand or million marker adds its value
   * at that scale to the total; a zero group, which says nothing, adds zero.
   */
  lemma {:induction false} HearMarkedGroup(m: SayMethod, g: SayGender, a: int, b: int, c: int, marker: string, total: nat)
    requires IsDigitValue(a) && IsDigitValue(b) && IsDigitValue(c)
    requires IsScaleMarker(Some(marker))
    ensures HeardGroupValue(m, a, b, c) >= 0
    ensures ReadFrom(Tally(total, 0), GroupFiles(m, g, a, b, c, Some(marker)))
         == Tally(total + HeardGroupValue(m, a, b, c) * ScaleOf(marker), 0)
  {
    var units := if b == 1 then 0 else c;
    var digits := HundredsFiles(m, a, b, c) + TensFiles(m, b, c) + UnitsFiles(m, g, units, Some(marker));
    var mk := MarkerFiles(Some(marker), a, b, units);
    assert GroupFiles(m, g, a, b, c, Some(marker)) == digits + mk;
    ReadFromAppend(Tally(total, 0), digits, mk);
    HearDigitParts(m, g, a, b, c, Some(marker), total);
    HeardGroupParts(m, a, b, c);
    if mk != [] {
      WordOfFixedFiles();
      ReadOne(Tally(total, HeardGroupValue(m, a, b, c)), marker);
    }
  }
}
