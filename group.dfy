/**
 * `play_group`: one three-digit group (hundreds a, tens b, units c) spoken
 * under a method and a gender, with an optional unit-name marker such as
 * "digits/1000" said after it.
 */
module Group {
  import opened SayTypes
  import opened Decimal
  import opened SayHandle

  /** "digits/<d>": a bare digit (cardinal; "tre", "fire", ...). */
  function DigitFile(d: int): string
    requires 0 <= d <= 9
  {
    "digits/" + [DigitChar(d)]
  }

  /** "digits/r-<d>": the counted (ordinal) digit ("tredje", ...). */
  function CountedDigitFile(d: int): string
    requires 0 <= d <= 9
  {
    "digits/r-" + [DigitChar(d)]
  }

  /** "digits/<b><c>": a tens or teen word ("tretti", "tretten"). */
  function PairFile(b: int, c: int): string
    requires 0 <= b <= 9 && 0 <= c <= 9
  {
    "digits/" + [DigitChar(b), DigitChar(c)]
  }

  /** "digits/r-<b><c>": the counted tens or teen word. */
  function CountedPairFile(b: int, c: int): string
    requires 0 <= b <= 9 && 0 <= c <= 9
  {
    "digits/r-" + [DigitChar(b), DigitChar(c)]
  }

  const NeuterOne := "digits/n-1"        // ett
  const UtrumOne := "digits/u-1"         // en
  const Hundred := "digits/100"          // hundre
  const CountedHundred := "digits/r-100" // hundrede

  predicate IsDigitValue(d: int) {
    0 <= d <= 9
  }

  /** The hundreds part of a group. */
  function HundredsFiles(m: SayMethod, a: int, b: int, c: int): seq<string>
    requires IsDigitValue(a)
  {
    if a == 0 then []
    else if m == Counted then
      (if a > 1 && b == 0 && c == 0 then [DigitFile(a)] else []) + [CountedHundred]
    else
      (if a == 1 then [NeuterOne] else [DigitFile(a)]) + [Hundred]
  }

  /** The tens part; a teen (b == 1) takes the units digit into one word. */
  function TensFiles(m: SayMethod, b: int, c: int): seq<string>
    requires IsDigitValue(b) && IsDigitValue(c)
  {
    if b == 0 then []
    else if b > 1 then
      (if c == 0 && m == Counted then [CountedPairFile(b, 0)] else [PairFile(b, 0)])
    else
      (if m == Counted then [CountedPairFile(b, c)] else [PairFile(b, c)])
  }

  /** The units part, for a units digit not already said by a teen. */
  function UnitsFiles(m: SayMethod, g: SayGender, c: int, what: Option<string>): seq<string>
    requires IsDigitValue(c)
  {
    if c == 0 then []
    else if c == 1 then
      (if what.Some? then [NeuterOne]
       else if m == Counted then [CountedDigitFile(1)]
       else if g == Utrum then [UtrumOne]
       else [NeuterOne])
    else
      (if what.Some? then [DigitFile(c)]
       else if m == Counted then [CountedDigitFile(c)]
       else [DigitFile(c)])
  }

  /** The marker, said last and only for a nonzero group. */
  function MarkerFiles(what: Option<string>, a: int, b: int, c: int): seq<string> {
    if what.Some? && (a != 0 || b != 0 || c != 0) then [what.value] else []
  }

  /**
   * The paths `play_group` appends for the group (a, b, c): hundreds, tens,
   * units, marker, in that order.
   */
  function GroupFiles(m: SayMethod, g: SayGender, a: int, b: int, c: int, what: Option<string>): (r: seq<string>)
    requires IsDigitValue(a) && IsDigitValue(b) && IsDigitValue(c)
  {
    var units := if b == 1 then 0 else c;
    HundredsFiles(m, a, b, c) + TensFiles(m, b, c) + UnitsFiles(m, g, units, what)
      + MarkerFiles(what, a, b, units)
  }

  /**
   * A group says at most five files; an all-zero group says nothing; a
   * marker comes last and only after a nonzero group; without a marker
   * there are at most four files.
   */
  lemma GroupShape(m: SayMethod, g: SayGender, a: int, b: int, c: int, what: Option<string>)
    requires IsDigitValue(a) && IsDigitValue(b) && IsDigitValue(c)
    ensures var r := GroupFiles(m, g, a, b, c, what);
      && |r| <= 5
      && (a == 0 && b == 0 && c == 0 ==> r == [])
      && (what.Some? && (a != 0 || b != 0 || c != 0) ==> 2 <= |r| && r[|r| - 1] == what.value)
      && (what.None? ==> |r| <= 4)
  {
  }

  /** `play_group` appending to the handle step by step; it never fails. */
  method PlayGroup(m: SayMethod, g: SayGender, a: int, b: int, c: int, what: Option<string>, sh: SayFileHandle)
    requires IsDigitValue(a) && IsDigitValue(b) && IsDigitValue(c)
    modifies sh
    ensures sh.files == old(sh.files) + GroupFiles(m, g, a, b, c, what)
  {
    ghost var h, t := HundredsFiles(m, a, b, c), TensFiles(m, b, c);
    SayHundreds(m, a, b, c, sh);
    var unit := SayTens(m, b, c, sh);
    ghost var u := UnitsFiles(m, g, unit, what);
    SayUnits(m, g, unit, what, sh);
    assert sh.files == old(sh.files) + (h + t + u);
    if what.Some? && (a != 0 || b != 0 || unit != 0) {
      sh.SayFile(what.value);
    }
    assert GroupFiles(m, g, a, b, c, what) == h + t + u + MarkerFiles(what, a, b, unit);
  }

  method SayHundreds(m: SayMethod, a: int, b: int, c: int, sh: SayFileHandle)
    requires IsDigitValue(a)
    modifies sh
    ensures sh.files == old(sh.files) + HundredsFiles(m, a, b, c)
  {
    if a != 0 {
      if m == Counted {
        if a > 1 && b == 0 && c == 0 {
          sh.SayFile(DigitFile(a));
        }
        sh.SayFile(CountedHundred);
      } else {
        if a == 1 {
          sh.SayFile(NeuterOne);
        } else {
          sh.SayFile(DigitFile(a));
        }
        sh.SayFile(Hundred);
      }
    }
  }

  /** Says the tens; returns the units digit still to be said (0 after a teen). */
  method SayTens(m: SayMethod, b: int, c: int, sh: SayFileHandle) returns (unit: int)
    requires IsDigitValue(b) && IsDigitValue(c)
    modifies sh
    ensures sh.files == old(sh.files) + TensFiles(m, b, c)
    ensures unit == if b == 1 then 0 else c
  {
    unit := c;
    if b != 0 {
      if b > 1 {
        if c == 0 && m == Counted {
          sh.SayFile(CountedPairFile(b, 0));
        } else {
          sh.SayFile(PairFile(b, 0));
        }
      } else {
        if m == Counted {
          sh.SayFile(CountedPairFile(b, c));
        } else {
          sh.SayFile(PairFile(b, c));
        }
        unit := 0;
      }
    }
  }

  method SayUnits(m: SayMethod, g: SayGender, c: int, what: Option<string>, sh: SayFileHandle)
    requires IsDigitValue(c)
    modifies sh
    ensures sh.files == old(sh.files) + UnitsFiles(m, g, c, what)
  {
    if c != 0 {
      if c == 1 {
        if what.Some? {
          sh.SayFile(NeuterOne);
        } else if m == Counted {
          sh.SayFile(CountedDigitFile(1));
        } else if g == Utrum {
          sh.SayFile(UtrumOne);
        } else {
          sh.SayFile(NeuterOne);
        }
      } else {
        if what.Some? {
          sh.SayFile(DigitFile(c));
        } else if m == Counted {
          sh.SayFile(CountedDigitFile(c));
        } else {
          sh.SayFile(DigitFile(c));
        }
      }
    }
  }
}
