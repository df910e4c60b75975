/**
 * `say_spell`: spelling a text one character at a time, as digit files,
 * `ascii/<code>` files or `phonetic-ascii/<code>` files.
 */
module Spell {
  import opened SayTypes
  import opened Decimal
  import opened SayHandle
  import opened Count

  /** `tolower` in the C locale: only the letters A to Z change, each to its lower-case letter. */
  function LowerCase(ch: char): (r: char)
    ensures !('A' <= r <= 'Z')
    ensures r == ch || ('A' <= ch <= 'Z' && r as int == ch as int + 32)
  {
    if 'A' <= ch <= 'Z' then (ch as int - 'A' as int + 'a' as int) as char else ch
  }

  /** The text with `LowerCase` applied to every character. */
  function LowerString(s: string): string
    decreases |s|
  {
    if s == [] then [] else LowerString(s[..|s| - 1]) + [LowerCase(s[|s| - 1])]
  }

  /** Whether the type spells every character (and not only digits). */
  predicate SpellsAll(t: SayType) {
    t == NameSpelled || t == NamePhonetic
  }

  /** The directory a non-digit character's file lives in. */
  function CodePrefix(t: SayType): string {
    if t == NameSpelled then "ascii/" else "phonetic-ascii/"
  }

  /**
   * What `say_spell` appends for one character: one file under a spelling
   * type, otherwise one file for a digit and none for anything else.
   */
  function SpellFile(t: SayType, ch: char): (r: seq<string>)
    ensures |r| == if SpellsAll(t) || IsDigit(ch) then 1 else 0
    ensures IsDigit(ch) ==> r == ["digits/" + [ch]]
  {
    var a := LowerCase(ch);
    if IsDigit(a) then ["digits/" + [a]]
    else if SpellsAll(t) then [CodePrefix(t) + NatToString(a as int)]
    else []
  }

  /** What `say_spell` appends for the whole text, in order. */
  function SpellFiles(t: SayType, s: string): seq<string>
    decreases |s|
  {
    if s == [] then [] else SpellFiles(t, s[..|s| - 1]) + SpellFile(t, s[|s| - 1])
  }

  /** The digits of a text, in order, everything else dropped. */
  function DigitsIn(s: string): string
    decreases |s|
  {
    if s == [] then []
    else DigitsIn(s[..|s| - 1]) + (if IsDigit(s[|s| - 1]) then [s[|s| - 1]] else [])
  }

  /**
   * A C string as the model sees it: one character per byte before the
   * terminating NUL, so every character code is from 1 to 255.
   */
  predicate IsByteText(s: string) {
    forall i :: 0 <= i < |s| ==> 0 < s[i] as int < 256
  }

  /** What `say_spell` appends and returns: it never fails. */
  function SpellOutcome(t: SayType, s: string): Emitted {
    Emitted(SpellFiles(t, s), Success)
  }

  /** The loop of `say_spell`. */
  method SaySpell(sh: SayFileHandle, tosay: string, args: SayArgs) returns (status: Status)
    requires IsByteText(tosay)
    modifies sh
    ensures var r := SpellOutcome(args.sayType, tosay);
      sh.files == old(sh.files) + r.files && status == r.status
  {
    var i := 0;
    while i < |tosay|
      invariant 0 <= i <= |tosay|
      invariant sh.files == old(sh.files) + SpellFiles(args.sayType, tosay[..i])
    {
      var a := LowerCase(tosay[i]);
      if IsDigit(a) {
        sh.SayFile("digits/" + [a]);
      } else if args.sayType == NameSpelled {
        sh.SayFile("ascii/" + NatToString(a as int));
      } else if args.sayType == NamePhonetic {
        sh.SayFile("phonetic-ascii/" + NatToString(a as int));
      }
      assert tosay[..i + 1][..i] == tosay[..i];
      i := i + 1;
    }
    assert tosay[..i] == tosay;
    return Success;
  }

  // ---------------------------------------------------------------------
  // The listener's side: decoding the spelled files back into characters.
  // ---------------------------------------------------------------------


  /** The byte one spelled file stands for, if it is one. */
  function DecodeFile(t: SayType, f: string): Option<char> {
    var p := CodePrefix(t);
    if |f| == 8 && f[..7] == "digits/" && IsDigit(f[7]) then Some(f[7])
    else if |p| < |f| && f[..|p|] == p && AllDigits(f[|p|..]) && DecimalValue(f[|p|..]) < 256 then
      Some(DecimalValue(f[|p|..]) as char)
    else None
  }

  /** The text a list of spelled files stands for, or None at the first unknown file. */
  function Unspell(t: SayType, fs: seq<string>): Option<string>
    decreases |fs|
  {
    if fs == [] then Some([])
    else match (Unspell(t, fs[..|fs| - 1]), DecodeFile(t, fs[|fs| - 1]))
      case (Some(s), Some(c)) => Some(s + [c])
      case _ => None
  }

  /** Lowercasing a second time changes nothing. */
  lemma LowerCaseIdempotent(ch: char)
    ensures LowerCase(LowerCase(ch)) == LowerCase(ch)
    ensures IsDigit(LowerCase(ch)) <==> IsDigit(ch)
  {
  }

  /** `LowerString` keeps the length and lowercases position by position. */
  lemma {:induction false} LowerStringAt(s: string)
    ensures |LowerString(s)| == |s|
    ensures forall i :: 0 <= i < |s| ==> LowerString(s)[i] == LowerCase(s[i])
    decreases |s|
  {
    if s != [] {
      LowerStringAt(s[..|s| - 1]);
    }
  }

  /** A spelled file decodes to the lowercased character it was made from. */
  lemma DecodeSpellFile(t: SayType, ch: char)
    requires SpellsAll(t) && ch as int < 256
    ensures |SpellFile(t, ch)| == 1
    ensures DecodeFile(t, SpellFile(t, ch)[0]) == Some(LowerCase(ch))
  {
    var a := LowerCase(ch);
    if IsDigit(a) {
      DecodeDigitFile(t, a);
    } else {
      assert SpellFile(t, ch)[0] == CodePrefix(t) + NatToString(a as int);
      DecodeCodeFile(t, a as int);
    }
  }

  /** A digit file decodes to its digit. */
  lemma DecodeDigitFile(t: SayType, d: char)
    requires IsDigit(d)
    ensures DecodeFile(t, "digits/" + [d]) == Some(d)
  {
    var f := "digits/" + [d];
    assert f[..7] == "digits/" && f[7] == d;
  }

  /** The file of a byte's code decodes to that byte. */
  lemma DecodeCodeFile(t: SayType, n: nat)
    requires n < 256
    ensures DecodeFile(t, CodePrefix(t) + NatToString(n)) == Some(n as char)
  {
    var p := CodePrefix(t);
    var digits := NatToString(n);
    var f := p + digits;
    assert f[0] != 'd';
    assert f[..|p|] == p && f[|p|..] == digits;
    DecimalRoundTrip(n);
  }

  /**
   * Decoding what `say_spell` appends for a spelling type gives back the
   * text, lowercased: nothing is lost but the letter case.
   */
  lemma {:induction false} SpellRoundTrip(t: SayType, s: string)
    requires SpellsAll(t) && IsByteText(s)
    ensures Unspell(t, SpellFiles(t, s)) == Some(LowerString(s))
    decreases |s|
  {
    if s != [] {
      var init := s[..|s| - 1];
      var ch := s[|s| - 1];
      SpellRoundTrip(t, init);
      DecodeSpellFile(t, ch);
      var fs := SpellFiles(t, s);
      assert fs == SpellFiles(t, init) + [SpellFile(t, ch)[0]];
      assert fs[..|fs| - 1] == SpellFiles(t, init);
    }
  }

  /**
   * Under a spelling type every character yields exactly one file; a digit
   * yields `digits/<digit>`, anything else the file of its lowercased code.
   */
  lemma {:induction false} OneFilePerChar(t: SayType, s: string)
    requires SpellsAll(t)
    ensures |SpellFiles(t, s)| == |s|
    ensures forall i :: 0 <= i < |s| && IsDigit(s[i]) ==> SpellFiles(t, s)[i] == "digits/" + [s[i]]
    ensures forall i :: 0 <= i < |s| && !IsDigit(s[i]) ==>
      SpellFiles(t, s)[i] == CodePrefix(t) + NatToString(LowerCase(s[i]) as int)
    decreases |s|
  {
    if s != [] {
      OneFilePerChar(t, s[..|s| - 1]);
      LowerCaseIdempotent(s[|s| - 1]);
    }
  }

  /** Under any other type only the digits are said, in order. */
  lemma {:induction false} OnlyDigitsOtherwise(t: SayType, s: string)
    requires !SpellsAll(t)
    ensures SpellFiles(t, s) == CharFiles(DigitsIn(s))
    decreases |s|
  {
    if s != [] {
      var init := s[..|s| - 1];
      var ch := s[|s| - 1];
      OnlyDigitsOtherwise(t, init);
      LowerCaseIdempotent(ch);
      if IsDigit(ch) {
        var d := DigitsIn(init) + [ch];
        assert DigitsIn(s) == d && d[..|d| - 1] == DigitsIn(init);
        assert CharFiles(d) == CharFiles(DigitsIn(init)) + ["digits/" + [ch]];
      } else {
        assert DigitsIn(s) == DigitsIn(init);
      }
    }
  }

  /** Letter case makes no difference to what is said. */
  lemma {:induction false} SpellIgnoresCase(t: SayType, s: string)
    ensures SpellFiles(t, LowerString(s)) == SpellFiles(t, s)
    decreases |s|
  {
    if s != [] {
      var init := s[..|s| - 1];
      var ch := s[|s| - 1];
      SpellIgnoresCase(t, init);
      LowerCaseIdempotent(ch);
      var low := LowerString(s);
      assert low[..|low| - 1] == LowerString(init);
    }
  }

  /**
   * Spelling an all-digit text is the same as the iterated reading of
   * `nb_say_general_count`: one `digits/<digit>` file per character.
   */
  lemma {:induction false} DigitsSpellLikeIterated(t: SayType, s: string)
    requires AllDigits(s)
    ensures SpellFiles(t, s) == CharFiles(s)
    decreases |s|
  {
    if s != [] {
      DigitsSpellLikeIterated(t, s[..|s| - 1]);
    }
  }

  /** "A1" spelled is the file of the letter a (code 97), then the digit one. */
  lemma SpelledExample()
    ensures SpellFiles(NameSpelled, "A1") == ["ascii/97", "digits/1"]
  {
    assert "A1"[..1] == "A" && "A"[..0] == [];
    assert LowerCase('A') == 'a' && 'a' as int == 97;
    assert NatToString(9) == "9" && NatToString(97) == "97";
    assert SpellFile(NameSpelled, 'A') == ["ascii/" + NatToString(97)];
    assert SpellFile(NameSpelled, '1') == ["digits/" + ['1']];
    assert SpellFiles(NameSpelled, "A") == SpellFile(NameSpelled, 'A');
    assert SpellFiles(NameSpelled, "A1") == SpellFiles(NameSpelled, "A") + SpellFile(NameSpelled, '1');
    assert "ascii/" + NatToString(97) == "ascii/97" && "digits/" + ['1'] == "digits/1";
  }
}
