/**
 * `nb_say_general_count`: a number, given as text, said digit by digit, as
 * a year, or as a counted or pronounced number built from three groups.
 */
module Count {
  import opened SayTypes
  import opened Decimal
  import opened PlaceValue
  import opened Group
  import opened SayHandle
  import opened Reading

  /**
   * What the separator-stripping helper promises: when it succeeds, what it
   * returns is all digits. The helper itself is not part of this model; the
   * renderers take it as the parameter `strip`.
   */
  ghost predicate StripYieldsDigits(strip: string -> Option<string>) {
    forall s :: strip(s).Some? ==> AllDigits(strip(s).value)
  }

  /** `atoi` of a stripped text of at most nine digits. */
  function ParsedValue(s: string): (n: nat)
    requires AllDigits(s) && |s| <= 9
    ensures n < Pow10(9) && n == DecimalValue(s)
  {
    DecimalValueBound(s);
    PowMonotone(|s|, 9);
    DecimalValue(s)
  }

  /** The millions marker: singular under the exact condition the renderer tests. */
  function MillionMarker(p: seq<int>): (r: string)
    requires |p| == 9
    ensures r == "digits/miljon" || r == "digits/miljoner"
    ensures p[6] == 1 && p[7] == 0 && p[8] == 0 ==> r == "digits/miljon"
    ensures p[6] == 1 && (p[7] == 0) != (p[8] == 0) ==> r == "digits/miljon"
    ensures p[6] != 1 || (p[7] != 0 && p[8] != 0) ==> r == "digits/miljoner"
  {
    if p[6] == 1 && (p[8] == 0 || p[7] == 0) then "digits/miljon" else "digits/miljoner"
  }

  /**
   * A nonzero number said as three groups of its slots: millions and
   * thousands always pronounced and marked, the last group in the caller's
   * method, unmarked.
   */
  function GroupsFiles(m: SayMethod, g: SayGender, p: seq<int>): seq<string>
    requires |p| == 9 && IsDigitSlots(p)
  {
    GroupFiles(Pronounced, g, p[8], p[7], p[6], Some(MillionMarker(p)))
      + GroupFiles(Pronounced, g, p[5], p[4], p[3], Some("digits/1000"))
      + GroupFiles(m, g, p[2], p[1], p[0], None)
  }

  function NumberFiles(m: SayMethod, g: SayGender, n: nat): seq<string>
    requires n < Pow10(9)
  {
    GroupsFiles(m, g, Places(n))
  }

  /** The iterated reading: one "digits/<ch>" file per character. */
  function CharFiles(s: string): seq<string>
    decreases |s|
  {
    if s == [] then [] else CharFiles(s[..|s| - 1]) + ["digits/" + [s[|s| - 1]]]
  }

  /**
   * What `nb_say_general_count` appends and returns for the text `tosay`
   * under method m and gender g.
   */
  function GeneralCount(strip: string -> Option<string>, tosay: string, m: SayMethod, g: SayGender): (r: Emitted)
    requires StripYieldsDigits(strip)
    ensures r.status == GenErr <==> strip(tosay).None? || (m != Iterated && |strip(tosay).value| > 9)
    ensures r.status == GenErr ==> r.files == []
  {
    var stripped := strip(tosay);
    if m == Iterated then
      if stripped.None? then Emitted([], GenErr) else Emit(CharFiles(stripped.value))
    else if stripped.None? || |stripped.value| > 9 then Emitted([], GenErr)
    else
      var s := stripped.value;
      var n := ParsedValue(s);
      if n == 0 then Emit(["digits/0"])
      else if m == PronouncedYear then Emit(["time/" + s])
      else if m == Counted || m == Pronounced then Emit(NumberFiles(m, g, n))
      else Emit([])
  }

  /** Zero is said as exactly one "digits/0", whatever the method other than iterated. */
  lemma ZeroIsOneFile(strip: string -> Option<string>, tosay: string, m: SayMethod, g: SayGender)
    requires StripYieldsDigits(strip)
    requires m != Iterated && strip(tosay).Some? && |strip(tosay).value| <= 9
    requires DecimalValue(strip(tosay).value) == 0
    ensures GeneralCount(strip, tosay, m, g) == Emitted(["digits/0"], Success)
  {
  }

  /**
   * A nonzero text read as a year is the single file "time/" followed by the
   * stripped text, leading zeros and all; under a method with no case of its
   * own it says nothing and succeeds.
   */
  lemma YearAndOtherMethods(strip: string -> Option<string>, tosay: string, m: SayMethod, g: SayGender)
    requires StripYieldsDigits(strip)
    requires m !in {Iterated, Counted, Pronounced} && strip(tosay).Some? && |strip(tosay).value| <= 9
    requires DecimalValue(strip(tosay).value) != 0
    ensures GeneralCount(strip, tosay, m, g) == Emit(if m == PronouncedYear then ["time/" + strip(tosay).value] else [])
  {
  }

  /** The iterated reading says each character of the stripped text, in order. */
  lemma {:induction false} CharFilesAt(s: string)
    ensures |CharFiles(s)| == |s|
    ensures forall i :: 0 <= i < |s| ==> CharFiles(s)[i] == "digits/" + [s[i]]
    decreases |s|
  {
    if s != [] {
      CharFilesAt(s[..|s| - 1]);
    }
  }

  /**
   * A number names the singular million exactly when it is at least a
   * million and its slots pass the test of the renderer, and the plural
   * exactly when it is at least a million and they do not.
   */
  lemma MillionMarkerChoice(m: SayMethod, g: SayGender, n: nat)
    requires n < Pow10(9)
    ensures var p := Places(n);
      var singular := p[6] == 1 && (p[8] == 0 || p[7] == 0);
      && ("digits/miljon" in NumberFiles(m, g, n) <==> 1000000 <= n && singular)
      && ("digits/miljoner" in NumberFiles(m, g, n) <==> 1000000 <= n && !singular)
  {
    var p := Places(n);
    SlotsValueNine(p);
    assert 1000000 <= n <==> p[8] != 0 || p[7] != 0 || p[6] != 0;
    LongFilesAreMillionMarker(m, g, p);
    assert |"digits/miljon"| > 12 && |"digits/miljoner"| > 12;
  }

  /**
   * A file longer than twelve characters is said for a number exactly when it
   * is the millions marker and the millions group is not zero.
   */
  lemma LongFilesAreMillionMarker(m: SayMethod, g: SayGender, p: seq<int>)
    requires |p| == 9 && IsDigitSlots(p)
    ensures forall f :: |f| > 12 ==>
      (f in GroupsFiles(m, g, p) <==> (p[8] != 0 || p[7] != 0 || p[6] != 0) && f == MillionMarker(p))
  {
    var mm := GroupFiles(Pronounced, g, p[8], p[7], p[6], Some(MillionMarker(p)));
    var th := GroupFiles(Pronounced, g, p[5], p[4], p[3], Some("digits/1000"));
    var un := GroupFiles(m, g, p[2], p[1], p[0], None);
    assert GroupsFiles(m, g, p) == mm + th + un;
    GroupShape(Pronounced, g, p[8], p[7], p[6], Some(MillionMarker(p)));
    GroupFilesShort(Pronounced, g, p[8], p[7], p[6], Some(MillionMarker(p)));
    GroupFilesShort(Pronounced, g, p[5], p[4], p[3], Some("digits/1000"));
    GroupFilesShort(m, g, p[2], p[1], p[0], None);
  }

  /** Every file of a group but its marker is at most twelve characters long. */
  lemma GroupFilesShort(m: SayMethod, g: SayGender, a: int, b: int, c: int, what: Option<string>)
    requires IsDigitValue(a) && IsDigitValue(b) && IsDigitValue(c)
    ensures forall f :: f in GroupFiles(m, g, a, b, c, what) ==> |f| <= 12 || Some(f) == what
  {
  }

  /**
   * The tested condition is weaker than "the million group is exactly one":
   * eleven million and a hundred and one million both get the singular.
   */
  lemma MillionMarkerNotJustOne()
    ensures Pow10(9) == 1000000000
    ensures MillionMarker(Places(11000000)) == "digits/miljon" && Places(11000000)[7] == 1
    ensures MillionMarker(Places(101000000)) == "digits/miljon" && Places(101000000)[8] == 1
    ensures MillionMarker(Places(111000000)) == "digits/miljoner"
  {
    assert Pow10(9) == 1000000000;
    var p := Places(11000000);
    SlotsValueNine(p);
    var q := Places(101000000);
    SlotsValueNine(q);
    var r := Places(111000000);
    SlotsValueNine(r);
  }

  /**
   * Hearing a nonzero counted or pronounced number gives the number back,
   * except that a counted number whose last group has a hundreds digit
   * above one with tens or units after it loses that hundreds digit.
   */
  lemma {:induction false} HearNumber(m: SayMethod, g: SayGender, n: nat)
    requires n < Pow10(9)
    ensures var p := Places(n);
      Hear(NumberFiles(m, g, n))
        == n - (if m == Counted && p[2] > 1 && (p[1] != 0 || p[0] != 0) then (p[2] - 1) * 100 else 0)
  {
    var p := Places(n);
    var mm := GroupFiles(Pronounced, g, p[8], p[7], p[6], Some(MillionMarker(p)));
    var th := GroupFiles(Pronounced, g, p[5], p[4], p[3], Some("digits/1000"));
    var un := GroupFiles(m, g, p[2], p[1], p[0], None);
    var v8 := HeardGroupValue(Pronounced, p[8], p[7], p[6]);
    var v5 := HeardGroupValue(Pronounced, p[5], p[4], p[3]);
    var v2 := HeardGroupValue(m, p[2], p[1], p[0]);
    HearMarkedGroup(Pronounced, g, p[8], p[7], p[6], MillionMarker(p), 0);
    var t1 := ReadFrom(Tally(0, 0), mm);
    assert t1 == Tally(v8 * 1000000, 0);
    HearMarkedGroup(Pronounced, g, p[5], p[4], p[3], "digits/1000", v8 * 1000000);
    var t2 := ReadFrom(t1, th);
    assert t2 == Tally(v8 * 1000000 + v5 * 1000, 0);
    HearPlainGroup(m, g, p[2], p[1], p[0], t2.total);
    assert ReadFrom(t2, un) == Tally(t2.total, v2);
    ReadFromAppend(Tally(0, 0), mm, th);
    ReadFromAppend(Tally(0, 0), mm + th, un);
    assert NumberFiles(m, g, n) == mm + th + un;
    SlotsValueNine(p);
  }

  /** A counted or pronounced text of at most nine digits is said as zero or as its groups. */
  lemma CountedOrPronouncedFiles(strip: string -> Option<string>, tosay: string, m: SayMethod, g: SayGender)
    requires StripYieldsDigits(strip)
    requires strip(tosay).Some? && |strip(tosay).value| <= 9
    requires m == Counted || m == Pronounced
    ensures var n := ParsedValue(strip(tosay).value);
      GeneralCount(strip, tosay, m, g)
        == Emit(if n == 0 then ["digits/0"] else NumberFiles(m, g, n))
  {
  }

  lemma HearZero()
    ensures Hear(["digits/0"]) == 0
  {
    WordOfFixedFiles();
    ReadOne(Tally(0, 0), "digits/0");
  }

  /** Pronouncing any number of at most nine digits, then hearing it, gives its value. */
  lemma PronouncedRoundTrip(strip: string -> Option<string>, tosay: string, g: SayGender)
    requires StripYieldsDigits(strip)
    requires strip(tosay).Some? && |strip(tosay).value| <= 9
    ensures GeneralCount(strip, tosay, Pronounced, g).status == Success
    ensures Hear(GeneralCount(strip, tosay, Pronounced, g).files) == DecimalValue(strip(tosay).value)
  {
    var n := ParsedValue(strip(tosay).value);
    CountedOrPronouncedFiles(strip, tosay, Pronounced, g);
    if n == 0 {
      HearZero();
    } else {
      HearNumber(Pronounced, g, n);
    }
  }

  /**
   * Counting a number of at most nine digits, then hearing it, gives its
   * value exactly when its last group is not a hundreds digit above one
   * followed by tens or units.
   */
  lemma CountedRoundTrip(strip: string -> Option<string>, tosay: string, g: SayGender)
    requires StripYieldsDigits(strip)
    requires strip(tosay).Some? && |strip(tosay).value| <= 9
    ensures GeneralCount(strip, tosay, Counted, g).status == Success
    ensures var n := ParsedValue(strip(tosay).value);
      var p := Places(n);
      Hear(GeneralCount(strip, tosay, Counted, g).files) == n <==> !(p[2] > 1 && (p[1] != 0 || p[0] != 0))
  {
    var n := ParsedValue(strip(tosay).value);
    CountedOrPronouncedFiles(strip, tosay, Counted, g);
    if n == 0 {
      HearZero();
    } else {
      HearNumber(Counted, g, n);
    }
  }

  /** `nb_say_general_count` appending to the handle. */
  method SayGeneralCount(sh: SayFileHandle, tosay: string, args: SayArgs, strip: string -> Option<string>)
    returns (status: Status)
    requires StripYieldsDigits(strip)
    modifies sh
    ensures var r := GeneralCount(strip, tosay, args.sayMethod, args.gender);
      sh.files == old(sh.files) + r.files && status == r.status
  {
    if args.sayMethod == Iterated {
      status := SayIterated(sh, tosay, strip);
      return;
    }

    var stripped := strip(tosay);
    if stripped.None? || |stripped.value| > 9 {
      return GenErr;
    }
    var s := stripped.value;
    var n := ParsedValue(s);

    if n != 0 {
      var places := FillPlaces(n);
      match args.sayMethod {
        case PronouncedYear =>
          sh.SayFile("time/" + s);
          return Success;
        case Counted | Pronounced =>
          CountedOrPronouncedFiles(strip, tosay, args.sayMethod, args.gender);
          SayGroups(sh, args.sayMethod, args.gender, places);
        case _ =>
      }
    } else {
      sh.SayFile("digits/0");
    }
    return Success;
  }

  /** The iterated branch: one digit file per character of the stripped text. */
  method SayIterated(sh: SayFileHandle, tosay: string, strip: string -> Option<string>) returns (status: Status)
    requires StripYieldsDigits(strip)
    modifies sh
    ensures forall g :: var r := GeneralCount(strip, tosay, Iterated, g);
      sh.files == old(sh.files) + r.files && status == r.status
  {
    var stripped := strip(tosay);
    if stripped.Some? {
      var s := stripped.value;
      var i := 0;
      while i < |s|
        invariant 0 <= i <= |s|
        invariant sh.files == old(sh.files) + CharFiles(s[..i])
      {
        sh.SayFile("digits/" + [s[i]]);
        assert s[..i + 1][..i] == s[..i];
        i := i + 1;
      }
      assert s[..i] == s;
    } else {
      return GenErr;
    }
    return Success;
  }

  /** The three `play_group` calls over the slots of a nonzero number. */
  method SayGroups(sh: SayFileHandle, m: SayMethod, g: SayGender, places: seq<int>)
    requires |places| == 9 && IsDigitSlots(places)
    modifies sh
    ensures sh.files == old(sh.files) + GroupsFiles(m, g, places)
  {
    var marker := if places[6] == 1 && (places[8] == 0 || places[7] == 0) then "digits/miljon" else "digits/miljoner";
    ghost var millions := GroupFiles(Pronounced, g, places[8], places[7], places[6], Some(MillionMarker(places)));
    ghost var thousands := GroupFiles(Pronounced, g, places[5], places[4], places[3], Some("digits/1000"));
    ghost var units := GroupFiles(m, g, places[2], places[1], places[0], None);
    PlayGroup(Pronounced, g, places[8], places[7], places[6], Some(marker), sh);
    ghost var mid := sh.files;
    assert mid == old(sh.files) + millions;
    SayLowerGroups(sh, m, g, places);
    assert sh.files == mid + (thousands + units);
    AppendAssoc(old(sh.files), millions, thousands + units);
    AppendAssoc(millions, thousands, units);
  }

  /** The thousands and the last group. */
  method SayLowerGroups(sh: SayFileHandle, m: SayMethod, g: SayGender, places: seq<int>)
    requires |places| == 9 && IsDigitSlots(places)
    modifies sh
    ensures sh.files == old(sh.files) + (GroupFiles(Pronounced, g, places[5], places[4], places[3], Some("digits/1000"))
      + GroupFiles(m, g, places[2], places[1], places[0], None))
  {
    PlayGroup(Pronounced, g, places[5], places[4], places[3], Some("digits/1000"), sh);
    ghost var mid := sh.files;
    PlayGroup(m, g, places[2], places[1], places[0], None, sh);
    AppendAssoc(old(sh.files), GroupFiles(Pronounced, g, places[5], places[4], places[3], Some("digits/1000")),
      GroupFiles(m, g, places[2], places[1], places[0], None));
  }
}
