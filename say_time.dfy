/**
 * `nb_say_time`: which date and time fields to say for a date/time say
 * type, and the files said for them. The broken-down target time and the
 * current time are inputs; resolving them from a timestamp, a clock and a
 * timezone is not part of this model.
 */
module DateTime {
  import opened SayTypes
  import opened Decimal
  import opened PlaceValue
  import opened Group
  import opened SayHandle
  import opened Reading
  import opened Count

  /**
   * The broken-down time fields the renderer reads: years since 1900,
   * day of the year from 0, month from 0, day of the month, day of the week
   * from 0, hour and minute.
   */
  datatype TimeFields = TimeFields(year: int, yday: int, mon: int, mday: int, wday: int, hour: int, min: int)

  /** The fields to say. */
  datatype DateFlags = DateFlags(
    date: bool, time: bool, year: bool, month: bool, dow: bool, day: bool, yesterday: bool, today: bool)

  const NoFlags := DateFlags(false, false, false, false, false, false, false, false)

  /**
   * The say type decides the flags; a short date-time picks the first
   * matching case. At most one relative day is chosen, never with a date;
   * the year is left to the date override; the date and time types, and
   * only they, ask for something to be said.
   */
  function SelectFlags(t: SayType, tm: TimeFields, now: TimeFields): (f: DateFlags)
    ensures !(f.today && f.yesterday) && !(f.date && (f.today || f.yesterday))
    ensures !f.year
    ensures t == ShortDateTime ==> f.time
    ensures f.date || f.time <==> t in {CurrentDate, CurrentTime, CurrentDateTime, ShortDateTime}
  {
    match t
    case CurrentDateTime => NoFlags.(date := true, time := true)
    case CurrentDate => NoFlags.(date := true)
    case CurrentTime => NoFlags.(time := true)
    case ShortDateTime =>
      var f := NoFlags.(time := true);
      if tm.year != now.year then f.(date := true)
      else if tm.yday == now.yday then f.(today := true)
      else if tm.yday == now.yday - 1 then f.(yesterday := true)
      else if tm.yday >= now.yday - 5 then f.(dow := true)
      else if tm.mon != now.mon then f.(month := true, day := true, dow := true)
      else f.(month := true, day := true, dow := true)
    case _ => NoFlags
  }

  /** A full date turns on year, month, day and weekday and turns off today and yesterday. */
  function ApplyDate(f: DateFlags): (d: DateFlags)
    ensures f.date ==> d.year && d.month && d.day && d.dow && !d.today && !d.yesterday
    ensures !f.date ==> d == f
    ensures d.date == f.date && d.time == f.time
  {
    if f.date then f.(year := true, month := true, day := true, dow := true, today := false, yesterday := false)
    else f
  }

  /** C's conversion `(unsigned)num` to a 32-bit unsigned integer. */
  function Unsigned32(x: int): (r: nat)
    ensures r < 0x1_0000_0000
    ensures 0 <= x < 0x1_0000_0000 ==> r == x
    ensures (x - r) % 0x1_0000_0000 == 0
  {
    x % 0x1_0000_0000
  }

  /**
   * The `say_num` macro: the number printed with `%u` and said by the
   * number composer under a temporary method.
   */
  function SayNumOutcome(strip: string -> Option<string>, num: int, meth: SayMethod, g: SayGender): Emitted
    requires StripYieldsDigits(strip)
  {
    GeneralCount(strip, NatToString(Unsigned32(num)), meth, g)
  }

  /** An hour or minute: nothing for 0, "digits/0" and the number for 1..9, the number alone above 9. */
  function ClockOutcome(strip: string -> Option<string>, v: int, g: SayGender): (r: Emitted)
    requires StripYieldsDigits(strip)
    ensures r.status == Success <==> v == 0 || SayNumOutcome(strip, v, Pronounced, g).status == Success
    ensures v == 0 ==> r.files == []
    ensures r.status != Success ==> r.files == [] || r.files == ["digits/0"]
  {
    if v > 9 then SayNumOutcome(strip, v, Pronounced, g)
    else if v != 0 then Emit(["digits/0"]).Then(SayNumOutcome(strip, v, Pronounced, g))
    else Emit([])
  }

  function EmitIf(b: bool, e: Emitted): Emitted {
    if b then e else Emit([])
  }

  /** Files said without fail, then a part said only when its flag is set. */
  lemma ThenEmitIf(first: seq<string>, b: bool, e: Emitted)
    ensures Emit(first).Then(EmitIf(b, e)) == if b then Emitted(first + e.files, e.status) else Emit(first)
  {
    assert first + [] == first;
  }

  /** The weekday, day of month, month and year, each when its flag is set. */
  function DateOutcome(strip: string -> Option<string>, d: DateFlags, g: SayGender, tm: TimeFields): Emitted
    requires StripYieldsDigits(strip)
  {
    DayPartOutcome(strip, d, g, tm).Then(YearPartOutcome(strip, d, g, tm))
  }

  function DayPartOutcome(strip: string -> Option<string>, d: DateFlags, g: SayGender, tm: TimeFields): Emitted
    requires StripYieldsDigits(strip)
  {
    EmitIf(d.dow, Emit(["time/day-" + IntToString(tm.wday)]))
      .Then(EmitIf(d.day, SayNumOutcome(strip, tm.mday, Counted, g)))
  }

  function YearPartOutcome(strip: string -> Option<string>, d: DateFlags, g: SayGender, tm: TimeFields): Emitted
    requires StripYieldsDigits(strip)
  {
    EmitIf(d.month, Emit(["time/mon-" + IntToString(tm.mon)]))
      .Then(EmitIf(d.year, SayNumOutcome(strip, tm.year + 1900, PronouncedYear, g)))
  }

  /** The hour and then the minute, when the time flag is set. */
  function ClockPartOutcome(strip: string -> Option<string>, d: DateFlags, g: SayGender, tm: TimeFields): Emitted
    requires StripYieldsDigits(strip)
  {
    EmitIf(d.time, ClockOutcome(strip, tm.hour, g)).Then(EmitIf(d.time, ClockOutcome(strip, tm.min, g)))
  }

  /** The relative-day word, said before a full date can switch it off. */
  function RelativeFiles(f: DateFlags): seq<string> {
    (if f.today then ["time/idag"] else []) + (if f.yesterday then ["time/igar"] else [])
  }

  /**
   * What `nb_say_time` appends and returns: the relative-day word, then
   * weekday, day of month, month, year, hour and minute, each when its
   * flag is set; a failing `say_num` ends it early with that status.
   */
  function TimeOutcome(strip: string -> Option<string>, t: SayType, g: SayGender, tm: TimeFields, now: TimeFields): Emitted
    requires StripYieldsDigits(strip)
  {
    SaidOutcome(strip, SelectFlags(t, tm, now), g, tm)
  }

  /**
   * The method a failing `say_num` leaves in the say arguments: that of the
   * first of the day, the year and the clock whose number fails.
   */
  function FailingMethod(strip: string -> Option<string>, d: DateFlags, g: SayGender, tm: TimeFields): SayMethod
    requires StripYieldsDigits(strip)
  {
    if DayPartOutcome(strip, d, g, tm).status != Success then Counted
    else if YearPartOutcome(strip, d, g, tm).status != Success then PronouncedYear
    else Pronounced
  }

  /** What is said for the flags the say type selected. */
  function SaidOutcome(strip: string -> Option<string>, f: DateFlags, g: SayGender, tm: TimeFields): Emitted
    requires StripYieldsDigits(strip)
  {
    var d := ApplyDate(f);
    Emit(RelativeFiles(f)).Then(DateOutcome(strip, d, g, tm)).Then(ClockPartOutcome(strip, d, g, tm))
  }

  // ---------------------------------------------------------------------
  // Properties of the field selection

  /**
   * Today and yesterday are never both chosen, never together with a full
   * date, and a full date always brings year, month, day and weekday.
   */
  lemma FlagsConsistent(t: SayType, tm: TimeFields, now: TimeFields)
    ensures var f := SelectFlags(t, tm, now);
      var d := ApplyDate(f);
      && !(f.today && f.yesterday)
      && !(f.date && (f.today || f.yesterday))
      && (d.date ==> d.year && d.month && d.day && d.dow && !d.today && !d.yesterday)
      && (d.today ==> f.today) && (d.yesterday ==> f.yesterday)
      && (t == ShortDateTime ==> d.time && (f.year || f.day ==> f.date || f.month))
  {
  }

  /**
   * A short date-time in the same year, classified by how many days before
   * now it is: 0 is today, 1 is yesterday, up to 5 days back (and any day
   * later than now) is the weekday alone, and 6 or more days back is
   * weekday, day and month without the year.
   */
  lemma ShortDateTimeByDistance(tm: TimeFields, now: TimeFields)
    requires tm.year == now.year
    ensures var d := ApplyDate(SelectFlags(ShortDateTime, tm, now));
      var back := now.yday - tm.yday;
      && d.time && !d.date && !d.year
      && (d.today <==> back == 0)
      && (d.yesterday <==> back == 1)
      && (d.dow && !d.day && !d.month <==> back <= 5 && back != 0 && back != 1)
      && (d.dow && d.day && d.month <==> back >= 6)
  {
  }

  /** A short date-time in another year is a full date and time. */
  lemma ShortDateTimeOtherYear(tm: TimeFields, now: TimeFields)
    requires tm.year != now.year
    ensures ApplyDate(SelectFlags(ShortDateTime, tm, now))
         == DateFlags(true, true, true, true, true, true, false, false)
  {
  }

  // ---------------------------------------------------------------------
  // Properties of what is said

  /**
   * The number helper this renderer relies on: a string of digits short
   * enough for its 128-byte buffer comes back unchanged.
   */
  ghost predicate StripKeepsDigits(strip: string -> Option<string>) {
    forall s :: AllDigits(s) && |s| < 128 ==> strip(s) == Some(s)
  }

  lemma Pow10Nine()
    ensures Pow10(9) == 1000000000 && Pow10(10) == 10000000000
  {
  }

  /**
   * `say_num` fails exactly when the number, taken as a 32-bit unsigned
   * value, has more than nine digits: a negative field therefore fails.
   */
  lemma SayNumStatus(strip: string -> Option<string>, num: int, meth: SayMethod, g: SayGender)
    requires StripYieldsDigits(strip) && StripKeepsDigits(strip)
    requires meth != Iterated
    ensures var s := NatToString(Unsigned32(num));
      && strip(s) == Some(s)
      && (SayNumOutcome(strip, num, meth, g).status == GenErr <==> Unsigned32(num) >= Pow10(9))
  {
    var u := Unsigned32(num);
    Pow10Nine();
    NatToStringLength(u, 10);
    NatToStringLength(u, 9);
  }

  /** A nonnegative field below 10^9 is said by `say_num` as itself. */
  lemma SayNumInRange(strip: string -> Option<string>, num: int, meth: SayMethod, g: SayGender)
    requires StripYieldsDigits(strip) && StripKeepsDigits(strip)
    requires meth != Iterated && 0 <= num < Pow10(9)
    ensures Unsigned32(num) == num
    ensures SayNumOutcome(strip, num, meth, g).status == Success
    ensures strip(NatToString(num)) == Some(NatToString(num))
  {
    Pow10Nine();
    SayNumStatus(strip, num, meth, g);
  }

  /** A pronounced field below 10^9 is heard as its own value. */
  lemma SayNumHeard(strip: string -> Option<string>, v: int, g: SayGender)
    requires StripYieldsDigits(strip) && StripKeepsDigits(strip)
    requires 0 <= v < Pow10(9)
    ensures var r := SayNumOutcome(strip, v, Pronounced, g);
      r.status == Success && Hear(r.files) == v
  {
    SayNumInRange(strip, v, Pronounced, g);
    var s := NatToString(v);
    PronouncedRoundTrip(strip, s, g);
    DecimalRoundTrip(v);
  }

  lemma ReadZeroFile()
    ensures ReadFrom(Tally(0, 0), ["digits/0"]) == Tally(0, 0)
  {
    WordOfFixedFiles();
    ReadOne(Tally(0, 0), "digits/0");
  }

  /** Hearing a leading "digits/0" adds nothing. */
  lemma HearLeadingZero(rest: seq<string>)
    ensures Hear(["digits/0"] + rest) == Hear(rest)
  {
    ReadZeroFile();
    ReadFromAppend(Tally(0, 0), ["digits/0"], rest);
  }

  /**
   * An hour or minute is heard as its own value: nothing at all for 0, a
   * leading "digits/0" before the number for 1 to 9, the number alone above.
   */
  lemma ClockHeard(strip: string -> Option<string>, v: int, g: SayGender)
    requires StripYieldsDigits(strip) && StripKeepsDigits(strip)
    requires 0 <= v < Pow10(9)
    ensures var r := ClockOutcome(strip, v, g);
      && r.status == Success
      && Hear(r.files) == v
      && (r.files == [] <==> v == 0)
      && (0 < v <= 9 ==> |r.files| >= 2 && r.files == ["digits/0"] + SayNumOutcome(strip, v, Pronounced, g).files)
      && (v > 9 ==> r == SayNumOutcome(strip, v, Pronounced, g))
  {
    if v != 0 {
      SayNumHeard(strip, v, g);
      var said := SayNumOutcome(strip, v, Pronounced, g);
      assert said.files != [];
      if v <= 9 {
        HearLeadingZero(said.files);
        assert ClockOutcome(strip, v, g) == Emitted(["digits/0"] + said.files, Success);
      } else {
        assert ClockOutcome(strip, v, g) == said;
      }
    }
  }

  /** Fields a calendar can produce: every `say_num` on them succeeds. */
  predicate FieldsInRange(tm: TimeFields) {
    1 <= tm.mday <= 31 && 1 <= tm.year + 1900 < 1000000000 && 0 <= tm.hour <= 23 && 0 <= tm.min <= 59
  }

  lemma DateSucceeds(strip: string -> Option<string>, d: DateFlags, g: SayGender, tm: TimeFields)
    requires StripYieldsDigits(strip) && StripKeepsDigits(strip)
    requires FieldsInRange(tm)
    ensures DateOutcome(strip, d, g, tm).status == Success
  {
    Pow10Nine();
    SayNumInRange(strip, tm.mday, Counted, g);
    SayNumInRange(strip, tm.year + 1900, PronouncedYear, g);
  }

  lemma ClockPartSucceeds(strip: string -> Option<string>, d: DateFlags, g: SayGender, tm: TimeFields)
    requires StripYieldsDigits(strip) && StripKeepsDigits(strip)
    requires FieldsInRange(tm)
    ensures ClockPartOutcome(strip, d, g, tm).status == Success
  {
    Pow10Nine();
    ClockHeard(strip, tm.hour, g);
    ClockHeard(strip, tm.min, g);
  }

  /** With calendar fields, every say type is said without error. */
  lemma TimeSucceeds(strip: string -> Option<string>, t: SayType, g: SayGender, tm: TimeFields, now: TimeFields)
    requires StripYieldsDigits(strip) && StripKeepsDigits(strip)
    requires FieldsInRange(tm)
    ensures TimeOutcome(strip, t, g, tm, now).status == Success
  {
    var d := ApplyDate(SelectFlags(t, tm, now));
    DateSucceeds(strip, d, g, tm);
    ClockPartSucceeds(strip, d, g, tm);
  }

  /** A year is said as one "time/" file named by its digits. */
  lemma YearIsOneFile(strip: string -> Option<string>, y: int, g: SayGender)
    requires StripYieldsDigits(strip) && StripKeepsDigits(strip)
    requires 1 <= y < 1000000000
    ensures SayNumOutcome(strip, y, PronouncedYear, g) == Emit(["time/" + NatToString(y)])
  {
    Pow10Nine();
    SayNumInRange(strip, y, PronouncedYear, g);
    var s := NatToString(y);
    NatToStringLength(y, 9);
    DecimalRoundTrip(y);
    assert ParsedValue(s) == y;
  }

  /** A day of the month is counted so that it is heard as itself. */
  lemma DayHeard(strip: string -> Option<string>, day: int, g: SayGender)
    requires StripYieldsDigits(strip) && StripKeepsDigits(strip)
    requires 1 <= day <= 99
    ensures var r := SayNumOutcome(strip, day, Counted, g);
      r.status == Success && Hear(r.files) == day
  {
    Pow10Nine();
    SayNumInRange(strip, day, Counted, g);
    var s := NatToString(day);
    DecimalRoundTrip(day);
    NatToStringLength(day, 9);
    CountedRoundTrip(strip, s, g);
    var p := Places(day);
    SlotsValueNine(p);
    assert p[2] == 0;
  }

  /**
   * A full date is said as weekday, counted day of month, month and the
   * year as one "time/" file, in that order, and no time; the day is heard
   * as itself.
   */
  lemma FullDateOrder(strip: string -> Option<string>, g: SayGender, tm: TimeFields, now: TimeFields)
    requires StripYieldsDigits(strip) && StripKeepsDigits(strip)
    requires FieldsInRange(tm)
    ensures var day := SayNumOutcome(strip, tm.mday, Counted, g).files;
      && Hear(day) == tm.mday
      && TimeOutcome(strip, CurrentDate, g, tm, now)
         == Emitted(["time/day-" + IntToString(tm.wday)] + day + ["time/mon-" + IntToString(tm.mon)]
                    + ["time/" + NatToString(tm.year + 1900)], Success)
  {
    DayHeard(strip, tm.mday, g);
    var f := SelectFlags(CurrentDate, tm, now);
    var d := ApplyDate(f);
    assert RelativeFiles(f) == [];
    assert d == DateFlags(true, false, true, true, true, true, false, false);
    DateOnlySaid(strip, f, g, tm);
    FullDateParts(strip, d, g, tm);
  }

  /** With no relative day and no time, what is said is the date part alone. */
  lemma DateOnlySaid(strip: string -> Option<string>, f: DateFlags, g: SayGender, tm: TimeFields)
    requires StripYieldsDigits(strip)
    requires RelativeFiles(f) == [] && !f.time
    ensures SaidOutcome(strip, f, g, tm) == DateOutcome(strip, ApplyDate(f), g, tm)
  {
    var d := ApplyDate(f);
    var date := DateOutcome(strip, d, g, tm);
    assert ClockPartOutcome(strip, d, g, tm) == Emit([]);
    assert [] + date.files == date.files && date.files + [] == date.files;
  }

  lemma FullDateParts(strip: string -> Option<string>, d: DateFlags, g: SayGender, tm: TimeFields)
    requires StripYieldsDigits(strip) && StripKeepsDigits(strip)
    requires FieldsInRange(tm) && d.dow && d.day && d.month && d.year
    ensures DateOutcome(strip, d, g, tm)
         == Emitted(["time/day-" + IntToString(tm.wday)] + SayNumOutcome(strip, tm.mday, Counted, g).files
                    + ["time/mon-" + IntToString(tm.mon)] + ["time/" + NatToString(tm.year + 1900)], Success)
  {
    DayHeard(strip, tm.mday, g);
    YearIsOneFile(strip, tm.year + 1900, g);
    var dow, mon := ["time/day-" + IntToString(tm.wday)], ["time/mon-" + IntToString(tm.mon)];
    var day := SayNumOutcome(strip, tm.mday, Counted, g).files;
    var year := ["time/" + NatToString(tm.year + 1900)];
    assert DayPartOutcome(strip, d, g, tm) == Emit(dow + day);
    assert YearPartOutcome(strip, d, g, tm) == Emit(mon + year);
    AppendAssoc(dow + day, mon, year);
  }

  /** A short date-time of today is "time/idag" followed by the hour and minute. */
  lemma TodayIsClockOnly(strip: string -> Option<string>, g: SayGender, tm: TimeFields, now: TimeFields)
    requires StripYieldsDigits(strip) && StripKeepsDigits(strip)
    requires FieldsInRange(tm) && tm.year == now.year && tm.yday == now.yday
    ensures var r := TimeOutcome(strip, ShortDateTime, g, tm, now);
      var hour := ClockOutcome(strip, tm.hour, g).files;
      && r == Emitted(["time/idag"] + hour + ClockOutcome(strip, tm.min, g).files, Success)
      && Hear(hour) == tm.hour
  {
    var f := SelectFlags(ShortDateTime, tm, now);
    assert f == NoFlags.(time := true, today := true);
    SaidToday(strip, f, g, tm);
  }

  lemma SaidToday(strip: string -> Option<string>, f: DateFlags, g: SayGender, tm: TimeFields)
    requires StripYieldsDigits(strip) && StripKeepsDigits(strip)
    requires FieldsInRange(tm) && f == NoFlags.(time := true, today := true)
    ensures var hour := ClockOutcome(strip, tm.hour, g).files;
      && SaidOutcome(strip, f, g, tm) == Emitted(["time/idag"] + hour + ClockOutcome(strip, tm.min, g).files, Success)
      && Hear(hour) == tm.hour
  {
    assert ApplyDate(f) == f && RelativeFiles(f) == ["time/idag"];
    assert DayPartOutcome(strip, f, g, tm) == Emit([]);
    assert YearPartOutcome(strip, f, g, tm) == Emit([]);
    assert DateOutcome(strip, f, g, tm) == Emit([]);
    ClockPartBoth(strip, f, g, tm);
    var h, m := ClockOutcome(strip, tm.hour, g).files, ClockOutcome(strip, tm.min, g).files;
    assert ["time/idag"] + [] == ["time/idag"];
    AppendAssoc(["time/idag"], h, m);
  }

  /** With the time flag, the hour's files come before the minute's. */
  lemma ClockPartBoth(strip: string -> Option<string>, d: DateFlags, g: SayGender, tm: TimeFields)
    requires StripYieldsDigits(strip) && StripKeepsDigits(strip)
    requires FieldsInRange(tm) && d.time
    ensures var h := ClockOutcome(strip, tm.hour, g).files;
      && ClockPartOutcome(strip, d, g, tm) == Emit(h + ClockOutcome(strip, tm.min, g).files)
      && Hear(h) == tm.hour
  {
    Pow10Nine();
    ClockHeard(strip, tm.hour, g);
    ClockHeard(strip, tm.min, g);
  }

  // ---------------------------------------------------------------------
  // The renderer on the handle

  /**
   * The `say_num` macro: say `num` as a count under method `meth`, with
   * the say type and method switched to items and `meth` for the call and
   * switched back afterwards. A failure returns at once, leaving them
   * switched.
   */
  method SayNum(sh: SayFileHandle, num: int, meth: SayMethod, args: SayArgs, strip: string -> Option<string>)
    returns (status: Status)
    requires StripYieldsDigits(strip)
    modifies sh, args
    ensures var r := SayNumOutcome(strip, num, meth, old(args.gender));
      sh.files == old(sh.files) + r.files && status == r.status
    ensures args.gender == old(args.gender)
    ensures status == Success ==> args.sayType == old(args.sayType) && args.sayMethod == old(args.sayMethod)
    ensures status != Success ==> args.sayType == Items && args.sayMethod == meth
  {
    var smeth, stype := args.sayMethod, args.sayType;
    args.sayType := Items;
    args.sayMethod := meth;
    var tmp := NatToString(Unsigned32(num));
    status := SayGeneralCount(sh, tmp, args, strip);
    if status != Success {
      return;
    }
    args.sayMethod := smeth;
    args.sayType := stype;
  }

  /** An hour or a minute. */
  method SayClock(sh: SayFileHandle, v: int, args: SayArgs, strip: string -> Option<string>)
    returns (status: Status)
    requires StripYieldsDigits(strip)
    modifies sh, args
    ensures var r := ClockOutcome(strip, v, old(args.gender));
      sh.files == old(sh.files) + r.files && status == r.status
    ensures args.gender == old(args.gender)
    ensures status == Success ==> args.sayType == old(args.sayType) && args.sayMethod == old(args.sayMethod)
    ensures status != Success ==> args.sayType == Items && args.sayMethod == Pronounced
  {
    ghost var said := SayNumOutcome(strip, v, Pronounced, args.gender);
    if v > 9 {
      status := SayNum(sh, v, Pronounced, args, strip);
    } else if v != 0 {
      ghost var before := sh.files;
      sh.SayFile("digits/0");
      status := SayNum(sh, v, Pronounced, args, strip);
      AppendAssoc(before, ["digits/0"], said.files);
    } else {
      status := Success;
    }
  }

  /** Weekday, day of month, month and year, as the flags ask. */
  method SayDate(sh: SayFileHandle, d: DateFlags, tm: TimeFields, args: SayArgs, strip: string -> Option<string>)
    returns (status: Status)
    requires StripYieldsDigits(strip)
    modifies sh, args
    ensures var r := DateOutcome(strip, d, old(args.gender), tm);
      sh.files == old(sh.files) + r.files && status == r.status
    ensures args.gender == old(args.gender)
    ensures status == Success ==> args.sayType == old(args.sayType) && args.sayMethod == old(args.sayMethod)
    ensures status != Success ==> args.sayType == Items && args.sayMethod == FailingMethod(strip, d, old(args.gender), tm)
  {
    ghost var days := DayPartOutcome(strip, d, args.gender, tm);
    ghost var years := YearPartOutcome(strip, d, args.gender, tm);
    status := SayDayPart(sh, d, tm, args, strip);
    if status != Success {
      return;
    }
    status := SayYearPart(sh, d, tm, args, strip);
    AppendAssoc(old(sh.files), days.files, years.files);
  }

  lemma DayPartShape(strip: string -> Option<string>, d: DateFlags, g: SayGender, tm: TimeFields)
    requires StripYieldsDigits(strip)
    ensures var said := SayNumOutcome(strip, tm.mday, Counted, g);
      var dow := if d.dow then ["time/day-" + IntToString(tm.wday)] else [];
      DayPartOutcome(strip, d, g, tm) == if d.day then Emitted(dow + said.files, said.status) else Emit(dow)
  {
    var dow := if d.dow then ["time/day-" + IntToString(tm.wday)] else [];
    assert EmitIf(d.dow, Emit(["time/day-" + IntToString(tm.wday)])) == Emit(dow);
    ThenEmitIf(dow, d.day, SayNumOutcome(strip, tm.mday, Counted, g));
  }

  method SayDayPart(sh: SayFileHandle, d: DateFlags, tm: TimeFields, args: SayArgs, strip: string -> Option<string>)
    returns (status: Status)
    requires StripYieldsDigits(strip)
    modifies sh, args
    ensures var r := DayPartOutcome(strip, d, old(args.gender), tm);
      sh.files == old(sh.files) + r.files && status == r.status
    ensures args.gender == old(args.gender)
    ensures status == Success ==> args.sayType == old(args.sayType) && args.sayMethod == old(args.sayMethod)
    ensures status != Success ==> args.sayType == Items && args.sayMethod == Counted
  {
    ghost var said := SayNumOutcome(strip, tm.mday, Counted, args.gender);
    DayPartShape(strip, d, args.gender, tm);
    ghost var dow := if d.dow then ["time/day-" + IntToString(tm.wday)] else [];
    if d.dow {
      sh.SayFile("time/day-" + IntToString(tm.wday));
    }
    status := Success;
    if d.day {
      ghost var mid := sh.files;
      assert mid == old(sh.files) + dow;
      status := SayNum(sh, tm.mday, Counted, args, strip);
      assert sh.files == mid + said.files;
      AppendAssoc(old(sh.files), dow, said.files);

    } else {
      assert dow + [] == dow;
    }
  }

  lemma YearPartShape(strip: string -> Option<string>, d: DateFlags, g: SayGender, tm: TimeFields)
    requires StripYieldsDigits(strip)
    ensures var said := SayNumOutcome(strip, tm.year + 1900, PronouncedYear, g);
      var month := if d.month then ["time/mon-" + IntToString(tm.mon)] else [];
      YearPartOutcome(strip, d, g, tm) == if d.year then Emitted(month + said.files, said.status) else Emit(month)
  {
    var month := if d.month then ["time/mon-" + IntToString(tm.mon)] else [];
    assert EmitIf(d.month, Emit(["time/mon-" + IntToString(tm.mon)])) == Emit(month);
    ThenEmitIf(month, d.year, SayNumOutcome(strip, tm.year + 1900, PronouncedYear, g));
  }

  method SayYearPart(sh: SayFileHandle, d: DateFlags, tm: TimeFields, args: SayArgs, strip: string -> Option<string>)
    returns (status: Status)
    requires StripYieldsDigits(strip)
    modifies sh, args
    ensures var r := YearPartOutcome(strip, d, old(args.gender), tm);
      sh.files == old(sh.files) + r.files && status == r.status
    ensures args.gender == old(args.gender)
    ensures status == Success ==> args.sayType == old(args.sayType) && args.sayMethod == old(args.sayMethod)
    ensures status != Success ==> args.sayType == Items && args.sayMethod == PronouncedYear
  {
    ghost var said := SayNumOutcome(strip, tm.year + 1900, PronouncedYear, args.gender);
    YearPartShape(strip, d, args.gender, tm);
    ghost var month := if d.month then ["time/mon-" + IntToString(tm.mon)] else [];
    if d.month {
      sh.SayFile("time/mon-" + IntToString(tm.mon));
    }
    status := Success;
    if d.year {
      ghost var mid := sh.files;
      assert mid == old(sh.files) + month;
      status := SayNum(sh, tm.year + 1900, PronouncedYear, args, strip);
      assert sh.files == mid + said.files;
      AppendAssoc(old(sh.files), month, said.files);

    } else {
      assert month + [] == month;
    }
  }

  /** Hour and then minute, when the time flag is set. */
  method SayClockPart(sh: SayFileHandle, d: DateFlags, tm: TimeFields, args: SayArgs, strip: string -> Option<string>)
    returns (status: Status)
    requires StripYieldsDigits(strip)
    modifies sh, args
    ensures var r := ClockPartOutcome(strip, d, old(args.gender), tm);
      sh.files == old(sh.files) + r.files && status == r.status
    ensures args.gender == old(args.gender)
    ensures status == Success ==> args.sayType == old(args.sayType) && args.sayMethod == old(args.sayMethod)
    ensures status != Success ==> args.sayType == Items && args.sayMethod == Pronounced
  {
    status := Success;
    if d.time {
      ghost var hour := ClockOutcome(strip, tm.hour, args.gender);
      ghost var minute := ClockOutcome(strip, tm.min, args.gender);
      status := SayClock(sh, tm.hour, args, strip);
      if status != Success {
        return;
      }
      status := SayClock(sh, tm.min, args, strip);
      AppendAssoc(old(sh.files), hour.files, minute.files);
    }
  }

  /**
   * `nb_say_time` once the target and current times are broken down:
   * choose the flags from the say type, say the relative day, let a full
   * date override the flags, then say the date and time parts.
   */
  method SayTime(sh: SayFileHandle, args: SayArgs, tm: TimeFields, now: TimeFields, strip: string -> Option<string>)
    returns (status: Status)
    requires StripYieldsDigits(strip)
    modifies sh, args
    ensures var r := TimeOutcome(strip, old(args.sayType), old(args.gender), tm, now);
      sh.files == old(sh.files) + r.files && status == r.status
    ensures args.gender == old(args.gender)
    ensures status == Success ==> args.sayType == old(args.sayType) && args.sayMethod == old(args.sayMethod)
    ensures status != Success ==>
      args.sayType == Items
      && args.sayMethod == FailingMethod(strip, ApplyDate(SelectFlags(old(args.sayType), tm, now)), old(args.gender), tm)
  {
    var flags := SelectFlags(args.sayType, tm, now);
    ghost var selected := flags;
    if flags.today {
      sh.SayFile("time/idag");
    }
    if flags.yesterday {
      sh.SayFile("time/igar");
    }
    assert sh.files == old(sh.files) + RelativeFiles(selected);
    if flags.date {
      flags := flags.(year := true, month := true, day := true, dow := true, today := false, yesterday := false);
    }
    assert flags == ApplyDate(selected);
    ghost var date := DateOutcome(strip, flags, args.gender, tm);
    ghost var clock := ClockPartOutcome(strip, flags, args.gender, tm);
    status := SayDate(sh, flags, tm, args, strip);
    AppendAssoc(old(sh.files), RelativeFiles(selected), date.files);
    if status != Success {
      return;
    }
    status := SayClockPart(sh, flags, tm, args, strip);
    AppendAssoc(old(sh.files), RelativeFiles(selected) + date.files, clock.files);
  }
}
