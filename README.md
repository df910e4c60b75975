# mod_say_nb in Dafny

A verified model of the Norwegian Bokmål say engine of FreeSWITCH
(`src/mod/say/mod_say_nb/mod_say_nb.c`). The engine turns a number, a date or
time, or a text into the ordered list of audio-file paths ("digits/n-1",
"digits/1000", "time/idag", ...) that the say file handle collects. The
model covers the following parts of the engine:

- the `say_num` macro;
- the three-digit group renderer `play_group`;
- the number renderer `nb_say_general_count`;
- the flag selection and emission of `nb_say_time`;
- the speller `say_spell`;
- the dispatcher `choose_callback`.

## Layout

| file | module | what it holds |
|---|---|---|
| `say_types.dfy` | `SayTypes` | say types, methods, genders and statuses; `Emitted`, which pairs what a renderer appends with the status it returns (`Then` stops at the first failure, like the early `return` in the source) |
| `handle.dfy` | `SayHandle` | the file handle as a class whose `files` sequence only grows; the say arguments as a class, which `say_num` updates in place |
| `decimal.dfy` | `Decimal` | `%u`/`%d` formatting, `atoi` on digit strings, exact powers of ten |
| `places.dfy` | `PlaceValue` | the nine place-value slots, and the in-place loop that fills them |
| `group.dfy` | `Group` | `play_group`: the files for each part of a group, and the imperative renderer proved against them |
| `reading.dfy` | `Reading` | a listener that adds up the value a list of "digits/" files names; it is the independent reference the number renderer is checked against |
| `count.dfy` | `Count` | `nb_say_general_count`, as a specification function and as a method on the handle |
| `say_time.dfy` | `DateTime` | `say_num`, the flags of `nb_say_time`, what it says, and the method on the handle |
| `spell.dfy` | `Spell` | `say_spell` and a decoder for the files it emits; the text is the C string's bytes before its NUL, one character per byte (`IsByteText`) |
| `dispatch.dfy` | `Dispatch` | `choose_callback` |

Each renderer that writes to the handle is a method, proved against its own
specification function, which gives the files appended and the status
returned. The properties are lemmas about those functions.

The helper `switch_strip_commas` is external code. It is a parameter
`strip: string -> Option<string>`, and lemmas use two facts about it:
- `Count.StripYieldsDigits`: when it succeeds, it returns only digits. The number renderer needs this for `atoi`.
- `DateTime.StripKeepsDigits`: a short digit string comes back unchanged. This is what happens to the `%u` text that `say_num` passes it.

## Behaviour worth knowing

The model follows the code. In these places the code does something
surprising or disagrees with a plain description of the engine:

- **Millions marker.** The singular "digits/miljon" is chosen when `places[6] == 1` and at least one of `places[7]` and `places[8]` is zero (line 192). So the code says "miljon" after 11 and 101 million as well, not only after exactly one million. `Count.MillionMarkerNotJustOne` exhibits this.
- **Counted hundreds.** A counted hundreds digit `a` is said only for a bare 200 to 900 (lines 83-87). In every other counted group the digit is dropped, and only "digits/r-100" is said. So a counted 345 is heard as 145 (`Count.CountedRoundTrip`). For bare multiples of one hundred above 100, the digit is said and not omitted.
- **Short date-time.** The weekday-only branch (line 280) tests `yday >= now.yday - 5`. So a later day of the same year also takes it, not only the five days before now.
- **say_num.** `say_num` casts to `unsigned` before formatting. A negative field therefore becomes a ten-digit number, which the number renderer refuses. On failure the macro returns before it restores the say type and method.

## Model

| member | source | states |
|---|---|---|
| `Group.PlayGroup` | src/mod/say/mod_say_nb/mod_say_nb.c:68-146 | appends exactly the group's files: hundreds, then tens, then units, then marker |
| `Group.SayHundreds` | src/mod/say/mod_say_nb/mod_say_nb.c:81-96 | appends the hundreds part. Counted: the digit only for a bare [2-9]00, then "r-100". Pronounced: "n-1" or the digit, then "100" |
| `Group.SayTens` | src/mod/say/mod_say_nb/mod_say_nb.c:98-113 | appends the tens or teen word, counted where the source counts it; returns the units digit still to say, which is 0 after a teen |
| `Group.SayUnits` | src/mod/say/mod_say_nb/mod_say_nb.c:115-141 | appends the units word. For one, the choice is neuter before a marker, otherwise ordinal when counted, otherwise by gender |
| `Group.GroupShape` | src/mod/say/mod_say_nb/mod_say_nb.c:68-146 | a group says at most five files; an all-zero group says nothing; the marker comes last and only after a nonzero group; with no marker there are at most four files |
| `Reading.HearPlainGroup` | src/mod/say/mod_say_nb/mod_say_nb.c:68-146 | hearing an unmarked group gives 100a+10b+c, except that a counted group with a > 1 and tens or units loses (a-1)*100 |
| `Reading.HearMarkedGroup` | src/mod/say/mod_say_nb/mod_say_nb.c:143 | hearing a group with a thousand or million marker adds its value times the scale; a zero group adds nothing |
| `Reading.HearDigitParts` | src/mod/say/mod_say_nb/mod_say_nb.c:81-141 | hundreds, tens and units are heard together as the group's value |
| `Reading.HeardGroupParts` | src/mod/say/mod_say_nb/mod_say_nb.c:81-141 | a group is heard as zero exactly when all three digits are zero |
| `Decimal.NatToString` | src/mod/say/mod_say_nb/mod_say_nb.c:62 | `%u` gives one or more digits, with no leading zero except for 0 itself, which is "0" |
| `Decimal.IntToString` | src/mod/say/mod_say_nb/mod_say_nb.c:303-305 | `%d` begins with "-" exactly for a negative number, and the digits after it read back as the magnitude |
| `Decimal.DecimalValue` | src/mod/say/mod_say_nb/mod_say_nb.c:172 | `atoi` of k digits is below 10^k |
| `Decimal.DecimalRoundTrip` | src/mod/say/mod_say_nb/mod_say_nb.c:62 | `atoi` of the `%u` text of n is n |
| `Decimal.NatToStringLength` | src/mod/say/mod_say_nb/mod_say_nb.c:167 | the text of n has at most k digits exactly when n < 10^k |
| `Decimal.DecimalValueBound` | src/mod/say/mod_say_nb/mod_say_nb.c:172 | `atoi` of k digits is below 10^k |
| `Count.ParsedValue` | src/mod/say/mod_say_nb/mod_say_nb.c:167-172 | an accepted text of at most nine digits reads as its decimal value, below 10^9 |
| `PlaceValue.FillPlaces` | src/mod/say/mod_say_nb/mod_say_nb.c:178-182 | the nine slots the loop fills are digits, their place values sum to the number, and they are its unique decimal digits |
| `PlaceValue.Places` | src/mod/say/mod_say_nb/mod_say_nb.c:174-182 | nine digit slots whose place values sum to the number |
| `PlaceValue.DigitsRecombine` | src/mod/say/mod_say_nb/mod_say_nb.c:174-182 | the k lowest digits of a number below 10^k recombine to it |
| `PlaceValue.SlotsUnique` | src/mod/say/mod_say_nb/mod_say_nb.c:178-182 | digit slots of equal length and value are equal |
| `PlaceValue.FillStep` | src/mod/say/mod_say_nb/mod_say_nb.c:180-181 | each step of the loop puts a digit in slot x and keeps slots plus remainder equal to the number |
| `Count.GeneralCount` | src/mod/say/mod_say_nb/mod_say_nb.c:148-220 | the status is an error exactly when stripping fails, or when a method other than iterated gets more than nine digits; an error appends nothing |
| `Count.MillionMarker` | src/mod/say/mod_say_nb/mod_say_nb.c:192 | the marker is "miljon" or "miljoner". It is singular when places[6] is one and places[7] or places[8] is zero, including exactly one of them nonzero (11 or 101 million). It is plural when places[6] is not one, or both higher slots are nonzero |
| `Count.SayGeneralCount` | src/mod/say/mod_say_nb/mod_say_nb.c:148-220 | the method appends and returns what `GeneralCount` gives |
| `Count.SayIterated` | src/mod/say/mod_say_nb/mod_say_nb.c:156-165 | the iterated branch appends one digit file per stripped character, whatever the gender, or fails with nothing appended |
| `Count.CharFilesAt` | src/mod/say/mod_say_nb/mod_say_nb.c:159 | the iterated reading has one "digits/<ch>" per character, in order |
| `Count.ZeroIsOneFile` | src/mod/say/mod_say_nb/mod_say_nb.c:215-217 | zero is exactly one "digits/0", whatever the method (other than iterated) and the gender |
| `Count.YearAndOtherMethods` | src/mod/say/mod_say_nb/mod_say_nb.c:183-213 | a nonzero text read as a year is the single file "time/" + the stripped text, leading zeros kept; any other method without a case of its own says nothing and succeeds |
| `Count.CountedOrPronouncedFiles` | src/mod/say/mod_say_nb/mod_say_nb.c:172-217 | a counted or pronounced text is said as "digits/0" or as its three groups |
| `Count.MillionMarkerChoice` | src/mod/say/mod_say_nb/mod_say_nb.c:192-202 | a number contains "digits/miljon" exactly when it is at least a million and places[6] == 1 with places[8] or places[7] zero; it contains "digits/miljoner" exactly when it is at least a million and that test fails |
| `Count.MillionMarkerNotJustOne` | src/mod/say/mod_say_nb/mod_say_nb.c:192 | 11 000 000 and 101 000 000 get the singular marker; 111 000 000 gets the plural |
| `Count.HearNumber` | src/mod/say/mod_say_nb/mod_say_nb.c:184-211 | hearing the groups of a nonzero number gives the number back, less the dropped counted hundreds digit |
| `Count.PronouncedRoundTrip` | src/mod/say/mod_say_nb/mod_say_nb.c:148-220 | a pronounced text of at most nine digits succeeds and is heard as its value |
| `Count.CountedRoundTrip` | src/mod/say/mod_say_nb/mod_say_nb.c:148-220 | a counted text succeeds; it is heard as its value exactly when its last group is not a hundreds digit above one with tens or units |
| `Count.SayGroups` | src/mod/say/mod_say_nb/mod_say_nb.c:192-210 | appends the millions, thousands and units groups in that order |
| `Count.SayLowerGroups` | src/mod/say/mod_say_nb/mod_say_nb.c:203-210 | appends the thousands group, then the units group |
| `DateTime.SayNum` | src/mod/say/mod_say_nb/mod_say_nb.c:54-66 | says the number mod 2^32 as a count with type items and the given method. It keeps the gender, restores type and method on success, and leaves them switched on failure |
| `DateTime.Unsigned32` | src/mod/say/mod_say_nb/mod_say_nb.c:62 | `(unsigned)` gives a value below 2^32 that is congruent to the input modulo 2^32, and leaves a value already in range unchanged |
| `DateTime.SayNumStatus` | src/mod/say/mod_say_nb/mod_say_nb.c:62-63 | `say_num` fails exactly when the unsigned value has ten digits |
| `DateTime.SayNumInRange` | src/mod/say/mod_say_nb/mod_say_nb.c:62-63 | a value below 10^9 is formatted as itself and said without error |
| `DateTime.SayNumHeard` | src/mod/say/mod_say_nb/mod_say_nb.c:310 | a pronounced field below 10^9 is heard as its own value |
| `DateTime.FlagsConsistent` | src/mod/say/mod_say_nb/mod_say_nb.c:256-301 | today and yesterday exclude each other and a date. After the override, a date brings year, month, day and weekday and no relative day. A short date-time always says the time |
| `DateTime.SelectFlags` | src/mod/say/mod_say_nb/mod_say_nb.c:256-294 | at most one relative day and never with a date; the year only through the date override; a short date-time always says the time; a date or a time is asked for exactly by the four date and time types |
| `DateTime.ApplyDate` | src/mod/say/mod_say_nb/mod_say_nb.c:298-301 | a date turns on year, month, day and weekday and turns off both relative days; without a date nothing changes; date and time are kept |
| `DateTime.ShortDateTimeByDistance` | src/mod/say/mod_say_nb/mod_say_nb.c:266-291 | in the same year: 0 days back gives today, 1 gives yesterday, at most 5 (or later than now) gives the weekday only, and 6 or more gives weekday, day and month; no year |
| `DateTime.ShortDateTimeOtherYear` | src/mod/say/mod_say_nb/mod_say_nb.c:268-271 | another year gives the full date and the time, with no relative day |
| `DateTime.ClockHeard` | src/mod/say/mod_say_nb/mod_say_nb.c:309-320 | an hour or minute is heard as its value. 0 says nothing. 1 to 9 is "digits/0" followed by what `say_num` says. Above 9 it is what `say_num` says, alone |
| `DateTime.ClockOutcome` | src/mod/say/mod_say_nb/mod_say_nb.c:308-320 | it succeeds exactly when the value is 0 or its `say_num` succeeds; 0 says nothing; a failure leaves at most the leading "digits/0" |
| `DateTime.HearLeadingZero` | src/mod/say/mod_say_nb/mod_say_nb.c:312 | a leading "digits/0" adds nothing to what is heard |
| `DateTime.SayClock` | src/mod/say/mod_say_nb/mod_say_nb.c:309-314 | appends and returns what `ClockOutcome` gives. It keeps the gender and restores type and method on success; on failure they are left as items and pronounced |
| `DateTime.DateSucceeds` | src/mod/say/mod_say_nb/mod_say_nb.c:303-306 | the date part succeeds for calendar fields |
| `DateTime.ClockPartSucceeds` | src/mod/say/mod_say_nb/mod_say_nb.c:308-320 | the time part succeeds for calendar fields |
| `DateTime.TimeSucceeds` | src/mod/say/mod_say_nb/mod_say_nb.c:256-321 | with calendar fields, every say type is said without error |
| `DateTime.YearIsOneFile` | src/mod/say/mod_say_nb/mod_say_nb.c:306 | the year is the single file "time/<tm_year+1900>" |
| `DateTime.DayHeard` | src/mod/say/mod_say_nb/mod_say_nb.c:304 | the counted day of the month is heard as itself |
| `DateTime.FullDateOrder` | src/mod/say/mod_say_nb/mod_say_nb.c:298-306 | a current date is said as weekday, day, month and year, in that order, with no time |
| `DateTime.FullDateParts` | src/mod/say/mod_say_nb/mod_say_nb.c:303-306 | with all four date flags, the date part is weekday, day, month and year files |
| `DateTime.TodayIsClockOnly` | src/mod/say/mod_say_nb/mod_say_nb.c:272-275 | a short date-time of today is "time/idag", then the hour and the minute; no date |
| `DateTime.SaidToday` | src/mod/say/mod_say_nb/mod_say_nb.c:296-320 | with only today and time set, what is said is "time/idag" followed by the clock |
| `DateTime.ClockPartBoth` | src/mod/say/mod_say_nb/mod_say_nb.c:308-320 | with the time flag, the hour's files come before the minute's |
| `DateTime.DayPartShape` | src/mod/say/mod_say_nb/mod_say_nb.c:303-304 | the weekday file, if flagged, comes before the counted day |
| `DateTime.YearPartShape` | src/mod/say/mod_say_nb/mod_say_nb.c:305-306 | the month file, if flagged, comes before the year |
| `DateTime.SayDate` | src/mod/say/mod_say_nb/mod_say_nb.c:303-306 | appends weekday, day, month and year as flagged, stopping at a failing `say_num`. On failure the type is items and the method is that of the failing call: counted for the day, pronounced-year for the year |
| `DateTime.SayDayPart` | src/mod/say/mod_say_nb/mod_say_nb.c:303-304 | appends the weekday and counted day as flagged; on failure the type is items and the method counted |
| `DateTime.SayYearPart` | src/mod/say/mod_say_nb/mod_say_nb.c:305-306 | appends the month and year as flagged; on failure the type is items and the method pronounced-year |
| `DateTime.SayClockPart` | src/mod/say/mod_say_nb/mod_say_nb.c:308-320 | appends the hour, then the minute, when the time flag is set; on failure the type is items and the method pronounced |
| `DateTime.SayTime` | src/mod/say/mod_say_nb/mod_say_nb.c:256-321 | appends what `TimeOutcome` gives for the old say type: relative day, date override, date, time. It returns its status and restores the arguments on success. On failure the type is items and the method is that of the first failing `say_num` (counted, pronounced-year or pronounced) |
| `Spell.SaySpell` | src/mod/say/mod_say_nb/mod_say_nb.c:326-344 | appends the files of the text character by character, and always succeeds |
| `Spell.SpellFile` | src/mod/say/mod_say_nb/mod_say_nb.c:331-340 | a character gives one file under a spelling type, and otherwise one file for a digit and none for anything else; a digit gives "digits/<digit>" |
| `Spell.SpellRoundTrip` | src/mod/say/mod_say_nb/mod_say_nb.c:330-341 | decoding the spelled or phonetic files of a byte text gives back the text, lowercased |
| `Spell.DecodeSpellFile` | src/mod/say/mod_say_nb/mod_say_nb.c:331-340 | each byte gives one file, which decodes to the lowercased byte |
| `Spell.OneFilePerChar` | src/mod/say/mod_say_nb/mod_say_nb.c:330-341 | under a spelling type there is one file per character: digits give "digits/<ch>", others the file of their lowercased code |
| `Spell.OnlyDigitsOtherwise` | src/mod/say/mod_say_nb/mod_say_nb.c:333-340 | under any other type only the digits are said, in order |
| `Spell.SpellIgnoresCase` | src/mod/say/mod_say_nb/mod_say_nb.c:331 | lowercasing the text first changes nothing that is said |
| `Spell.LowerCaseIdempotent` | src/mod/say/mod_say_nb/mod_say_nb.c:331 | lowercasing twice is lowercasing once, and it keeps digits digits |
| `Spell.LowerStringAt` | src/mod/say/mod_say_nb/mod_say_nb.c:331 | the lowercased text keeps its length and lowercases each position |
| `Spell.LowerCase` | src/mod/say/mod_say_nb/mod_say_nb.c:331 | `tolower` in the C locale: the result is never an upper-case letter, and only A to Z change, each by 32 |
| `Spell.DigitsSpellLikeIterated` | src/mod/say/mod_say_nb/mod_say_nb.c:333-334 | an all-digit text is spelled exactly as the iterated count says it (line 159) |
| `Spell.SpelledExample` | src/mod/say/mod_say_nb/mod_say_nb.c:330-341 | "A1" spelled is "ascii/97", "digits/1" |
| `Dispatch.CountRouting` | src/mod/say/mod_say_nb/mod_say_nb.c:350-355 | number, items and messages go to the counting renderer, including the items type `say_num` uses |
| `Dispatch.ChooseCallback` | src/mod/say/mod_say_nb/mod_say_nb.c:346-372 | the speller is chosen exactly for the spelling types; the time renderer exactly for the types whose flags ask for a date or a time; items, which `say_num` uses, goes to the counting renderer |
| `Dispatch.TimeRouting` | src/mod/say/mod_say_nb/mod_say_nb.c:356-361 | the time renderer is chosen exactly for the types that make it say a date or a time |
| `Dispatch.TimeSilentOtherwise` | src/mod/say/mod_say_nb/mod_say_nb.c:292-294 | under any other type the time renderer would say nothing and succeed |
| `Dispatch.SpellRouting` | src/mod/say/mod_say_nb/mod_say_nb.c:362-365 | the speller is chosen exactly for the types under which it spells a letter |
| `Dispatch.UnknownTypes` | src/mod/say/mod_say_nb/mod_say_nb.c:366-372 | persons, currency, measurements, telephone numbers, addresses, URLs and account numbers get no renderer |

## Left out

- `switch_strip_commas` is not part of this model: neither its separator handling nor its 128-byte buffer and truncation. It is the parameter `strip`, with the two assumptions named above.
- Clock and timezone: resolving `tosay` with `atol`, the current time and the "timezone" variable into `tm` and `tm_now` (lines 222-254). The broken-down fields are inputs.
- Logging: the "Parse Error!" and "Unknown Say type" messages, and the timezone debug line.
- Module registration, `run_callback`, `nb_say` and `nb_say_string`.
- The say file handle's own storage and path formatting: the handle is the list of paths appended to it.
- Spell.LowerCase: `tolower((int)*p)` is modelled for the C locale on character codes. A platform where `char` is signed would pass a negative code for bytes from 128 upward and format it as "ascii/-<n>"; this model uses the unsigned code.
- Spell.SaySpell: the text is the bytes of the C string before its terminating NUL, one character per byte from 1 to 255 (`IsByteText`). A multi-byte UTF-8 character is therefore several characters here, one file per byte as in the source; a Dafny string holding NUL or a character above 255 stands for no C string and is excluded.
- PlaceValue.FillPlaces: `pow(10, x)` is exact here. The floating-point call in the source is exact for these powers.
- A C string ends at its first NUL byte; a model string is the text before it.
