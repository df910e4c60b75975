/**
 * `choose_callback`: which renderer a say type is handed to.
 */
module Dispatch {
  import opened SayTypes
  import opened Count
  import opened DateTime
  import opened Spell

  /** A fixed time, for stating what the flags of a say type are at all. */
  const Midnight := TimeFields(0, 0, 0, 1, 0, 0, 0)

  /** The three renderers of the module. */
  datatype Renderer = GeneralCountRenderer | TimeRenderer | SpellRenderer

  /** The renderer for a say type; None for the types the module cannot say. */
  function ChooseCallback(t: SayType): (r: Option<Renderer>)
    ensures r == Some(SpellRenderer) <==> SpellsAll(t)
    ensures r == Some(TimeRenderer) <==> SelectFlags(t, Midnight, Midnight).date || SelectFlags(t, Midnight, Midnight).time
    ensures t == Items ==> r == Some(GeneralCountRenderer)
  {
    match t
    case Number | Items | Messages => Some(GeneralCountRenderer)
    case CurrentDate | CurrentTime | CurrentDateTime | ShortDateTime => Some(TimeRenderer)
    case NameSpelled | NamePhonetic => Some(SpellRenderer)
    case _ => None
  }

  /**
   * The counting renderer is chosen for numbers, items and messages; items
   * is the type `say_num` switches to, so the numbers inside a date or a
   * time are said by the counting renderer.
   */
  lemma CountRouting(t: SayType)
    ensures ChooseCallback(t) == Some(GeneralCountRenderer) <==> t in {Number, Items, Messages}
    ensures ChooseCallback(Items) == Some(GeneralCountRenderer)
  {
  }

  /**
   * The time renderer is chosen exactly for the types that make it say a
   * date or a clock time, whatever the time being said.
   */
  lemma TimeRouting(t: SayType, tm: TimeFields, now: TimeFields)
    ensures ChooseCallback(t) == Some(TimeRenderer) <==> (SelectFlags(t, tm, now).date || SelectFlags(t, tm, now).time)
  {
  }

  /** Any other type given to the time renderer would say nothing. */
  lemma TimeSilentOtherwise(strip: string -> Option<string>, t: SayType, g: SayGender, tm: TimeFields, now: TimeFields)
    requires StripYieldsDigits(strip)
    requires ChooseCallback(t) != Some(TimeRenderer)
    ensures TimeOutcome(strip, t, g, tm, now) == Emitted([], Success)
  {
    assert SelectFlags(t, tm, now) == NoFlags;
    assert ApplyDate(NoFlags) == NoFlags;
    assert RelativeFiles(NoFlags) == [];
    assert DayPartOutcome(strip, NoFlags, g, tm) == Emit([]);
    assert YearPartOutcome(strip, NoFlags, g, tm) == Emit([]);
    assert DateOutcome(strip, NoFlags, g, tm) == Emit([]);
    assert ClockPartOutcome(strip, NoFlags, g, tm) == Emit([]);
  }

  /**
   * The speller is chosen exactly for the types under which it says a
   * letter; under any other type it would say only the digits.
   */
  lemma SpellRouting(t: SayType)
    ensures ChooseCallback(t) == Some(SpellRenderer) <==> SpellFiles(t, "a") != []
  {
    assert "a"[..0] == [];
    assert SpellFiles(t, "a") == SpellFile(t, 'a');
  }

  /** The module says nothing for the types with no renderer. */
  lemma UnknownTypes(t: SayType)
    ensures ChooseCallback(t).None? <==>
      t in {Persons, Currency, TimeMeasurement, TelephoneNumber, TelephoneExtension,
            Url, IpAddress, EmailAddress, PostalAddress, AccountNumber}
  {
  }
}
