/**
 * The enumerations the say engine works with, as the host runtime defines
 * them, and the small result types shared by every renderer.
 */
module SayTypes {

  datatype Option<T> = None | Some(value: T)

  /** The two statuses the renderers of this module return. */
  datatype Status = Success | GenErr

  /** How a number is to be read. */
  datatype SayMethod = NA | Pronounced | Iterated | Counted | PronouncedYear

  /** Grammatical gender; Norwegian distinguishes utrum ("en") from the rest ("ett"). */
  datatype SayGender = Masculine | Feminine | Neuter | Utrum

  /** What kind of thing is being said. */
  datatype SayType =
    | Number | Items | Persons | Messages | Currency | TimeMeasurement
    | CurrentDate | CurrentTime | CurrentDateTime
    | TelephoneNumber | TelephoneExtension | Url | IpAddress | EmailAddress
    | PostalAddress | AccountNumber | NameSpelled | NamePhonetic | ShortDateTime

  /**
   * What one renderer call leaves behind: the audio-file paths it appended to
   * the handle, in order, and the status it returned.
   */
  datatype Emitted = Emitted(files: seq<string>, status: Status) {

    /**
     * Sequencing of two renderer steps that return early on failure: once a
     * step has failed, nothing after it runs.
     */
    function Then(next: Emitted): Emitted {
      if status != Success then this else Emitted(files + next.files, next.status)
    }
  }

  /** A step that emits the given paths and cannot fail. */
  function Emit(files: seq<string>): Emitted {
    Emitted(files, Success)
  }

  /**
   * Regrouping appended paths. Proving this on plain sequences keeps the
   * renderers' proofs from comparing their long outputs element by element.
   */
  lemma AppendAssoc<T>(a: seq<T>, b: seq<T>, c: seq<T>)
    ensures a + b + c == a + (b + c)
  {
  }
}
