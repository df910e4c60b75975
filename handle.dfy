/**
 * The mutable state the renderers share: the file handle they append audio
 * paths to, and the argument record whose method and type `say_num`
 * overwrites and restores.
 */
module SayHandle {
  import opened SayTypes

  /** The say file handle, seen as the ordered list of paths appended to it. */
  class SayFileHandle {
    var files: seq<string>

    constructor ()
      ensures files == []
    {
      files := [];
    }

    /** Appends one audio-file path to the handle. */
    method SayFile(path: string)
      modifies this
      ensures files == old(files) + [path]
    {
      files := files + [path];
    }
  }

  /** The say arguments: what is said, how, and in which gender. */
  class SayArgs {
    var sayType: SayType
    var sayMethod: SayMethod
    var gender: SayGender

    constructor (t: SayType, m: SayMethod, g: SayGender)
      ensures sayType == t && sayMethod == m && gender == g
    {
      sayType, sayMethod, gender := t, m, g;
    }
  }
}
