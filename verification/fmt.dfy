/**
 * The part of `std::fmt::Formatter` the `Display` implementations use: a
 * sink that `write!` appends text to.
 */
module Fmt {

  class Formatter {
    /** Everything written to the formatter so far. */
    var written: string

    constructor ()
      ensures written == []
    {
      written := [];
    }

    /** `write!(f, "{}", s)`: appends `s`. */
    method WriteStr(s: string)
      modifies this
      ensures written == old(written) + s
    {
      written := written + s;
    }
  }
}
