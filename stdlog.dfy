/**
 * The output side of Go's log package as both loggers use it: a
 * log.Logger created with an empty prefix and flags 0 over an io.Writer.
 */
module StdLog {

  /** The io.Writer every logger of a family writes to, seen as the
      sequence of writes it has received. Loggers hold it by reference,
      so a parent and the loggers derived from it share one. */
  class Sink {
    var writes: seq<string>

    constructor ()
      ensures writes == []
    {
      writes := [];
    }

    /** log.Logger.Print with flags 0 and no prefix: one write of the text,
        with a newline appended unless the text already ends in one. */
    method Print(s: string)
      modifies this
      ensures writes == old(writes) + [if s == [] || s[|s| - 1] != '\n' then s + "\n" else s]
    {
      var line := if s == [] || s[|s| - 1] != '\n' then s + "\n" else s;
      writes := writes + [line];
    }
  }
}
