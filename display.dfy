/** The chat list of the window. The server, the client and the window all
    append to the same list through the `AddMessage` callback they are given,
    so the model shares one `Log` object between them. */
module Display {

  class Log {
    var lines: seq<string>

    constructor ()
      ensures lines == []
    {
      lines := [];
    }

    /** `AddMessage(line)`: one more line at the bottom of the chat list. */
    method Add(line: string)
      modifies this
      ensures lines == old(lines) + [line]
    {
      lines := lines + [line];
    }
  }
}
