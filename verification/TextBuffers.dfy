/** The string buffer that all writers append to. */
module TextBuffers {

  class TextBuffer {
    var text: string

    constructor ()
      ensures text == ""
    {
      text := "";
    }

    method Push(s: string)
      modifies this
      ensures text == old(text) + s
    {
      text := text + s;
    }

    method Clear()
      modifies this
      ensures text == ""
    {
      text := "";
    }
  }
}
