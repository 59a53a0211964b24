/** The caller-owned `String` that every `from_*_mut` function appends to. */
module Buffers {

  class Buffer {
    var text: seq<char>

    /** `String::new()` */
    constructor ()
      ensures text == []
    {
      text := [];
    }

    /** `String::push_str`: appends and never touches what is already there. */
    method PushStr(s: seq<char>)
      modifies this
      ensures text == old(text) + s
    {
      text := text + s;
    }
  }
}
