/**
 * The serial connection as the printer session sees it: a port that is open
 * or closed and the bytes written to it so far. Port names, baud rate, parity
 * and the failure to open a port are outside this model.
 */
module Transport {
  import opened Text

  class SerialPort {
    var isOpen: bool
    var written: seq<Byte>

    /** A port is open as soon as it is constructed. */
    constructor ()
      ensures isOpen && written == []
    {
      isOpen := true;
      written := [];
    }

    method Open()
      requires !isOpen
      modifies this
      ensures isOpen && written == old(written)
    {
      isOpen := true;
    }

    method Close()
      modifies this
      ensures !isOpen && written == old(written)
    {
      isOpen := false;
    }

    /** Writing needs an open port; the bytes go out in order. */
    method Write(data: seq<Byte>)
      requires isOpen
      modifies this
      ensures isOpen && written == old(written) + data
    {
      written := written + data;
    }
  }
}
