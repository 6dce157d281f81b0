/**
 * The printer session object: its fields are updated in place by each call,
 * bytes go to its serial port, and debug lines go to its echo log. Every
 * method is proved to leave the fields and the port as the matching function
 * of `Session` says.
 */
module Printer {
  import opened Results
  import opened Text
  import Modes
  import opened Session
  import opened Transport

  class LinePrinter {
    const ser: SerialPort
    const width: int
    const preCutFeedCount: int

    var enableEcho: bool
    var indent: string
    var inSize: Option<string>
    var inJust: Option<string>
    var formats: seq<string>
    /** The lines printed to standard output when echo is on. */
    var echoed: seq<string>

    function Bookkeeping(): State
      reads this
    {
      State(enableEcho, indent, inSize, inJust, formats, echoed)
    }

    /** Set the fields, open the port, then reset the printer. */
    constructor (width: int := 42, preCutFeedCount: int := 6)
      ensures this.width == width && this.preCutFeedCount == preCutFeedCount
      ensures fresh(ser) && ser.isOpen
      ensures Bookkeeping() == Session.Reset(Fresh).state
      ensures ser.written == Session.Reset(Fresh).out
    {
      this.width := width;
      this.preCutFeedCount := preCutFeedCount;
      enableEcho := false;
      indent := "";
      inSize := None;
      inJust := None;
      formats := [];
      echoed := [];
      ser := new SerialPort();
      new;
      Reset();
    }

    /** The lazy reopen every operation starts with. */
    method ReopenIfClosed()
      modifies ser
      ensures ser.isOpen && ser.written == old(ser.written)
    {
      if !ser.isOpen {
        ser.Open();
      }
    }

    method EchoIf(text: string, tabs: int)
      modifies this
      ensures Bookkeeping() == Session.EchoIf(old(Bookkeeping()), text, tabs)
      decreases if tabs < 0 then 2 else 0
    {
      if enableEcho && tabs >= 0 {
        echoed := echoed + [indent + text];
      }
      ghost var start := Bookkeeping();
      if tabs < 0 {
        for i := tabs to 0
          invariant Bookkeeping() == DedentTimes(start, i - tabs)
        {
          DedentEcho();
        }
      } else if tabs > 0 {
        for i := 0 to tabs
          invariant Bookkeeping() == start.(indent := start.indent + Indentation(i))
        {
          IndentEcho();
          assert start.indent + Indentation(i) + Tab == start.indent + Indentation(i + 1);
        }
      }
      if enableEcho && tabs < 0 {
        echoed := echoed + [indent + text];
      }
    }

    method IndentEcho()
      modifies this
      ensures Bookkeeping() == old(Bookkeeping()).(indent := old(indent) + Tab)
    {
      indent := indent + Tab;
    }

    method DedentEcho()
      modifies this
      ensures Bookkeeping() == Session.Dedent(old(Bookkeeping()))
      decreases 1
    {
      if |indent| < |Tab| {
        EchoIf(Warning, 0);
      }
      indent := DropTab(indent);
    }

    method PushFormat(text: string)
      modifies this
      ensures Bookkeeping() == Session.Push(old(Bookkeeping()), text)
    {
      formats := formats + [text];
      EchoIf(OpenTag(text), 1);
    }

    method PopFormat(text: string)
      modifies this
      ensures Bookkeeping() == Session.Pop(old(Bookkeeping()), text)
    {
      if text in formats {
        var i := IndexOf(formats, text);
        if formats[|formats| - 1] == text {
          formats := formats[..|formats| - 1];
          EchoIf(CloseTag(text), -1);
        } else {
          EchoIf(CloseTag(text), -1);
          formats := formats[..i] + formats[i + 1..];
          EchoIf(StillFormattedNote(formats, i), 0);
        }
      } else {
        EchoIf(AlreadyNote(text), 0);
      }
    }

    method Close()
      modifies ser
      ensures !ser.isOpen && ser.written == old(ser.written)
    {
      if ser.isOpen {
        ser.Close();
      }
    }

    method Cut()
      modifies this, ser
      ensures ser.isOpen
      ensures Bookkeeping() == Session.Cut(old(Bookkeeping()), preCutFeedCount).state
      ensures ser.written == old(ser.written) + Session.Cut(old(Bookkeeping()), preCutFeedCount).out
    {
      EchoIf("<cut/>", 0);
      ReopenIfClosed();
      ghost var start := Bookkeeping();
      ghost var sent := ser.written;
      var i := 0;
      while i < preCutFeedCount
        invariant 0 <= i && (i <= preCutFeedCount || i == 0)
        invariant ser.isOpen
        invariant Bookkeeping() == Feeds(start, i).state
        invariant ser.written == sent + Feeds(start, i).out
      {
        LineFeed();
        i := i + 1;
      }
      ser.Write(CutSignal);
    }

    method End()
      modifies this, ser
      ensures !ser.isOpen
      ensures Bookkeeping() == Session.End(old(Bookkeeping()), preCutFeedCount).state
      ensures ser.written == old(ser.written) + Session.End(old(Bookkeeping()), preCutFeedCount).out
    {
      indent := "";
      Cut();
      Close();
    }

    method Reset()
      modifies this, ser
      ensures ser.isOpen
      ensures Bookkeeping() == Session.Reset(old(Bookkeeping())).state
      ensures ser.written == old(ser.written) + Session.Reset(old(Bookkeeping())).out
    {
      indent := "";
      ReopenIfClosed();
      ser.Write(ResetSignal);
    }

    method LineFeed()
      modifies this, ser
      ensures ser.isOpen
      ensures Bookkeeping() == Session.LineFeed(old(Bookkeeping())).state
      ensures ser.written == old(ser.written) + Session.LineFeed(old(Bookkeeping())).out
    {
      ReopenIfClosed();
      EchoIf("", 0);
      ser.Write(LineFeedSignal);
    }

    method WriteLine(text: string)
      modifies this, ser
      ensures ser.isOpen
      ensures Bookkeeping() == Session.WriteLine(old(Bookkeeping()), text).state
      ensures ser.written == old(ser.written) + Session.WriteLine(old(Bookkeeping()), text).out
    {
      ReopenIfClosed();
      EchoIf(text, 0);
      ser.Write(Encode(text));
      LineFeed();
    }

    method WriteCentered(text: string)
      modifies this, ser
      ensures ser.isOpen
      ensures Bookkeeping() == Session.WriteCentered(old(Bookkeeping()), text, width).state
      ensures ser.written == old(ser.written) + Session.WriteCentered(old(Bookkeeping()), text, width).out
    {
      ReopenIfClosed();
      EchoIf("<center>" + text + "</center>", 0);
      ser.Write(Encode(Centered(text, width)));
      ser.Write(Encode("\n"));
    }

    method WriteLines(lines: seq<string>)
      modifies this, ser
      ensures ser.isOpen == (lines != [] || old(ser.isOpen))
      ensures Bookkeeping() == Session.WriteLines(old(Bookkeeping()), lines).state
      ensures ser.written == old(ser.written) + Session.WriteLines(old(Bookkeeping()), lines).out
    {
      ghost var start := Bookkeeping();
      ghost var sent := ser.written;
      for k := 0 to |lines|
        invariant ser.isOpen == (k > 0 || old(ser.isOpen))
        invariant Bookkeeping() == Session.WriteLines(start, lines[..k]).state
        invariant ser.written == sent + Session.WriteLines(start, lines[..k]).out
      {
        ghost var done := Session.WriteLines(start, lines[..k]);
        ghost var next := Session.WriteLine(done.state, lines[k]);
        assert lines[..k + 1][..k] == lines[..k] && lines[..k + 1][k] == lines[k];
        assert Session.WriteLines(start, lines[..k + 1]) == Effect(next.state, done.out + next.out);
        WriteLine(lines[k]);
      }
      assert lines[..|lines|] == lines;
    }

    /** The one-slot protocol shared by `SetSize` and `Justify` is written out in each, as in the Python methods `setSize` and `_justify`. */
    method SetSize(sizeCode: int) returns (outcome: Outcome<Error>)
      modifies this, ser
      ensures ser.isOpen
      ensures match Session.SetSize(old(Bookkeeping()), sizeCode)
        case Success(e) =>
          outcome == Pass && Bookkeeping() == e.state && ser.written == old(ser.written) + e.out
        case Failure(err) =>
          outcome == Fail(err) && Bookkeeping() == old(Bookkeeping()) && ser.written == old(ser.written)
    {
      ReopenIfClosed();
      var mode := Modes.FindMode(Modes.SizeModes, sizeCode);
      if mode.None? {
        return Fail(UnknownModeCode(sizeCode));
      }
      if inSize.Some? {
        EchoIf(CloseTag(inSize.value), -1);
        inSize := None;
      }
      if sizeCode != 0 {
        inSize := Some(mode.value.name);
        EchoIf(OpenTag(inSize.value), 1);
      }
      ser.Write(mode.value.signal);
      outcome := Pass;
    }

    method Justify(justifyCode: int) returns (outcome: Outcome<Error>)
      modifies this, ser
      ensures ser.isOpen
      ensures match Session.Justify(old(Bookkeeping()), justifyCode)
        case Success(e) =>
          outcome == Pass && Bookkeeping() == e.state && ser.written == old(ser.written) + e.out
        case Failure(err) =>
          outcome == Fail(err) && Bookkeeping() == old(Bookkeeping()) && ser.written == old(ser.written)
    {
      ReopenIfClosed();
      var mode := Modes.FindMode(Modes.JustifyModes, justifyCode);
      if mode.None? {
        return Fail(UnknownModeCode(justifyCode));
      }
      if inJust.Some? {
        EchoIf(CloseTag(inJust.value), -1);
        inJust := None;
      }
      if justifyCode != 0 {
        inJust := Some(mode.value.name);
        EchoIf(OpenTag(inJust.value), 1);
      }
      ser.Write(mode.value.signal);
      outcome := Pass;
    }

    method JustifyLeft()
      modifies this, ser
      ensures ser.isOpen
      ensures Session.Justify(old(Bookkeeping()), Modes.JustifyLeft).Success?
      ensures Bookkeeping() == Session.Justify(old(Bookkeeping()), Modes.JustifyLeft).value.state
      ensures ser.written == old(ser.written) + Session.Justify(old(Bookkeeping()), Modes.JustifyLeft).value.out
    {
      Modes.LookupUnique(Modes.JustifyModes, 0);
      var _ := Justify(Modes.JustifyLeft);
    }

    /** Asks for code 1, which is the centre entry of the table. */
    method JustifyRight()
      modifies this, ser
      ensures ser.isOpen
      ensures Session.Justify(old(Bookkeeping()), Modes.JustifyCenter).Success?
      ensures Bookkeeping() == Session.Justify(old(Bookkeeping()), Modes.JustifyCenter).value.state
      ensures ser.written == old(ser.written) + Session.Justify(old(Bookkeeping()), Modes.JustifyCenter).value.out
    {
      Modes.LookupUnique(Modes.JustifyModes, 1);
      var _ := Justify(1);
    }

    /** Asks for code 2, which is the right entry of the table. */
    method JustifyCenter()
      modifies this, ser
      ensures ser.isOpen
      ensures Session.Justify(old(Bookkeeping()), Modes.JustifyRight).Success?
      ensures Bookkeeping() == Session.Justify(old(Bookkeeping()), Modes.JustifyRight).value.state
      ensures ser.written == old(ser.written) + Session.Justify(old(Bookkeeping()), Modes.JustifyRight).value.out
    {
      Modes.LookupUnique(Modes.JustifyModes, 2);
      var _ := Justify(2);
    }

    method Flip(on: ToggleArg) returns (outcome: Outcome<Error>)
      modifies this, ser
      ensures ser.isOpen
      ensures match Session.Flip(old(Bookkeeping()), on)
        case Success(e) =>
          outcome == Pass && Bookkeeping() == e.state && ser.written == old(ser.written) + e.out
        case Failure(err) =>
          outcome == Fail(err) && Bookkeeping() == old(Bookkeeping()) && ser.written == old(ser.written)
    {
      var flag := Normalize(on);
      ReopenIfClosed();
      if flag == Some(false) {
        PopFormat(FlipName);
        ser.Write(FlipOffSignal);
      } else if flag == Some(true) {
        PushFormat(FlipName);
        ser.Write(FlipOnSignal);
      } else {
        return Fail(InvalidArgument(on));
      }
      outcome := Pass;
    }

    method RotateClockwise(on: ToggleArg) returns (outcome: Outcome<Error>)
      modifies this, ser
      ensures ser.isOpen
      ensures match Session.RotateClockwise(old(Bookkeeping()), on)
        case Success(e) =>
          outcome == Pass && Bookkeeping() == e.state && ser.written == old(ser.written) + e.out
        case Failure(err) =>
          outcome == Fail(err) && Bookkeeping() == old(Bookkeeping()) && ser.written == old(ser.written)
    {
      var flag := Normalize(on);
      ReopenIfClosed();
      if flag == Some(false) {
        PopFormat(RotateName);
        ser.Write(RotateOffSignal);
      } else if flag == Some(true) {
        PushFormat(RotateName);
        ser.Write(RotateOnSignal);
      } else {
        return Fail(InvalidArgument(on));
      }
      outcome := Pass;
    }
  }
}
