/**
 * The bookkeeping of a printer session as values: the debug-echo flag, the
 * indentation prefix of the debug log, the active size and justification
 * modes, the stack of active toggle modes and the lines echoed so far.
 * Each operation of the session is a function from the state before it to the
 * state after it together with the bytes it sends to the printer; the class in
 * `Printer` is proved to behave as these functions say.
 */
module Session {
  import opened Results
  import opened Text
  import Modes

  /** One level of debug-log indentation. */
  const Tab: string := "  "
  const Warning: string := "WARNING: More modes ended than started."

  const ResetSignal: seq<Byte> := [0x1B, 0x40]
  const LineFeedSignal: seq<Byte> := [0x0A]
  const CutSignal: seq<Byte> := [0x1D, 0x56, 0x00]
  const RotateOnSignal: seq<Byte> := [0x1B, 0x56, 0x49]
  const RotateOffSignal: seq<Byte> := [0x1B, 0x56, 0x48]
  const FlipOnSignal: seq<Byte> := [0x1B, 0x7B, 0x01]
  const FlipOffSignal: seq<Byte> := [0x1B, 0x7B, 0x02]

  const FlipName: string := "flip"
  const RotateName: string := "rotate-clockwise"

  datatype State = State(
    enableEcho: bool,
    indent: string,
    inSize: Option<string>,
    inJust: Option<string>,
    formats: seq<string>,
    echoed: seq<string>)

  /** The state after an operation and the bytes it wrote to the port. */
  datatype Effect = Effect(state: State, out: seq<Byte>)

  /**
   * The argument of a toggle, as Python's `is` and `==` tell it apart: a bool;
   * a number whose value is the integer n (an `int`, or an integral float such
   * as `1.0`, which compares equal to n); or any other value, which compares
   * equal to neither 0 nor 1.
   */
  datatype ToggleArg = BoolArg(b: bool) | IntArg(n: int) | OtherArg

  datatype Error = UnknownModeCode(code: int) | InvalidArgument(arg: ToggleArg)

  /** The fields the constructor sets before its closing reset. */
  const Fresh: State := State(false, "", None, None, [], [])

  /** `r` differs from `s` at most in its indentation and in lines added to the log. */
  predicate Framed(s: State, r: State)
  {
    && r.enableEcho == s.enableEcho
    && r.inSize == s.inSize
    && r.inJust == s.inJust
    && r.formats == s.formats
    && s.echoed <= r.echoed
  }

  /** `depth` levels of indentation. */
  function Indentation(depth: nat): (r: string)
    ensures |r| == |Tab| * depth
    ensures forall i :: 0 <= i < |r| ==> r[i] == ' '
  {
    if depth == 0 then "" else Indentation(depth - 1) + Tab
  }

  /** `indent[:-len(tab)]`: one level shorter, and never shorter than empty. */
  function DropTab(indent: string): (r: string)
    ensures r <= indent
    ensures |r| == Max(0, |indent| - |Tab|)
  {
    if |indent| < |Tab| then "" else indent[..|indent| - |Tab|]
  }

  /** A debug line at the current indentation, when echo is on. */
  function Echo(s: State, text: string): State
  {
    if s.enableEcho then s.(echoed := s.echoed + [s.indent + text]) else s
  }

  /** `_dedent_echo`: warn when there is no level left, then drop one level. */
  function Dedent(s: State): State
  {
    var w := if |s.indent| < |Tab| then Echo(s, Warning) else s;
    w.(indent := DropTab(w.indent))
  }

  function DedentTimes(s: State, k: nat): (r: State)
    ensures Framed(s, r)
  {
    if k == 0 then s else Dedent(DedentTimes(s, k - 1))
  }

  /**
   * `_echo_if(text, tabs)`: for `tabs >= 0` echo the line and then indent that
   * many levels; for `tabs < 0` dedent first and echo at the new indentation.
   */
  function EchoIf(s: State, text: string, tabs: int): (r: State)
    ensures Framed(s, r)
    ensures tabs == 0 ==> r == Echo(s, text)
  {
    if tabs >= 0 then
      var e := Echo(s, text);
      e.(indent := e.indent + Indentation(tabs))
    else
      Echo(DedentTimes(s, -tabs), text)
  }

  function OpenTag(name: string): string
  {
    "<" + name + ">"
  }

  function CloseTag(name: string): string
  {
    "</" + name + ">"
  }

  function AlreadyNote(name: string): string
  {
    "<!--already not formatted: " + name + "-->"
  }

  function StillFormattedNote(remaining: seq<string>, i: nat): string
  {
    "<!--still formatted in: " + ListRepr(remaining) + " after removing format [" + NatToString(i) + "]-->"
  }

  /** `list.index`: the first position of `x`. */
  function IndexOf(xs: seq<string>, x: string): (r: nat)
    requires x in xs
    ensures r < |xs| && xs[r] == x && x !in xs[..r]
  {
    if xs[0] == x then 0 else 1 + IndexOf(xs[1..], x)
  }

  /** `xs[:i] + xs[i+1:]`. */
  function RemoveAt(xs: seq<string>, i: nat): (r: seq<string>)
    requires i < |xs|
    ensures |r| == |xs| - 1
    ensures forall j :: 0 <= j < i ==> r[j] == xs[j]
    ensures forall j :: i <= j < |r| ==> r[j] == xs[j + 1]
  {
    xs[..i] + xs[i + 1..]
  }

  /** `_push_format`. Duplicates are not filtered out. */
  function Push(s: State, name: string): State
  {
    EchoIf(s.(formats := s.formats + [name]), OpenTag(name), 1)
  }

  /**
   * `_pop_format`: an absent name only leaves a note; a name on top is removed
   * from the end; a name further down is removed at its first position, with a
   * note listing the modes still active.
   */
  function Pop(s: State, name: string): State
  {
    if name in s.formats then
      var i := IndexOf(s.formats, name);
      if s.formats[|s.formats| - 1] == name then
        EchoIf(s.(formats := s.formats[..|s.formats| - 1]), CloseTag(name), -1)
      else
        var c := EchoIf(s, CloseTag(name), -1);
        var r := c.(formats := RemoveAt(c.formats, i));
        EchoIf(r, StillFormattedNote(r.formats, i), 0)
    else
      EchoIf(s, AlreadyNote(name), 0)
  }

  /** `setSize`: close the active size, open the new one unless it is normal, send its signal. */
  function SetSize(s: State, code: int): Result<Effect, Error>
  {
    match Modes.Lookup(Modes.SizeModes, code)
    case None => Failure(UnknownModeCode(code))
    case Some(m) =>
      var c := if s.inSize.Some? then EchoIf(s, CloseTag(s.inSize.value), -1).(inSize := None) else s;
      var o := if code != 0 then EchoIf(c.(inSize := Some(m.name)), OpenTag(m.name), 1) else c;
      Success(Effect(o, m.signal))
  }

  /** `_justify`: the same protocol over the justification slot and table. */
  function Justify(s: State, code: int): Result<Effect, Error>
  {
    match Modes.Lookup(Modes.JustifyModes, code)
    case None => Failure(UnknownModeCode(code))
    case Some(m) =>
      var c := if s.inJust.Some? then EchoIf(s, CloseTag(s.inJust.value), -1).(inJust := None) else s;
      var o := if code != 0 then EchoIf(c.(inJust := Some(m.name)), OpenTag(m.name), 1) else c;
      Success(Effect(o, m.signal))
  }

  /** `True` and any number equal to 1 mean on, `False` and any number equal to 0 mean off; nothing else is accepted. */
  function Normalize(arg: ToggleArg): Option<bool>
  {
    match arg
    case BoolArg(b) => Some(b)
    case IntArg(n) => if n == 0 then Some(false) else if n == 1 then Some(true) else None
    case OtherArg => None
  }

  /** A toggle mode: push and send `on`, or pop and send `off`. */
  function Toggle(s: State, arg: ToggleArg, name: string, on: seq<Byte>, off: seq<Byte>): Result<Effect, Error>
  {
    match Normalize(arg)
    case None => Failure(InvalidArgument(arg))
    case Some(b) => if b then Success(Effect(Push(s, name), on)) else Success(Effect(Pop(s, name), off))
  }

  function Flip(s: State, arg: ToggleArg): Result<Effect, Error>
  {
    Toggle(s, arg, FlipName, FlipOnSignal, FlipOffSignal)
  }

  function RotateClockwise(s: State, arg: ToggleArg): Result<Effect, Error>
  {
    Toggle(s, arg, RotateName, RotateOnSignal, RotateOffSignal)
  }

  /** `reset`: only the indentation is cleared; modes and stack are kept. */
  function Reset(s: State): Effect
  {
    Effect(s.(indent := ""), ResetSignal)
  }

  function LineFeed(s: State): Effect
  {
    Effect(Echo(s, ""), LineFeedSignal)
  }

  function WriteLine(s: State, text: string): Effect
  {
    var f := LineFeed(Echo(s, text));
    Effect(f.state, Encode(text) + f.out)
  }

  function WriteLines(s: State, lines: seq<string>): Effect
    decreases |lines|
  {
    if lines == [] then Effect(s, [])
    else
      var p := WriteLines(s, lines[..|lines| - 1]);
      var w := WriteLine(p.state, lines[|lines| - 1]);
      Effect(w.state, p.out + w.out)
  }

  function WriteCentered(s: State, text: string, width: int): Effect
  {
    Effect(Echo(s, "<center>" + text + "</center>"), Encode(Centered(text, width)) + Encode("\n"))
  }

  /** `k` line feeds in a row (none when `k` is not positive, as `range(k)`). */
  function Feeds(s: State, k: int): Effect
    decreases k
  {
    if k <= 0 then Effect(s, [])
    else
      var p := Feeds(s, k - 1);
      var l := LineFeed(p.state);
      Effect(l.state, p.out + l.out)
  }

  function Cut(s: State, count: int): Effect
  {
    var f := Feeds(Echo(s, "<cut/>"), count);
    Effect(f.state, f.out + CutSignal)
  }

  /** `end`: clear the indentation, then cut; the port is closed afterwards. */
  function End(s: State, count: int): Effect
  {
    Cut(s.(indent := ""), count)
  }

  /** The number of modes the debug log has opened and not yet closed. */
  function Depth(s: State): nat
  {
    |s.formats| + (if s.inSize.Some? then 1 else 0) + (if s.inJust.Some? then 1 else 0)
  }

  /** The indentation is one level per open mode: toggles, size and justification. */
  predicate Nested(s: State)
  {
    s.indent == Indentation(Depth(s))
  }

  /** The state with the echo flag off and the log dropped. */
  function Quiet(s: State): State
  {
    s.(enableEcho := false, echoed := [])
  }

  /** The session's configuration: print width and feeds before a cut. */
  datatype Config = Config(width: int, preCutFeedCount: int)

  /** A public call on a session. */
  datatype Op =
    | SetEchoOp(on: bool)
    | SetSizeOp(code: int)
    | JustifyLeftOp
    | JustifyRightOp
    | JustifyCenterOp
    | FlipOp(arg: ToggleArg)
    | RotateOp(arg: ToggleArg)
    | ResetOp
    | LineFeedOp
    | WriteLineOp(text: string)
    | WriteLinesOp(lines: seq<string>)
    | WriteCenteredOp(text: string)
    | CutOp
    | EndOp
    | CloseOp

  function Apply(cfg: Config, s: State, op: Op): Result<Effect, Error>
  {
    match op
    case SetEchoOp(on) => Success(Effect(s.(enableEcho := on), []))
    case SetSizeOp(code) => SetSize(s, code)
    case JustifyLeftOp => Justify(s, Modes.JustifyLeft)
    // justifyRight asks for code 1, the centre entry, and justifyCenter for code 2
    case JustifyRightOp => Justify(s, Modes.JustifyCenter)
    case JustifyCenterOp => Justify(s, Modes.JustifyRight)
    case FlipOp(arg) => Flip(s, arg)
    case RotateOp(arg) => RotateClockwise(s, arg)
    case ResetOp => Success(Reset(s))
    case LineFeedOp => Success(LineFeed(s))
    case WriteLineOp(text) => Success(WriteLine(s, text))
    case WriteLinesOp(lines) => Success(WriteLines(s, lines))
    case WriteCenteredOp(text) => Success(WriteCentered(s, text, cfg.width))
    case CutOp => Success(Cut(s, cfg.preCutFeedCount))
    case EndOp => Success(End(s, cfg.preCutFeedCount))
    case CloseOp => Success(Effect(s, []))
  }

  /** A sequence of calls; a call that raises ends the sequence, as an uncaught exception does. */
  function Run(cfg: Config, s: State, ops: seq<Op>): Effect
    decreases |ops|
  {
    if ops == [] then Effect(s, [])
    else
      match Apply(cfg, s, ops[0])
      case Failure(_) => Effect(s, [])
      case Success(e) =>
        var rest := Run(cfg, e.state, ops[1..]);
        Effect(rest.state, e.out + rest.out)
  }
}
