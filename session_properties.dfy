/**
 * What the session functions promise: the push and pop rules of the format
 * stack, the clamped dedent, table dispatch of the one-slot modes, the toggle
 * argument rule, the exact bytes of the session operations, the nesting
 * invariant of the debug log, and that echo never changes anything but the log.
 */
module SessionProperties {
  import opened Results
  import opened Text
  import Modes
  import opened Session

  function Repeat<T>(x: T, n: nat): (r: seq<T>)
    ensures |r| == n && forall i :: 0 <= i < n ==> r[i] == x
  {
    seq(n, _ => x)
  }

  // ---------------------------------------------------------------------------
  // Indentation

  lemma DropTabIndentation(d: nat)
    ensures DropTab(Indentation(d)) == Indentation(if d == 0 then 0 else d - 1)
  {
    if d > 0 {
      assert Indentation(d) == Indentation(d - 1) + Tab;
      assert (Indentation(d - 1) + Tab)[..|Indentation(d - 1)|] == Indentation(d - 1);
    }
  }

  /**
   * Dedenting `k` times from depth `d` lands on depth `d - k`, clamped at zero,
   * and echoes one warning for every dedent below zero, never raising.
   */
  lemma {:induction false} DedentClamp(s: State, d: nat, k: nat)
    requires s.indent == Indentation(d)
    ensures DedentTimes(s, k).indent == Indentation(if k <= d then d - k else 0)
    ensures DedentTimes(s, k).echoed
         == s.echoed + (if s.enableEcho && k > d then Repeat(Warning, k - d) else [])
  {
    if k > 0 {
      DedentClamp(s, d, k - 1);
      var p := DedentTimes(s, k - 1);
      DropTabIndentation(if k - 1 <= d then d - (k - 1) else 0);
      if k > d {
        assert p.indent == "" && "" + Warning == Warning;
        assert (if s.enableEcho && k - 1 > d then Repeat(Warning, k - 1 - d) else [])
            == (if s.enableEcho then Repeat(Warning, k - 1 - d) else []);
        assert Repeat(Warning, k - 1 - d) + [Warning] == Repeat(Warning, k - d);
      }
    }
  }

  /** From any indentation, `k` dedents remove `k` tabs from the end, down to the empty string. */
  lemma {:induction false} DedentShortens(s: State, k: nat)
    ensures DedentTimes(s, k).indent <= s.indent
    ensures |DedentTimes(s, k).indent| == Max(0, |s.indent| - |Tab| * k)
  {
    if k > 0 {
      DedentShortens(s, k - 1);
    }
  }

  // ---------------------------------------------------------------------------
  // The format stack

  /** A push appends the name, indents one tab and echoes the open tag at the old indentation. */
  lemma PushEffect(s: State, name: string)
    ensures Push(s, name) == s.(
      formats := s.formats + [name],
      indent := s.indent + Tab,
      echoed := s.echoed + (if s.enableEcho then [s.indent + OpenTag(name)] else []))
  {
    assert Indentation(1) == Tab;
  }

  /** Popping a name that is not active changes nothing but, with echo on, one note line. */
  lemma PopAbsent(s: State, name: string)
    requires name !in s.formats
    ensures Pop(s, name) == s.(echoed := s.echoed + (if s.enableEcho then [s.indent + AlreadyNote(name)] else []))
  {
  }

  /**
   * Popping an active name removes exactly one occurrence: the last element
   * when it is the name, otherwise the first occurrence. The others keep their
   * order and the indentation loses one tab.
   */
  lemma PopPresent(s: State, name: string)
    requires name in s.formats
    ensures var f := s.formats;
      var k := if f[|f| - 1] == name then |f| - 1 else IndexOf(f, name);
      var r := Pop(s, name);
      && f[k] == name
      && (k != |f| - 1 ==> name !in f[..k])
      && r.formats == RemoveAt(f, k)
      && multiset(r.formats) == multiset(f) - multiset{name}
      && r.indent == DropTab(s.indent)
      && r.enableEcho == s.enableEcho && r.inSize == s.inSize && r.inJust == s.inJust
  {
    var f := s.formats;
    if f[|f| - 1] == name {
      PopTop(s, name);
      assert RemoveAt(f, |f| - 1) == f[..|f| - 1];
      RemoveAtCount(f, |f| - 1);
    } else {
      PopOutOfOrder(s, name);
      RemoveAtCount(f, IndexOf(f, name));
    }
  }

  /** Removing one index takes exactly one copy of that element out of the stack. */
  lemma RemoveAtCount(xs: seq<string>, i: nat)
    requires i < |xs|
    ensures multiset(RemoveAt(xs, i)) == multiset(xs) - multiset{xs[i]}
  {
    assert xs == xs[..i] + [xs[i]] + xs[i + 1..];
  }

  lemma PopTop(s: State, name: string)
    requires s.formats != [] && s.formats[|s.formats| - 1] == name
    ensures Pop(s, name) == Echo(Dedent(s.(formats := s.formats[..|s.formats| - 1])), CloseTag(name))
  {
    var t := s.(formats := s.formats[..|s.formats| - 1]);
    assert DedentTimes(t, 1) == Dedent(t);
  }

  lemma PopOutOfOrder(s: State, name: string)
    requires name in s.formats && s.formats[|s.formats| - 1] != name
    ensures var i := IndexOf(s.formats, name);
      var r := Echo(Dedent(s), CloseTag(name)).(formats := RemoveAt(s.formats, i));
      Pop(s, name) == Echo(r, StillFormattedNote(r.formats, i))
  {
    assert DedentTimes(s, 1) == Dedent(s);
  }

  /**
   * When the indentation matches the nesting depth, closing an active mode
   * never warns: the log gets the close tag, and for an out-of-order close the
   * note naming what is still active.
   */
  lemma PopEchoNested(s: State, name: string)
    requires Nested(s) && name in s.formats
    ensures var f := s.formats;
      var r := Pop(s, name);
      var at := DropTab(s.indent);
      r.echoed == s.echoed +
        (if !s.enableEcho then []
         else if f[|f| - 1] == name then [at + CloseTag(name)]
         else [at + CloseTag(name), at + StillFormattedNote(r.formats, IndexOf(f, name))])
  {
    DedentClamp(s, Depth(s), 1);
    DedentClamp(s.(formats := s.formats[..|s.formats| - 1]), Depth(s), 1);
    DropTabIndentation(Depth(s));
  }

  /** Pushing a name and popping it again restores the stack and the indentation. */
  lemma PushPopRoundTrip(s: State, name: string)
    ensures Pop(Push(s, name), name) == s.(echoed := s.echoed +
      (if s.enableEcho then [s.indent + OpenTag(name), s.indent + CloseTag(name)] else []))
  {
    PushEffect(s, name);
    var p := Push(s, name);
    assert p.formats[|p.formats| - 1] == name;
    assert p.formats[..|p.formats| - 1] == s.formats;
    var t := p.(formats := s.formats);
    assert DedentTimes(t, 1) == Dedent(t);
    assert DropTab(p.indent) == s.indent;
    assert Dedent(t) == t.(indent := s.indent);
  }

  /** `xs` with every occurrence of `x` left out. */
  function Without(xs: seq<string>, x: string): (r: seq<string>)
    ensures x !in r
  {
    if xs == [] then [] else (if xs[0] == x then [] else [xs[0]]) + Without(xs[1..], x)
  }

  lemma {:induction false} WithoutAbsent(xs: seq<string>, x: string)
    requires x !in xs
    ensures Without(xs, x) == xs
  {
    if xs != [] {
      assert x !in xs[1..];
      WithoutAbsent(xs[1..], x);
    }
  }

  lemma {:induction false} RemoveOnlyOccurrence(xs: seq<string>, k: nat, x: string)
    requires k < |xs| && xs[k] == x && x !in xs[..k] && x !in xs[k + 1..]
    ensures RemoveAt(xs, k) == Without(xs, x)
  {
    if k == 0 {
      assert xs[1..] == xs[k + 1..];
      WithoutAbsent(xs[1..], x);
    } else {
      assert xs[0] == xs[..k][0];
      assert xs[1..][..k - 1] == xs[1..k];
      assert forall j :: 1 <= j < k ==> xs[j] == xs[..k][j];
      assert xs[1..][k..] == xs[k + 1..];
      RemoveOnlyOccurrence(xs[1..], k - 1, x);
      assert RemoveAt(xs, k) == [xs[0]] + RemoveAt(xs[1..], k - 1);
    }
  }

  /** No name occurs twice. */
  predicate Distinct(xs: seq<string>)
  {
    forall i, j :: 0 <= i < j < |xs| ==> xs[i] != xs[j]
  }

  /**
   * While no toggle name occurs twice in the stack, a pop removes that name
   * wherever it sits: the top case and the out-of-order case agree.
   */
  lemma PopUnique(s: State, name: string)
    requires Distinct(s.formats) && name in s.formats
    ensures Pop(s, name).formats == Without(s.formats, name)
  {
    PopPresent(s, name);
    var f := s.formats;
    var k := if f[|f| - 1] == name then |f| - 1 else IndexOf(f, name);
    DistinctAround(f, k);
    RemoveOnlyOccurrence(f, k, name);
  }

  lemma DistinctAround(xs: seq<string>, k: nat)
    requires Distinct(xs) && k < |xs|
    ensures xs[k] !in xs[..k] && xs[k] !in xs[k + 1..]
  {
    var head, tail := xs[..k], xs[k + 1..];
    forall j | 0 <= j < |head| ensures head[j] != xs[k] {
      assert head[j] == xs[j];
    }
    forall j | 0 <= j < |tail| ensures tail[j] != xs[k] {
      assert tail[j] == xs[k + 1 + j];
    }
  }

  /** Flip enabled twice puts the name on the stack twice: pushes are not deduplicated. */
  lemma PushNotDeduplicated(s: State, name: string)
    ensures Push(Push(s, name), name).formats == s.formats + [name, name]
    ensures name in s.formats ==> !Distinct(Push(s, name).formats)
  {
    PushEffect(s, name);
    PushEffect(Push(s, name), name);
    if name in s.formats {
      var f := Push(s, name).formats;
      var i :| 0 <= i < |s.formats| && s.formats[i] == name;
      assert f[i] == f[|f| - 1];
    }
  }

  /** An out-of-order close with at least one level left: two log lines at the dedented indentation. */
  lemma PopOutOfOrderEffect(s: State, name: string)
    requires name in s.formats && s.formats[|s.formats| - 1] != name && |s.indent| >= |Tab|
    ensures var i := IndexOf(s.formats, name);
      var rest := RemoveAt(s.formats, i);
      var at := DropTab(s.indent);
      Pop(s, name) == s.(formats := rest, indent := at, echoed := s.echoed +
        (if s.enableEcho then [at + CloseTag(name), at + StillFormattedNote(rest, i)] else []))
  {
    var i := IndexOf(s.formats, name);
    var at := DropTab(s.indent);
    var rest := RemoveAt(s.formats, i);
    var note := StillFormattedNote(rest, i);
    var r := s.(formats := rest, indent := at,
      echoed := s.echoed + (if s.enableEcho then [at + CloseTag(name)] else []));
    assert Pop(s, name) == Echo(r, note) by {
      PopOutOfOrder(s, name);
      assert Dedent(s) == s.(indent := at);
    }
    if s.enableEcho {
      var x, y := at + CloseTag(name), at + note;
      assert s.echoed + [x] + [y] == s.echoed + [x, y];
    }
  }

  /** Closing the older of two stacked formats, two levels deep. */
  lemma PopOlderOfTwo(s: State, a: string, b: string)
    requires s.formats == [a, b] && a != b && s.indent == Tab + Tab
    ensures Pop(s, a) == s.(formats := [b], indent := Tab, echoed := s.echoed +
      (if s.enableEcho then [Tab + CloseTag(a), Tab + StillFormattedNote([b], 0)] else []))
  {
    assert IndexOf(s.formats, a) == 0;
    assert DropTab(Tab + Tab) == Tab;
    assert RemoveAt(s.formats, 0) == [b];
    PopOutOfOrderEffect(s, a);
  }

  /**
   * Enabling flip, then rotation, then disabling flip out of order leaves only
   * rotation active, one level deep, and echoes the close tag and the note
   * naming what is still active.
   */
  lemma OutOfOrderClose()
    ensures var s0 := Fresh.(enableEcho := true);
      var s3 := Pop(Push(Push(s0, FlipName), RotateName), FlipName);
      && s3.formats == [RotateName]
      && s3.indent == Tab
      && s3.echoed == [
        OpenTag(FlipName),
        Tab + OpenTag(RotateName),
        Tab + CloseTag(FlipName),
        Tab + StillFormattedNote([RotateName], 0)]
  {
    var s0 := Fresh.(enableEcho := true);
    PushEffect(s0, FlipName);
    var s1 := Push(s0, FlipName);
    assert "" + OpenTag(FlipName) == OpenTag(FlipName) && "" + Tab == Tab;
    assert s1 == s0.(formats := [FlipName], indent := Tab, echoed := [OpenTag(FlipName)]);
    PushEffect(s1, RotateName);
    var s2 := Push(s1, RotateName);
    assert s2 == s1.(formats := [FlipName, RotateName], indent := Tab + Tab,
                     echoed := [OpenTag(FlipName), Tab + OpenTag(RotateName)]);
    PopOlderOfTwo(s2, FlipName, RotateName);
  }

  /** In that note the remaining stack reads as Python prints the list, and the index as a decimal. */
  lemma OutOfOrderNote()
    ensures ListRepr([RotateName]) == "['rotate-clockwise']"
    ensures NatToString(0) == "0"
  {
  }

  // ---------------------------------------------------------------------------
  // One-slot modes

  /**
   * Setting a listed size sends exactly its signal and leaves the size slot
   * holding its name, or empty for the normal size; nothing else changes
   * outside the indentation and the log.
   */
  lemma SetSizeDispatch(s: State, i: nat)
    requires i < |Modes.SizeModes|
    ensures var m := Modes.SizeModes[i];
      var r := SetSize(s, m.code);
      && r.Success?
      && r.value.out == m.signal
      && r.value.state.inSize == (if m.code == 0 then None else Some(m.name))
      && r.value.state.formats == s.formats && r.value.state.inJust == s.inJust
      && r.value.state.enableEcho == s.enableEcho
  {
    Modes.SizeCodesUnique();
    Modes.LookupUnique(Modes.SizeModes, i);
  }

  /** An unlisted size code fails before anything is written or changed. */
  lemma SetSizeUnknown(s: State, code: int)
    requires code !in {0, 1, 2, 10, 20, 11, 22}
    ensures SetSize(s, code) == Failure(UnknownModeCode(code))
  {
    Modes.SizeCodesKnown(code);
  }

  lemma JustifyDispatch(s: State, i: nat)
    requires i < |Modes.JustifyModes|
    ensures var m := Modes.JustifyModes[i];
      var r := Justify(s, m.code);
      && r.Success?
      && r.value.out == m.signal
      && r.value.state.inJust == (if m.code == 0 then None else Some(m.name))
      && r.value.state.formats == s.formats && r.value.state.inSize == s.inSize
      && r.value.state.enableEcho == s.enableEcho
  {
    Modes.JustifyCodesUnique();
    Modes.LookupUnique(Modes.JustifyModes, i);
  }

  lemma JustifyUnknown(s: State, code: int)
    requires code !in {0, 1, 2}
    ensures Justify(s, code) == Failure(UnknownModeCode(code))
  {
    Modes.JustifyCodesKnown(code);
  }

  /** `justifyRight` sends the centre signal and `justifyCenter` the right one. */
  lemma JustifyNamesSwapped(cfg: Config, s: State)
    ensures var right := Apply(cfg, s, JustifyRightOp);
      right.Success? && right.value.out == [0x1B, 0x61, 0x01] && right.value.state.inJust == Some("center")
    ensures var center := Apply(cfg, s, JustifyCenterOp);
      center.Success? && center.value.out == [0x1B, 0x61, 0x02] && center.value.state.inJust == Some("right")
  {
    JustifyDispatch(s, 1);
    JustifyDispatch(s, 2);
  }

  // ---------------------------------------------------------------------------
  // Toggles

  /** Only `True`, `1`, `False` and `0` are accepted, and they mean on, on, off, off. */
  lemma NormalizeAccepts(arg: ToggleArg)
    ensures Normalize(arg) == Some(true) <==> arg == BoolArg(true) || arg == IntArg(1)
    ensures Normalize(arg) == Some(false) <==> arg == BoolArg(false) || arg == IntArg(0)
  {
  }

  /** A toggle pushes then sends its on signal, or pops then sends its off signal, or fails without effect. */
  lemma ToggleEffect(s: State, arg: ToggleArg)
    ensures Flip(s, arg) ==
      if arg == BoolArg(true) || arg == IntArg(1) then Success(Effect(Push(s, "flip"), [0x1B, 0x7B, 0x01]))
      else if arg == BoolArg(false) || arg == IntArg(0) then Success(Effect(Pop(s, "flip"), [0x1B, 0x7B, 0x02]))
      else Failure(InvalidArgument(arg))
    ensures RotateClockwise(s, arg) ==
      if arg == BoolArg(true) || arg == IntArg(1) then Success(Effect(Push(s, "rotate-clockwise"), [0x1B, 0x56, 0x49]))
      else if arg == BoolArg(false) || arg == IntArg(0) then Success(Effect(Pop(s, "rotate-clockwise"), [0x1B, 0x56, 0x48]))
      else Failure(InvalidArgument(arg))
  {
  }

  // ---------------------------------------------------------------------------
  // Bytes of the session operations

  lemma {:induction false} FeedsEffect(s: State, k: int)
    ensures Feeds(s, k).out == Repeat(0x0A as Byte, Max(0, k))
    ensures Feeds(s, k).state == s.(echoed := s.echoed + (if s.enableEcho then Repeat(s.indent, Max(0, k)) else []))
    decreases k
  {
    if k > 0 {
      FeedsEffect(s, k - 1);
      assert Repeat(0x0A as Byte, k - 1) + [0x0A] == Repeat(0x0A as Byte, k);
      assert s.indent + "" == s.indent;
      assert Repeat(s.indent, k - 1) + [s.indent] == Repeat(s.indent, k);
    }
  }

  /** `cut` sends `preCutFeedCount` line feeds and then the cut command. */
  lemma CutEffect(s: State, count: int)
    ensures Cut(s, count).out == Repeat(0x0A as Byte, Max(0, count)) + [0x1D, 0x56, 0x00]
    ensures Cut(s, count).state == s.(echoed := s.echoed +
      (if s.enableEcho then [s.indent + "<cut/>"] + Repeat(s.indent, Max(0, count)) else []))
  {
    FeedsEffect(Echo(s, "<cut/>"), count);
  }

  /** `end` clears the indentation and cuts; with six feeds that is six `0A` bytes and `1D 56 00`. */
  lemma EndEffect(s: State, count: int)
    ensures End(s, count).out == Repeat(0x0A as Byte, Max(0, count)) + [0x1D, 0x56, 0x00]
    ensures End(s, count).state == s.(indent := "", echoed := s.echoed +
      (if s.enableEcho then ["<cut/>"] + Repeat("", Max(0, count)) else []))
    ensures count == 6 ==> End(s, count).out == [0x0A, 0x0A, 0x0A, 0x0A, 0x0A, 0x0A, 0x1D, 0x56, 0x00]
  {
    CutEffect(s.(indent := ""), count);
    assert "" + "<cut/>" == "<cut/>";
  }

  /** `reset` sends `1B 40` and clears only the indentation. */
  lemma ResetEffect(s: State)
    ensures Reset(s).out == [0x1B, 0x40]
    ensures Reset(s).state.indent == ""
    ensures Reset(s).state == s.(indent := "")
  {
  }

  /** `writeLine` sends the encoded text and a line feed, echoing the text and an empty line. */
  lemma WriteLineEffect(s: State, text: string)
    ensures WriteLine(s, text).out == Encode(text + "\n")
    ensures WriteLine(s, text).state == s.(echoed := s.echoed +
      (if s.enableEcho then [s.indent + text, s.indent] else []))
  {
    EncodeAppend(text, "\n");
    assert Encode("\n") == [0x0A];
    assert s.indent + "" == s.indent;
  }

  /** The lines, each followed by a newline. */
  function Terminated(lines: seq<string>): string
    decreases |lines|
  {
    if lines == [] then "" else Terminated(lines[..|lines| - 1]) + lines[|lines| - 1] + "\n"
  }

  /** The debug lines of `writeLines`: each text, then the empty line of its line feed. */
  function EchoedLines(indent: string, lines: seq<string>): seq<string>
    decreases |lines|
  {
    if lines == [] then [] else EchoedLines(indent, lines[..|lines| - 1]) + [indent + lines[|lines| - 1], indent]
  }

  /** `writeLines` sends the same bytes as one write of all lines joined with terminating newlines. */
  lemma {:induction false} WriteLinesEffect(s: State, lines: seq<string>)
    ensures WriteLines(s, lines).out == Encode(Terminated(lines))
    ensures WriteLines(s, lines).state == s.(echoed := s.echoed +
      (if s.enableEcho then EchoedLines(s.indent, lines) else []))
    decreases |lines|
  {
    if lines != [] {
      var init := lines[..|lines| - 1];
      var last := lines[|lines| - 1];
      WriteLinesEffect(s, init);
      WriteLineEffect(WriteLines(s, init).state, last);
      EncodeAppend(Terminated(init), last + "\n");
      assert Terminated(lines) == Terminated(init) + (last + "\n");
    }
  }

  /** `writeCentered` sends the text padded with spaces to the width, then a newline. */
  lemma WriteCenteredEffect(s: State, text: string, width: int)
    ensures WriteCentered(s, text, width).out == Encode(Centered(text, width) + "\n")
    ensures |Centered(text, width)| == Max(width, |text|)
    ensures WriteCentered(s, text, width).state == s.(echoed := s.echoed +
      (if s.enableEcho then [s.indent + ("<center>" + text + "</center>")] else []))
  {
    EncodeAppend(Centered(text, width), "\n");
    CenteredLayout(text, width);
  }

  /** With the default width of 42, "hi" goes out with twenty spaces on each side. */
  lemma CenteredHi()
    ensures Centered("hi", 42) == Spaces(20) + "hi" + Spaces(20)
    ensures |Centered("hi", 42)| == 42
  {
  }

  /** The calls that only send bytes and add debug lines. */
  predicate IsWrite(op: Op)
  {
    op.LineFeedOp? || op.WriteLineOp? || op.WriteLinesOp? || op.WriteCenteredOp? || op.CutOp?
  }

  /** The bytes a writing call sends: they depend only on its arguments and the configuration. */
  function WriteBytes(cfg: Config, op: Op): seq<Byte>
    requires IsWrite(op)
  {
    match op
    case LineFeedOp => [0x0A]
    case WriteLineOp(text) => Encode(text + "\n")
    case WriteLinesOp(lines) => Encode(Terminated(lines))
    case WriteCenteredOp(text) => Encode(Centered(text, cfg.width) + "\n")
    case CutOp => Repeat(0x0A as Byte, Max(0, cfg.preCutFeedCount)) + [0x1D, 0x56, 0x00]
  }

  /** A writing call never fails, sends `WriteBytes`, and changes nothing but the log. */
  lemma WriteOps(cfg: Config, s: State, op: Op)
    requires IsWrite(op)
    ensures var r := Apply(cfg, s, op);
      && r.Success?
      && r.value.out == WriteBytes(cfg, op)
      && r.value.state == s.(echoed := r.value.state.echoed)
  {
    match op
    case LineFeedOp =>
    case WriteLineOp(text) => WriteLineEffect(s, text);
    case WriteLinesOp(lines) => WriteLinesEffect(s, lines);
    case WriteCenteredOp(text) => WriteCenteredEffect(s, text, cfg.width);
    case CutOp => CutEffect(s, cfg.preCutFeedCount);
  }

  // ---------------------------------------------------------------------------
  // The nesting invariant of the debug log

  /** A freshly constructed session is nested: no mode open, no indentation. */
  lemma InitialNested()
    ensures Nested(Reset(Fresh).state) && Depth(Reset(Fresh).state) == 0
  {
  }

  /** `reset` and `end` clear the indentation but not the modes, so they keep the invariant only at depth zero. */
  lemma ResetNested(cfg: Config, s: State)
    ensures Nested(Reset(s).state) <==> Depth(s) == 0
    ensures Nested(End(s, cfg.preCutFeedCount).state) <==> Depth(s) == 0
  {
    EndEffect(s, cfg.preCutFeedCount);
    assert |Indentation(Depth(s))| == |Tab| * Depth(s);
  }

  lemma PushKeepsNested(s: State, name: string)
    requires Nested(s)
    ensures Nested(Push(s, name))
  {
    PushEffect(s, name);
  }

  lemma PopKeepsNested(s: State, name: string)
    requires Nested(s)
    ensures Nested(Pop(s, name))
  {
    if name in s.formats {
      PopPresent(s, name);
      DropTabIndentation(Depth(s));
    }
  }

  /** Echoing with one more tab goes one level deeper. */
  lemma OpenLevel(x: State, text: string, d: nat)
    requires x.indent == Indentation(d)
    ensures EchoIf(x, text, 1).indent == Indentation(d + 1)
  {
    assert Indentation(1) == Tab;
  }

  /** Echoing with one tab less goes one level up, without a warning while a level is left. */
  lemma CloseLevel(x: State, text: string, d: nat)
    requires x.indent == Indentation(d) && d >= 1
    ensures EchoIf(x, text, -1).indent == Indentation(d - 1)
    ensures EchoIf(x, text, -1).echoed == x.echoed + (if x.enableEcho then [Indentation(d - 1) + text] else [])
  {
    DedentClamp(x, d, 1);
  }

  /** Closing the mode in a slot and opening another keeps the indentation at the depth. */
  lemma SetSizeKeepsNested(s: State, code: int)
    requires Nested(s) && SetSize(s, code).Success?
    ensures Nested(SetSize(s, code).value.state)
  {
    var m := Modes.Lookup(Modes.SizeModes, code).value;
    var c := if s.inSize.Some? then EchoIf(s, CloseTag(s.inSize.value), -1).(inSize := None) else s;
    if s.inSize.Some? {
      CloseLevel(s, CloseTag(s.inSize.value), Depth(s));
    }
    assert Nested(c);
    if code != 0 {
      OpenLevel(c.(inSize := Some(m.name)), OpenTag(m.name), Depth(c));
    }
  }

  lemma JustifyKeepsNested(s: State, code: int)
    requires Nested(s) && Justify(s, code).Success?
    ensures Nested(Justify(s, code).value.state)
  {
    var m := Modes.Lookup(Modes.JustifyModes, code).value;
    var c := if s.inJust.Some? then EchoIf(s, CloseTag(s.inJust.value), -1).(inJust := None) else s;
    if s.inJust.Some? {
      CloseLevel(s, CloseTag(s.inJust.value), Depth(s));
    }
    assert Nested(c);
    if code != 0 {
      OpenLevel(c.(inJust := Some(m.name)), OpenTag(m.name), Depth(c));
    }
  }

  lemma ToggleKeepsNested(s: State, arg: ToggleArg, name: string, on: seq<Byte>, off: seq<Byte>)
    requires Nested(s)
    ensures Toggle(s, arg, name, on, off).Success? ==> Nested(Toggle(s, arg, name, on, off).value.state)
  {
    PushKeepsNested(s, name);
    PopKeepsNested(s, name);
  }

  lemma ApplyKeepsNested(cfg: Config, s: State, op: Op)
    requires Nested(s) && !op.ResetOp? && !op.EndOp?
    ensures Apply(cfg, s, op).Success? ==> Nested(Apply(cfg, s, op).value.state)
  {
    if IsWrite(op) {
      WriteOps(cfg, s, op);
    } else {
      match op
      case SetSizeOp(code) =>
        if SetSize(s, code).Success? { SetSizeKeepsNested(s, code); }
      case JustifyLeftOp =>
        JustifyDispatch(s, 0); JustifyKeepsNested(s, 0);
      case JustifyRightOp =>
        JustifyDispatch(s, 1); JustifyKeepsNested(s, 1);
      case JustifyCenterOp =>
        JustifyDispatch(s, 2); JustifyKeepsNested(s, 2);
      case FlipOp(arg) =>
        ToggleKeepsNested(s, arg, FlipName, FlipOnSignal, FlipOffSignal);
      case RotateOp(arg) =>
        ToggleKeepsNested(s, arg, RotateName, RotateOnSignal, RotateOffSignal);
      case _ =>
    }
  }

  /**
   * From construction on, as long as neither `reset` nor `end` is called, the
   * debug indentation is exactly one tab per open toggle, size and justification mode.
   */
  lemma {:induction false} RunKeepsNested(cfg: Config, s: State, ops: seq<Op>)
    requires Nested(s)
    requires forall i :: 0 <= i < |ops| ==> !ops[i].ResetOp? && !ops[i].EndOp?
    ensures Nested(Run(cfg, s, ops).state)
    decreases |ops|
  {
    if ops != [] {
      ApplyKeepsNested(cfg, s, ops[0]);
      match Apply(cfg, s, ops[0])
      case Failure(_) =>
      case Success(e) => RunKeepsNested(cfg, e.state, ops[1..]);
    }
  }

  /** Along the run, every `reset` and `end` that takes effect is made with no mode open. */
  predicate ResetsAtRest(cfg: Config, s: State, ops: seq<Op>)
    decreases |ops|
  {
    ops != [] ==>
      match Apply(cfg, s, ops[0])
      case Failure(_) => true
      case Success(e) =>
        && ((ops[0].ResetOp? || ops[0].EndOp?) ==> Depth(s) == 0)
        && ResetsAtRest(cfg, e.state, ops[1..])
  }

  /**
   * The nesting invariant holds until a `reset` or `end` is made while some
   * mode is still open: those made at depth zero keep it.
   */
  lemma {:induction false} RunKeepsNestedAtRest(cfg: Config, s: State, ops: seq<Op>)
    requires Nested(s) && ResetsAtRest(cfg, s, ops)
    ensures Nested(Run(cfg, s, ops).state)
    decreases |ops|
  {
    if ops != [] {
      if ops[0].ResetOp? || ops[0].EndOp? {
        ResetNested(cfg, s);
      } else {
        ApplyKeepsNested(cfg, s, ops[0]);
      }
      match Apply(cfg, s, ops[0])
      case Failure(_) =>
      case Success(e) => RunKeepsNestedAtRest(cfg, e.state, ops[1..]);
    }
  }

  // ---------------------------------------------------------------------------
  // Echo changes only the log

  function QuietResult(r: Result<Effect, Error>): Result<Effect, Error>
  {
    match r
    case Success(e) => Success(Effect(Quiet(e.state), e.out))
    case Failure(err) => Failure(err)
  }

  lemma {:induction false} QuietDedentTimes(s: State, k: nat)
    ensures Quiet(DedentTimes(s, k)) == DedentTimes(Quiet(s), k)
  {
    if k > 0 {
      QuietDedentTimes(s, k - 1);
    }
  }

  lemma QuietEchoIf(s: State, text: string, tabs: int)
    ensures Quiet(EchoIf(s, text, tabs)) == EchoIf(Quiet(s), text, tabs)
  {
    if tabs < 0 {
      QuietDedentTimes(s, -tabs);
    }
  }

  lemma QuietPush(s: State, name: string)
    ensures Quiet(Push(s, name)) == Push(Quiet(s), name)
  {
    QuietEchoIf(s.(formats := s.formats + [name]), OpenTag(name), 1);
  }

  lemma QuietEcho(x: State, text: string)
    ensures Quiet(Echo(x, text)) == Quiet(x)
    ensures Echo(Quiet(x), text) == Quiet(x)
  {
  }

  lemma QuietDedent(x: State)
    ensures Quiet(Dedent(x)) == Dedent(Quiet(x))
  {
  }

  lemma QuietPop(s: State, name: string)
    ensures Quiet(Pop(s, name)) == Pop(Quiet(s), name)
  {
    var f := s.formats;
    if name !in f {
      QuietEcho(s, AlreadyNote(name));
    } else if f[|f| - 1] == name {
      PopTop(s, name);
      PopTop(Quiet(s), name);
      var t := s.(formats := f[..|f| - 1]);
      assert Quiet(s).(formats := f[..|f| - 1]) == Quiet(t);
      QuietDedent(t);
      QuietEcho(Dedent(t), CloseTag(name));
      QuietEcho(Dedent(Quiet(t)), CloseTag(name));
    } else {
      PopOutOfOrder(s, name);
      PopOutOfOrder(Quiet(s), name);
      var i := IndexOf(f, name);
      QuietDedent(s);
      QuietEcho(Dedent(s), CloseTag(name));
      QuietEcho(Dedent(Quiet(s)), CloseTag(name));
      var r := Echo(Dedent(s), CloseTag(name)).(formats := RemoveAt(f, i));
      var q := Echo(Dedent(Quiet(s)), CloseTag(name)).(formats := RemoveAt(f, i));
      assert Quiet(r) == q;
      QuietEcho(r, StillFormattedNote(r.formats, i));
      QuietEcho(q, StillFormattedNote(q.formats, i));
    }
  }

  lemma QuietSetSize(s: State, code: int)
    ensures QuietResult(SetSize(s, code)) == SetSize(Quiet(s), code)
  {
    if s.inSize.Some? {
      QuietEchoIf(s, CloseTag(s.inSize.value), -1);
    }
    var m := Modes.Lookup(Modes.SizeModes, code);
    if m.Some? && code != 0 {
      var c := if s.inSize.Some? then EchoIf(s, CloseTag(s.inSize.value), -1).(inSize := None) else s;
      QuietEchoIf(c.(inSize := Some(m.value.name)), OpenTag(m.value.name), 1);
    }
  }

  lemma QuietJustify(s: State, code: int)
    ensures QuietResult(Justify(s, code)) == Justify(Quiet(s), code)
  {
    if s.inJust.Some? {
      QuietEchoIf(s, CloseTag(s.inJust.value), -1);
    }
    var m := Modes.Lookup(Modes.JustifyModes, code);
    if m.Some? && code != 0 {
      var c := if s.inJust.Some? then EchoIf(s, CloseTag(s.inJust.value), -1).(inJust := None) else s;
      QuietEchoIf(c.(inJust := Some(m.value.name)), OpenTag(m.value.name), 1);
    }
  }

  lemma QuietToggle(s: State, arg: ToggleArg, name: string, on: seq<Byte>, off: seq<Byte>)
    ensures QuietResult(Toggle(s, arg, name, on, off)) == Toggle(Quiet(s), arg, name, on, off)
  {
    QuietPush(s, name);
    QuietPop(s, name);
  }

  /** Every call gives the same bytes and the same bookkeeping with echo on or off. */
  lemma ApplyQuiet(cfg: Config, s: State, op: Op)
    ensures QuietResult(Apply(cfg, s, op)) == QuietResult(Apply(cfg, Quiet(s), op))
  {
    assert Quiet(Quiet(s)) == Quiet(s);
    if IsWrite(op) {
      WriteOps(cfg, s, op);
      WriteOps(cfg, Quiet(s), op);
    } else {
      match op
      case SetSizeOp(code) =>
        QuietSetSize(s, code); QuietSetSize(Quiet(s), code);
      case JustifyLeftOp =>
        QuietJustify(s, 0); QuietJustify(Quiet(s), 0);
      case JustifyRightOp =>
        QuietJustify(s, 1); QuietJustify(Quiet(s), 1);
      case JustifyCenterOp =>
        QuietJustify(s, 2); QuietJustify(Quiet(s), 2);
      case FlipOp(arg) =>
        QuietToggle(s, arg, FlipName, FlipOnSignal, FlipOffSignal);
        QuietToggle(Quiet(s), arg, FlipName, FlipOnSignal, FlipOffSignal);
      case RotateOp(arg) =>
        QuietToggle(s, arg, RotateName, RotateOnSignal, RotateOffSignal);
        QuietToggle(Quiet(s), arg, RotateName, RotateOnSignal, RotateOffSignal);
      case EndOp =>
        EndEffect(s, cfg.preCutFeedCount); EndEffect(Quiet(s), cfg.preCutFeedCount);
      case _ =>
    }
  }

  /**
   * Two sessions that differ only in the echo flag and the log send the same
   * bytes and end in the same bookkeeping for any sequence of calls: echo is
   * purely an observer, and switching it on mid-session shows the true nesting.
   */
  lemma {:induction false} RunIgnoresEcho(cfg: Config, s1: State, s2: State, ops: seq<Op>)
    requires Quiet(s1) == Quiet(s2)
    ensures Run(cfg, s1, ops).out == Run(cfg, s2, ops).out
    ensures Quiet(Run(cfg, s1, ops).state) == Quiet(Run(cfg, s2, ops).state)
    decreases |ops|
  {
    if ops != [] {
      ApplyQuiet(cfg, s1, ops[0]);
      ApplyQuiet(cfg, s2, ops[0]);
      match Apply(cfg, s1, ops[0])
      case Failure(_) =>
      case Success(e1) =>
        var e2 := Apply(cfg, s2, ops[0]).value;
        RunIgnoresEcho(cfg, e1.state, e2.state, ops[1..]);
    }
  }
}
