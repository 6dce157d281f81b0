# lineprinter — a verified model of the `LinePrinter` session

`LinePrinter` drives an ESC/POS-style thermal receipt printer over a serial
line. A session keeps these fields:

- two mode tables, for character size and for justification, each holding `(code, name, signal)` entries;
- one slot per table for the active mode;
- a stack of active toggle modes (`flip`, `rotate-clockwise`);
- a debug indentation that nests one tab per open mode.

Every call that succeeds, other than `close`, sends an exact byte sequence to the
printer; `close` and the calls that raise send nothing. With `enableEcho` set, the
calls also print an XML-like trace of the open and close tags to standard output.

The project has these modules:

- `Results` — `Option`, `Result` and the `Outcome` of a call that may raise.
- `Text` — UTF-8 encoding of `str.encode()`, CPython's `str.center`, and the decimal and list `repr` used in the debug notes.
- `Modes` — the two tables with their constants, and the first-match lookup loop (`FindMode`) with the function it computes (`Lookup`).
- `Session` — the pure meaning of every call. The `State` holds the bookkeeping fields and the log of echoed lines. Each operation returns the new state and the bytes sent; `setSize`, `_justify`, `flip` and `rotateClockwise` can also fail. `Apply`/`Run` replay a sequence of calls.
- `Transport` — the serial port: an open flag and the bytes written so far.
- `Printer` — the class `LinePrinter`. Its fields are updated in place, and its methods contain the loops of the Python methods in `lineprinter/__init__.py`. Each method is proved to leave the fields and the port exactly as the matching `Session` function says.
- `SessionProperties` — what the session promises: the push/pop rules, the clamped dedent, table dispatch, toggles, exact bytes, the nesting invariant, and the independence of everything but the log from `enableEcho`.

Where the program's own names and docstrings suggest more than its code does, the model follows the code:

- The `end` docstring says it closes the connection, but later calls still work: every call that writes first reopens the port if it is closed (lines 149-150, 167-168, 172-173, …), and so does the model. `close` never reopens, and `writeLines` reopens only through `writeLine`, so `writeLines([])` leaves a closed port closed (`Printer.LinePrinter.WriteLines`).
- The method names say otherwise, but `justifyRight` asks for code 1, the "center" entry, and `justifyCenter` for code 2, the "right" entry. This is modelled as written.
- The `reset` docstring says "Reset all commands sent to printer", but it clears only the indentation. The format stack and the two slots stay, so the nesting invariant survives `reset`/`end` only at depth zero (`ResetNested`, `RunKeepsNestedAtRest`).
- An unknown size or justify code fails after the lazy reopen. Nothing is written and no field changes.

## Model

| member | source | states |
|---|---|---|
| Text.EncodeChar | lineprinter/__init__.py:181 | a character encodes to 1 to 4 UTF-8 bytes, and to one byte equal to its code exactly when it is ASCII |
| Text.Encode | lineprinter/__init__.py:181 | the encoding of a string is between 1 and 4 bytes per character |
| Text.EncodeAppend | lineprinter/__init__.py:181-182 | encoding distributes over concatenation, so two writes send what one write of the joined text sends |
| Text.EncodeAscii | lineprinter/__init__.py:188-189 | ASCII text encodes byte for byte |
| Text.CenteredLayout | lineprinter/__init__.py:188 | the centered line has length max(width, len(text)), holds the text at the left margin and spaces elsewhere, and the two margins differ by at most one |
| Modes.Lookup | lineprinter/__init__.py:254-257 | finds an entry exactly when some entry has the code, and what it finds is a table entry with that code |
| Modes.LookupFirst | lineprinter/__init__.py:227-230 | the lookup returns the first entry with the code |
| Modes.LookupUnique | lineprinter/__init__.py:19-27 | in a table without repeated codes every entry is found by its own code |
| Modes.FindMode | lineprinter/__init__.py:254-257 | the scanning loop with `break` returns exactly the first-match lookup |
| Modes.SizeCodesUnique | lineprinter/__init__.py:19-27 | no size code appears twice |
| Modes.JustifyCodesUnique | lineprinter/__init__.py:33-37 | no justification code appears twice |
| Modes.LookupKnown | lineprinter/__init__.py:258-261 | a code is found if and only if it is among the table's codes |
| Modes.SizeCodesKnown | lineprinter/__init__.py:11-27 | the known size codes are exactly 0, 1, 2, 10, 20, 11 and 22 |
| Modes.JustifyCodesKnown | lineprinter/__init__.py:29-37 | the known justification codes are exactly 0, 1 and 2 |
| Modes.SizeSignalDigits | lineprinter/__init__.py:19-27 | each size signal is `1D 21 n` where n written in hexadecimal reads as the decimal code |
| Modes.JustifySignalCode | lineprinter/__init__.py:33-37 | each justification signal is `1B 61 n` with n equal to the code |
| Session.Indentation | lineprinter/__init__.py:135-136 | d indents are 2·d spaces |
| Session.DropTab | lineprinter/__init__.py:141 | a dedent keeps a prefix of the indentation that is one tab shorter, or empty |
| Session.DedentTimes | lineprinter/__init__.py:101-103 | repeated dedents change only the indentation and add to the log |
| Session.EchoIf | lineprinter/__init__.py:89-109 | changes only the indentation and the log; with no tabs it only echoes |
| Session.IndexOf | lineprinter/__init__.py:118 | the first index of the name in the stack |
| Session.RemoveAt | lineprinter/__init__.py:127 | removing index i keeps the elements before i in place and shifts those after it down by one |
| Text.Centered | lineprinter/__init__.py:188 | `text.center(width)`: the text unchanged when it is at least `width` long, otherwise padded with spaces to `width`, the left margin as CPython splits it |
| Text.LeftMargin | lineprinter/__init__.py:188 | CPython's left margin of `str.center`: half the padding, plus one when both the padding and the width are odd |
| Text.NatToString | lineprinter/__init__.py:128-130 | `str(i)` of the index in the out-of-order note: its decimal digits |
| Text.ListRepr | lineprinter/__init__.py:128-130 | the list as `str.format` renders it in the note: `['a', 'b']` |
| Session.Echo | lineprinter/__init__.py:98-100 | a `print` under `enableEcho`: the indentation and the text appended to the log, nothing else changed |
| Session.Dedent | lineprinter/__init__.py:138-141 | `_dedent_echo`: with less than one tab left, echo the warning at the current indentation; then drop one tab, down to empty |
| Session.OpenTag | lineprinter/__init__.py:113 | the open tag `<name>` |
| Session.CloseTag | lineprinter/__init__.py:124 | the close tag `</name>` |
| Session.AlreadyNote | lineprinter/__init__.py:132-133 | the note `<!--already not formatted: name-->` |
| Session.StillFormattedNote | lineprinter/__init__.py:128-130 | the note `<!--still formatted in: [...] after removing format [i]-->` with the remaining stack and the removed index |
| Session.Push | lineprinter/__init__.py:111-113 | `_push_format`: append the name, then echo its open tag and indent one tab |
| Session.Pop | lineprinter/__init__.py:115-133 | `_pop_format`: the note for an absent name; for the top element, drop it and close one level; otherwise close one level, remove the first occurrence and echo the note |
| Session.SetSize | lineprinter/__init__.py:248-269 | `setSize`: fail for an unlisted code; otherwise close the active size, open the new one unless the code is 0, and send its signal |
| Session.Justify | lineprinter/__init__.py:221-243 | `_justify`: the same protocol over the justification table and slot |
| Session.Normalize | lineprinter/__init__.py:196-199 | `True` or a number equal to 1 is on, `False` or a number equal to 0 is off, anything else is rejected |
| Session.Toggle | lineprinter/__init__.py:202-210 | the shared shape of the toggles: pop and send the off bytes, push and send the on bytes, or fail |
| Session.Flip | lineprinter/__init__.py:271-286 | `flip` with the name "flip" and the bytes `1B 7B 01` / `1B 7B 02` |
| Session.RotateClockwise | lineprinter/__init__.py:195-210 | `rotateClockwise` with the name "rotate-clockwise" and the bytes `1B 56 49` / `1B 56 48` |
| Session.Reset | lineprinter/__init__.py:162-169 | `reset`: clear the indentation and send `1B 40` |
| Session.LineFeed | lineprinter/__init__.py:171-175 | `lineFeed`: echo an empty line and send `0A` |
| Session.WriteLine | lineprinter/__init__.py:177-182 | `writeLine`: echo the text, send its encoding, then a line feed |
| Session.WriteLines | lineprinter/__init__.py:191-193 | `writeLines`: `writeLine` for each text in order |
| Session.WriteCentered | lineprinter/__init__.py:184-189 | `writeCentered`: echo the text in `<center>` tags, send the centered text and a newline |
| Session.Feeds | lineprinter/__init__.py:151-153 | the feed loop of `cut`: `preCutFeedCount` line feeds, none when the count is not positive |
| Session.Cut | lineprinter/__init__.py:147-154 | `cut`: echo `<cut/>`, feed, then send `1D 56 00` |
| Session.End | lineprinter/__init__.py:156-160 | `end`: clear the indentation, then cut (closing the port is the class method's part) |
| Session.Apply | lineprinter/__init__.py:143-286 | one public call; `justifyRight` is wired to code 1 and `justifyCenter` to code 2, as lines 212-219 do |
| Session.Run | lineprinter/__init__.py:143-286 | a sequence of calls, stopping at the first one that raises |
| SessionProperties.DropTabIndentation | lineprinter/__init__.py:138-141 | dedenting d tabs gives d-1 tabs, clamped at zero |
| SessionProperties.DedentClamp | lineprinter/__init__.py:135-141 | k dedents from depth d reach depth max(d-k, 0) and log one warning per dedent below zero |
| SessionProperties.DedentShortens | lineprinter/__init__.py:141 | from any indentation, k dedents keep a prefix that is 2·k characters shorter, or empty |
| SessionProperties.PushEffect | lineprinter/__init__.py:111-113 | a push appends the name and adds one tab whether or not echo is on, and logs the open tag only with echo |
| SessionProperties.PopAbsent | lineprinter/__init__.py:131-133 | popping an inactive name changes nothing but one logged note |
| SessionProperties.PopPresent | lineprinter/__init__.py:115-130 | popping an active name removes exactly one occurrence (the last element when it is the name, otherwise the first occurrence), keeps the other elements in order, and drops one tab |
| SessionProperties.PopTop | lineprinter/__init__.py:122-124 | the top case drops the last element, then dedents and logs the close tag |
| SessionProperties.PopOutOfOrder | lineprinter/__init__.py:125-130 | the out-of-order case dedents and logs the close tag, removes the first occurrence, then logs the note with the remaining stack and the index |
| SessionProperties.RemoveAtCount | lineprinter/__init__.py:127 | removing one index takes exactly one copy of that element out of the stack |
| SessionProperties.PopOutOfOrderEffect | lineprinter/__init__.py:125-130 | with a level left, an out-of-order pop removes the first occurrence, drops one tab, and logs the close tag and the note at the new indentation |
| SessionProperties.PopEchoNested | lineprinter/__init__.py:121-130 | under the nesting invariant a pop never warns: the log gets the close tag, plus the note when out of order |
| SessionProperties.PushPopRoundTrip | lineprinter/__init__.py:111-124 | a pop after a push of the same name restores the stack and the indentation |
| SessionProperties.RemoveOnlyOccurrence | lineprinter/__init__.py:127 | removing the only occurrence is the same as filtering the name out |
| SessionProperties.PopUnique | lineprinter/__init__.py:115-127 | in a stack without repeats, both pop cases remove the name wherever it sits |
| SessionProperties.PushNotDeduplicated | lineprinter/__init__.py:112 | pushing a name twice puts it on the stack twice |
| SessionProperties.PopOlderOfTwo | lineprinter/__init__.py:125-130 | closing the older of two stacked modes leaves the younger one level deep and logs the close tag and the note |
| SessionProperties.OutOfOrderClose | lineprinter/__init__.py:111-130 | flip on, rotate on, flip off leaves only rotation active, one tab deep, with the four expected log lines |
| SessionProperties.OutOfOrderNote | lineprinter/__init__.py:128-130 | in that note the stack reads `['rotate-clockwise']` and the index reads `0` |
| SessionProperties.SetSizeDispatch | lineprinter/__init__.py:248-269 | a listed size code succeeds, sends exactly its signal, and leaves the slot holding its name, or empty for code 0; the stack, the other slot and the echo flag are unchanged |
| SessionProperties.SetSizeUnknown | lineprinter/__init__.py:251-261 | an unlisted size code fails with nothing written and nothing changed |
| SessionProperties.JustifyDispatch | lineprinter/__init__.py:221-243 | a listed justification code succeeds, sends exactly its signal, and sets the slot the same way |
| SessionProperties.JustifyUnknown | lineprinter/__init__.py:224-235 | an unlisted justification code fails with nothing written and nothing changed |
| SessionProperties.JustifyNamesSwapped | lineprinter/__init__.py:212-219 | `justifyRight` sends `1B 61 01` and opens "center"; `justifyCenter` sends `1B 61 02` and opens "right" |
| SessionProperties.NormalizeAccepts | lineprinter/__init__.py:195-210 | a toggle argument means on exactly for True or 1, and off exactly for False or 0 |
| SessionProperties.ToggleEffect | lineprinter/__init__.py:271-286 | `flip` and `rotateClockwise` push and send the on bytes, pop and send the off bytes, or fail without effect |
| SessionProperties.FeedsEffect | lineprinter/__init__.py:151-153 | k line feeds send k bytes `0A` and log k empty lines |
| SessionProperties.CutEffect | lineprinter/__init__.py:147-154 | `cut` sends `preCutFeedCount` bytes `0A`, then `1D 56 00`, and changes only the log |
| SessionProperties.EndEffect | lineprinter/__init__.py:156-160 | `end` clears the indentation and sends the cut bytes (six feeds by default) |
| SessionProperties.ResetEffect | lineprinter/__init__.py:162-169 | `reset` sends `1B 40` and clears only the indentation, keeping the stack and both slots |
| SessionProperties.WriteLineEffect | lineprinter/__init__.py:177-182 | `writeLine` sends the encoded text and a newline, and logs the text and an empty line |
| SessionProperties.WriteLinesEffect | lineprinter/__init__.py:191-193 | `writeLines` sends what one write of every line with its newline would send |
| SessionProperties.WriteCenteredEffect | lineprinter/__init__.py:184-189 | `writeCentered` sends the text centered to the width and a newline, and logs it inside `<center>` tags |
| SessionProperties.CenteredHi | lineprinter/__init__.py:39 | with the default width 42, "hi" gets twenty spaces on each side |
| SessionProperties.WriteOps | lineprinter/__init__.py:171-193 | the writing calls never fail, send bytes that depend only on their arguments, and change only the log |
| SessionProperties.InitialNested | lineprinter/__init__.py:66-87 | a new session has no open mode and no indentation |
| SessionProperties.ResetNested | lineprinter/__init__.py:156-169 | after `reset` or `end` the invariant holds exactly when no mode was open |
| SessionProperties.PushKeepsNested | lineprinter/__init__.py:111-113 | a push keeps the indentation at one tab per open mode |
| SessionProperties.PopKeepsNested | lineprinter/__init__.py:115-133 | a pop keeps the indentation at one tab per open mode |
| SessionProperties.OpenLevel | lineprinter/__init__.py:104-106 | echoing with one more tab goes one level deeper |
| SessionProperties.CloseLevel | lineprinter/__init__.py:101-109 | echoing with one tab less goes one level up and logs the text there, without a warning |
| SessionProperties.SetSizeKeepsNested | lineprinter/__init__.py:262-267 | a size change keeps the invariant |
| SessionProperties.JustifyKeepsNested | lineprinter/__init__.py:236-241 | a justification change keeps the invariant |
| SessionProperties.ToggleKeepsNested | lineprinter/__init__.py:195-210 | a toggle keeps the invariant |
| SessionProperties.ApplyKeepsNested | lineprinter/__init__.py:143-286 | every call except `reset` and `end` keeps the invariant |
| SessionProperties.RunKeepsNested | lineprinter/__init__.py:66-286 | after construction, the indentation stays at one tab per open toggle, size and justification mode for any sequence of calls without `reset` or `end` |
| SessionProperties.RunKeepsNestedAtRest | lineprinter/__init__.py:156-169 | the invariant survives any sequence of calls in which every `reset` and `end` that takes effect is made with no mode open |
| SessionProperties.QuietDedentTimes | lineprinter/__init__.py:138-141 | dedents do the same bookkeeping with echo on or off |
| SessionProperties.QuietEchoIf | lineprinter/__init__.py:98-109 | `_echo_if` does the same bookkeeping with echo on or off |
| SessionProperties.QuietPush | lineprinter/__init__.py:111-113 | a push does the same bookkeeping with echo on or off |
| SessionProperties.QuietEcho | lineprinter/__init__.py:98-100 | echoing changes only the log |
| SessionProperties.QuietDedent | lineprinter/__init__.py:138-141 | a dedent does the same bookkeeping with echo on or off |
| SessionProperties.QuietPop | lineprinter/__init__.py:115-133 | a pop does the same bookkeeping with echo on or off |
| SessionProperties.QuietSetSize | lineprinter/__init__.py:248-269 | `setSize` sends the same bytes and does the same bookkeeping with echo on or off |
| SessionProperties.QuietJustify | lineprinter/__init__.py:221-243 | `_justify` sends the same bytes and does the same bookkeeping with echo on or off |
| SessionProperties.QuietToggle | lineprinter/__init__.py:271-286 | a toggle sends the same bytes and does the same bookkeeping with echo on or off |
| SessionProperties.ApplyQuiet | lineprinter/__init__.py:143-286 | every call sends the same bytes and ends in the same bookkeeping with echo on or off |
| SessionProperties.RunIgnoresEcho | lineprinter/__init__.py:98-109 | two sessions that differ only in the echo flag and the log send the same bytes and keep the same bookkeeping for any sequence of calls |
| Printer.LinePrinter.constructor | lineprinter/__init__.py:39-87 | the width and feed count default to 42 and 6, the fields start empty, the port opens, and `reset` sends `1B 40` |
| Printer.LinePrinter.ReopenIfClosed | lineprinter/__init__.py:167-168 | afterwards the port is open and nothing has been written |
| Printer.LinePrinter.EchoIf | lineprinter/__init__.py:89-109 | the dedent and indent loops update the fields as `Session.EchoIf` |
| Printer.LinePrinter.IndentEcho | lineprinter/__init__.py:135-136 | adds one tab to the indentation and changes nothing else |
| Printer.LinePrinter.DedentEcho | lineprinter/__init__.py:138-141 | updates the fields as `Session.Dedent` |
| Printer.LinePrinter.PushFormat | lineprinter/__init__.py:111-113 | updates the fields as `Session.Push` |
| Printer.LinePrinter.PopFormat | lineprinter/__init__.py:115-133 | updates the fields as `Session.Pop` |
| Printer.LinePrinter.Close | lineprinter/__init__.py:143-145 | the port ends closed with nothing more written |
| Printer.LinePrinter.Cut | lineprinter/__init__.py:147-154 | the feed loop leaves the fields and the port as `Session.Cut` |
| Printer.LinePrinter.End | lineprinter/__init__.py:156-160 | fields and bytes as `Session.End`, and the port ends closed |
| Printer.LinePrinter.Reset | lineprinter/__init__.py:162-169 | fields and bytes as `Session.Reset`, and the port ends open |
| Printer.LinePrinter.LineFeed | lineprinter/__init__.py:171-175 | fields and bytes as `Session.LineFeed` |
| Printer.LinePrinter.WriteLine | lineprinter/__init__.py:177-182 | fields and bytes as `Session.WriteLine` |
| Printer.LinePrinter.WriteCentered | lineprinter/__init__.py:184-189 | fields and bytes as `Session.WriteCentered` |
| Printer.LinePrinter.WriteLines | lineprinter/__init__.py:191-193 | the loop leaves fields and bytes as `Session.WriteLines`; the port is reopened only if a line was written |
| Printer.LinePrinter.SetSize | lineprinter/__init__.py:248-269 | fields and bytes as `Session.SetSize`; on failure nothing changes but the reopened port |
| Printer.LinePrinter.Justify | lineprinter/__init__.py:221-243 | fields and bytes as `Session.Justify`; on failure nothing changes but the reopened port |
| Printer.LinePrinter.JustifyLeft | lineprinter/__init__.py:212-213 | always succeeds, as `Session.Justify` with code 0 |
| Printer.LinePrinter.JustifyRight | lineprinter/__init__.py:215-216 | always succeeds, as `Session.Justify` with code 1 (the centre entry) |
| Printer.LinePrinter.JustifyCenter | lineprinter/__init__.py:218-219 | always succeeds, as `Session.Justify` with code 2 (the right entry) |
| Printer.LinePrinter.Flip | lineprinter/__init__.py:271-286 | fields and bytes as `Session.Flip`; a rejected argument changes nothing but the reopened port |
| Printer.LinePrinter.RotateClockwise | lineprinter/__init__.py:195-210 | fields and bytes as `Session.RotateClockwise`; a rejected argument changes nothing but the reopened port |

## Left out

- The pyserial port itself: its construction, port name, baud rate, parity and timeout, `SerialException`, and the advice printed when the port cannot be opened (lines 2-7, 73-86). `Transport.SerialPort` keeps only the open flag and the written bytes.
- The guessing of port and baud (lines 46-62). It depends on the host OS and on `platform`, which is never imported. The constructor takes the width and the feed count, with the same defaults 42 and 6, and models only the field setup and the `reset`.
- `main()` (lines 288-295), which only prints.
- Standard output is the `echoed` log field, one entry per `print`.
- The exception types: `ValueError` from the toggles and the `NameError` from the undefined `on` in the unknown-code paths are both a failed `Outcome`, carrying the offending argument or code.
- A toggle argument is a `ToggleArg` by how Python's `is` and `==` see it. `IntArg(n)` stands for any number equal to the integer n, so `flip(1.0)` is `IntArg(1)` and pushes, as line 281 does. `OtherArg` stands for every value equal to neither 0 nor 1. Objects whose `__eq__` answers arbitrarily are outside the model.
- A size or justify code is its numeric value. `setSize(True)` and `setSize(10.0)` match entries 1 and 10 at line 255 because Python's `==` compares numbers by value, so they are `SetSize` with the integers 1 and 10. Non-integral numbers and other values match no entry, and neither does a code outside the table, so they fail the same way.
- Text.ListRepr: exact only for names without quotes, backslashes or unprintable characters, which holds for the two toggle names.
- Text.EncodeChar: Dafny characters are Unicode scalar values, so the strict UTF-8 encoder's error on lone surrogates cannot arise.
- `enableEcho` is a plain attribute that callers assign directly in `lineprinter/__init__.py`; `SetEchoOp` replays such an assignment.
- The hardware demo script `tests.py` is not part of this model.
