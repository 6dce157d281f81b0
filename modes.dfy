/**
 * The two mode tables of the printer: ordered lists of (code, name, signal)
 * entries for character size and for justification. The size codes are the
 * printer's own protocol constants and are deliberately not contiguous.
 */
module Modes {
  import opened Results
  import opened Text

  datatype Mode = Mode(code: int, name: string, signal: seq<Byte>)

  const SizeNormal: int := 0
  const SizeTall: int := 1
  const SizeTaller: int := 2
  const SizeWide: int := 10
  const SizeWider: int := 20
  const SizeDouble: int := 11
  const SizeTriple: int := 22

  const SizeModes: seq<Mode> := [
    Mode(SizeNormal, "normal", [0x1D, 0x21, 0x00]),
    Mode(SizeTall, "tall", [0x1D, 0x21, 0x01]),
    Mode(SizeTaller, "taller", [0x1D, 0x21, 0x02]),
    Mode(SizeWide, "wide", [0x1D, 0x21, 0x10]),
    Mode(SizeWider, "wider", [0x1D, 0x21, 0x20]),
    Mode(SizeDouble, "big", [0x1D, 0x21, 0x11]),
    Mode(SizeTriple, "bigger", [0x1D, 0x21, 0x22])
  ]

  const JustifyLeft: int := 0
  const JustifyCenter: int := 1
  const JustifyRight: int := 2

  const JustifyModes: seq<Mode> := [
    Mode(JustifyLeft, "left", [0x1B, 0x61, 0x00]),
    Mode(JustifyCenter, "center", [0x1B, 0x61, 0x01]),
    Mode(JustifyRight, "right", [0x1B, 0x61, 0x02])
  ]

  predicate CodesUnique(table: seq<Mode>)
  {
    forall i, j :: 0 <= i < j < |table| ==> table[i].code != table[j].code
  }

  /** The first entry of `table` whose code is `code`, if there is one. */
  function Lookup(table: seq<Mode>, code: int): (r: Option<Mode>)
    ensures r.Some? <==> exists i :: 0 <= i < |table| && table[i].code == code
    ensures r.Some? ==> r.value in table && r.value.code == code
  {
    if table == [] then None
    else if table[0].code == code then Some(table[0])
    else Lookup(table[1..], code)
  }

  /** The lookup is first-match: earlier entries with other codes are skipped. */
  lemma {:induction false} LookupFirst(table: seq<Mode>, code: int, i: nat)
    requires i < |table| && table[i].code == code
    requires forall j :: 0 <= j < i ==> table[j].code != code
    ensures Lookup(table, code) == Some(table[i])
  {
    if i > 0 {
      LookupFirst(table[1..], code, i - 1);
    }
  }

  /** In a table without repeated codes, every entry is found by its own code. */
  lemma LookupUnique(table: seq<Mode>, i: nat)
    requires CodesUnique(table) && i < |table|
    ensures Lookup(table, table[i].code) == Some(table[i])
  {
    LookupFirst(table, table[i].code, i);
  }

  /**
   * The loop of `setSize` and `_justify`: scan the table in order and stop at
   * the first entry whose code matches.
   */
  method FindMode(table: seq<Mode>, code: int) returns (found: Option<Mode>)
    ensures found == Lookup(table, code)
  {
    found := None;
    var k := 0;
    while k < |table|
      invariant 0 <= k <= |table|
      invariant Lookup(table, code) == Lookup(table[k..], code)
    {
      if table[k].code == code {
        found := Some(table[k]);
        break;
      }
      assert table[k..][1..] == table[k + 1..];
      k := k + 1;
    }
  }

  lemma SizeCodesUnique()
    ensures CodesUnique(SizeModes)
  {
  }

  lemma JustifyCodesUnique()
    ensures CodesUnique(JustifyModes)
  {
  }

  /** The codes of a table, in table order. */
  function Codes(table: seq<Mode>): (r: seq<int>)
    ensures |r| == |table| && forall i :: 0 <= i < |table| ==> r[i] == table[i].code
  {
    seq(|table|, i requires 0 <= i < |table| => table[i].code)
  }

  /** A code is found exactly when some entry of the table carries it. */
  lemma LookupKnown(table: seq<Mode>, code: int)
    ensures Lookup(table, code).Some? <==> code in Codes(table)
  {
    var codes := Codes(table);
    if code in codes {
      var i :| 0 <= i < |codes| && codes[i] == code;
      assert table[i].code == code;
    }
  }

  /** Exactly the seven size codes 0, 1, 2, 10, 20, 11 and 22 are known. */
  lemma SizeCodesKnown(code: int)
    ensures Lookup(SizeModes, code).Some? <==> code in {0, 1, 2, 10, 20, 11, 22}
  {
    LookupKnown(SizeModes, code);
    assert Codes(SizeModes) == [0, 1, 2, 10, 20, 11, 22];
  }

  /** Exactly the three justification codes 0, 1 and 2 are known. */
  lemma JustifyCodesKnown(code: int)
    ensures Lookup(JustifyModes, code).Some? <==> code in {0, 1, 2}
  {
    LookupKnown(JustifyModes, code);
    assert Codes(JustifyModes) == [0, 1, 2];
  }

  /**
   * Every size signal is `GS ! n` where the byte n reads, in hexadecimal, as
   * the decimal code: the tens digit selects the width, the units digit the height.
   */
  lemma SizeSignalDigits(i: nat)
    requires i < |SizeModes|
    ensures var m := SizeModes[i];
      0 <= m.code < 100 &&
      m.signal == [0x1D, 0x21, (m.code / 10 * 16 + m.code % 10) as Byte]
  {
  }

  /** Every justification signal is `ESC a n` with n the justification code. */
  lemma JustifySignalCode(i: nat)
    requires i < |JustifyModes|
    ensures var m := JustifyModes[i];
      0 <= m.code < 3 && m.signal == [0x1B, 0x61, m.code as Byte]
  {
  }
}
