/**
 * Text helpers the printer relies on: the UTF-8 encoding that `str.encode()`
 * performs before bytes reach the port, the centring that `str.center` performs,
 * and the decimal and list renderings that appear in debug annotations.
 */
module Text {

  newtype Byte = x: int | 0 <= x < 0x100

  /** A continuation byte `10xxxxxx` carrying the low six bits of `n`. */
  function Continuation(n: nat): Byte
  {
    (0x80 + n % 0x40) as Byte
  }

  /** The UTF-8 encoding of one Unicode scalar value (RFC 3629, section 3). */
  function EncodeChar(c: char): (r: seq<Byte>)
    ensures 1 <= |r| <= 4
    ensures |r| == 1 <==> c as int < 0x80
    ensures |r| == 1 ==> r[0] as int == c as int
  {
    var n := c as int;
    if n < 0x80 then [n as Byte]
    else if n < 0x800 then
      assert n / 0x40 < 0x20;
      [(0xC0 + n / 0x40) as Byte, Continuation(n)]
    else if n < 0x10000 then
      assert n / 0x1000 < 0x10;
      [(0xE0 + n / 0x1000) as Byte, Continuation(n / 0x40), Continuation(n)]
    else
      assert n / 0x40000 <= 4;
      [(0xF0 + n / 0x40000) as Byte, Continuation(n / 0x1000), Continuation(n / 0x40), Continuation(n)]
  }

  /** `text.encode()`: the UTF-8 bytes of a string, character by character. */
  function Encode(s: string): (r: seq<Byte>)
    ensures |s| <= |r| <= 4 * |s|
  {
    if s == [] then [] else EncodeChar(s[0]) + Encode(s[1..])
  }

  /** Encoding distributes over concatenation. */
  lemma {:induction false} EncodeAppend(a: string, b: string)
    ensures Encode(a + b) == Encode(a) + Encode(b)
  {
    if a == [] {
      assert a + b == b;
    } else {
      assert (a + b)[0] == a[0];
      assert (a + b)[1..] == a[1..] + b;
      EncodeAppend(a[1..], b);
    }
  }

  predicate IsAscii(s: string)
  {
    forall i :: 0 <= i < |s| ==> s[i] as int < 0x80
  }

  /** An ASCII string is sent as one byte per character, each byte the character's code. */
  lemma {:induction false} EncodeAscii(s: string)
    requires IsAscii(s)
    ensures |Encode(s)| == |s|
    ensures forall i :: 0 <= i < |s| ==> Encode(s)[i] as int == s[i] as int
  {
    if s != [] {
      assert IsAscii(s[1..]) by {
        forall i | 0 <= i < |s[1..]| ensures s[1..][i] as int < 0x80 {
          assert s[1..][i] == s[i + 1];
        }
      }
      EncodeAscii(s[1..]);
      forall i | 0 <= i < |s| ensures Encode(s)[i] as int == s[i] as int {
        if i > 0 {
          assert Encode(s)[i] == Encode(s[1..])[i - 1];
          assert s[1..][i - 1] == s[i];
        }
      }
    }
  }

  function Spaces(n: nat): (r: string)
    ensures |r| == n
    ensures forall i :: 0 <= i < n ==> r[i] == ' '
  {
    seq(n, _ => ' ')
  }

  function Max(a: int, b: int): int
  {
    if a < b then b else a
  }

  /**
   * The number of spaces `str.center(width)` puts before the text when the text
   * is shorter than `width`: CPython computes `marg / 2 + (marg & width & 1)`.
   */
  function LeftMargin(len: nat, width: int): nat
    requires len < width
  {
    var marg := width - len;
    marg / 2 + (if marg % 2 == 1 && width % 2 == 1 then 1 else 0)
  }

  /** `text.center(width)` with the default fill character, a space. */
  function Centered(text: string, width: int): string
  {
    if width <= |text| then text
    else
      var left := LeftMargin(|text|, width);
      Spaces(left) + text + Spaces(width - |text| - left)
  }

  /**
   * A centred string is exactly `max(width, |text|)` long, holds `text` at the
   * left margin, spaces elsewhere, and the two margins differ by at most one.
   */
  lemma CenteredLayout(text: string, width: int)
    ensures var r := Centered(text, width);
      var left := if width <= |text| then 0 else LeftMargin(|text|, width);
      && |r| == Max(width, |text|)
      && left + |text| <= |r|
      && r[left..left + |text|] == text
      && (forall i :: 0 <= i < left ==> r[i] == ' ')
      && (forall i :: left + |text| <= i < |r| ==> r[i] == ' ')
      && -1 <= (|r| - |text| - left) - left <= 1
  {
    var r := Centered(text, width);
    if width > |text| {
      var left := LeftMargin(|text|, width);
      assert r == Spaces(left) + text + Spaces(width - |text| - left);
      assert r[left..left + |text|] == text;
    }
  }

  function Digit(d: nat): char
    requires d < 10
  {
    "0123456789"[d]
  }

  /** `str(n)` for a non-negative integer. */
  function NatToString(n: nat): (r: string)
    ensures |r| >= 1
    decreases n
  {
    if n < 10 then [Digit(n)] else NatToString(n / 10) + [Digit(n % 10)]
  }

  /** `repr(s)` of a string without quotes, backslashes or unprintable characters. */
  function Quoted(s: string): string
  {
    "'" + s + "'"
  }

  function JoinQuoted(xs: seq<string>): string
  {
    if |xs| == 0 then ""
    else if |xs| == 1 then Quoted(xs[0])
    else Quoted(xs[0]) + ", " + JoinQuoted(xs[1..])
  }

  /** `repr(xs)` of a list of such strings, as `str.format` renders it. */
  function ListRepr(xs: seq<string>): string
  {
    "[" + JoinQuoted(xs) + "]"
  }
}
