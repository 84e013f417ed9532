/** Strings as sequences of Unicode code points, lone surrogates included. */
module CodePoints {

  type CodePoint = c: int | 0 <= c < 0x11_0000

  type Text = seq<CodePoint>

  /** `str.isspace` on one code point. */
  predicate IsSpace(c: CodePoint) {
    0x09 <= c <= 0x0d || 0x1c <= c <= 0x20 || c == 0x85 || c == 0xa0 || c == 0x1680 ||
    0x2000 <= c <= 0x200a || c == 0x2028 || c == 0x2029 || c == 0x202f || c == 0x205f || c == 0x3000
  }

  predicate IsAsciiDigit(c: CodePoint) {
    0x30 <= c <= 0x39
  }

  /** The zeros of the decimal digit ranges outside ASCII, as of Unicode 14. */
  const DECIMAL_ZEROS: seq<int> := [
    0x660, 0x6f0, 0x7c0, 0x966, 0x9e6, 0xa66, 0xae6, 0xb66, 0xbe6, 0xc66, 0xce6, 0xd66, 0xde6, 0xe50, 0xed0,
    0xf20, 0x1040, 0x1090, 0x17e0, 0x1810, 0x1946, 0x19d0, 0x1a80, 0x1a90, 0x1b50, 0x1bb0, 0x1c40, 0x1c50,
    0xa620, 0xa8d0, 0xa900, 0xa9d0, 0xa9f0, 0xaa50, 0xabf0, 0xff10, 0x104a0, 0x10d30, 0x11066, 0x110f0,
    0x11136, 0x111d0, 0x112f0, 0x11450, 0x114d0, 0x11650, 0x116c0, 0x11730, 0x118e0, 0x11950, 0x11c50,
    0x11d50, 0x11da0, 0x16a60, 0x16ac0, 0x16b50, 0x1d7ce, 0x1d7d8, 0x1d7e2, 0x1d7ec, 0x1d7f6, 0x1e140,
    0x1e2f0, 0x1e950, 0x1fbf0]

  /** What `\d` matches in a Python string pattern. */
  predicate IsDigit(c: CodePoint) {
    IsAsciiDigit(c) ||
    (c >= 0x80 && exists i :: 0 <= i < |DECIMAL_ZEROS| && DECIMAL_ZEROS[i] <= c < DECIMAL_ZEROS[i] + 10)
  }

  predicate IsHexDigit(c: CodePoint) {
    IsAsciiDigit(c) || 0x41 <= c <= 0x46 || 0x61 <= c <= 0x66
  }

  function HexDigitValue(c: CodePoint): (v: nat)
    requires IsHexDigit(c)
    ensures v < 16
  {
    if IsAsciiDigit(c) then c - 0x30 else if c <= 0x46 then c - 0x41 + 10 else c - 0x61 + 10
  }

  function HexValue(h: Text): (v: CodePoint)
    requires |h| == 4 && forall c :: c in h ==> IsHexDigit(c)
    ensures v < 0x1_0000
  {
    ((HexDigitValue(h[0]) * 16 + HexDigitValue(h[1])) * 16 + HexDigitValue(h[2])) * 16 + HexDigitValue(h[3])
  }

  predicate IsHighSurrogate(c: CodePoint) {
    0xd800 <= c <= 0xdbff
  }

  predicate IsLowSurrogate(c: CodePoint) {
    0xdc00 <= c <= 0xdfff
  }
}
