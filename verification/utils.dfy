/** packages/snap/src/utils.ts: `hexToArrayBuffer`, which turns a string of hex
    digit pairs into a byte buffer with `parseInt(pair, 16)` stored into a
    `Uint8Array`. Since `parseInt` is lenient, its behaviour on a pair is given
    in full: leading white space is skipped, a sign is read, a "0x" prefix is
    dropped, the longest run of hex digits is converted, and no digit at all
    is NaN; the `Uint8Array` store maps NaN to 0 and reduces modulo 256. */
module Utils {
  import opened Wrappers
  import opened Js
  import EthLib

  /** WhiteSpace and LineTerminator code points of ECMAScript, which
      `parseInt` skips at the start of its argument. */
  predicate IsJsWhiteSpace(c: char) {
    || c in {'\t', '\n', '\U{000B}', '\U{000C}', '\r', ' ', '\U{00A0}', '\U{1680}'}
    || c in {'\U{2028}', '\U{2029}', '\U{202F}', '\U{205F}', '\U{3000}', '\U{FEFF}'}
    || ('\U{2000}' <= c <= '\U{200A}')
  }

  function TrimStart(s: string): (t: string)
    ensures |t| <= |s|
  {
    if |s| > 0 && IsJsWhiteSpace(s[0]) then TrimStart(s[1..]) else s
  }

  predicate IsHexDigit(c: char) {
    ('0' <= c <= '9') || ('a' <= c <= 'f') || ('A' <= c <= 'F')
  }

  function DigitValue(c: char): (d: int)
    requires IsHexDigit(c)
    ensures 0 <= d < 16
  {
    if '0' <= c <= '9' then c as int - '0' as int
    else if 'a' <= c <= 'f' then c as int - 'a' as int + 10
    else c as int - 'A' as int + 10
  }

  /** The longest prefix of `s` made of hex digits. */
  function HexRun(s: string): (d: string)
    ensures |d| <= |s| && d == s[..|d|]
    ensures forall i :: 0 <= i < |d| ==> IsHexDigit(d[i])
  {
    if |s| > 0 && IsHexDigit(s[0]) then [s[0]] + HexRun(s[1..]) else ""
  }

  function HexValue(d: string): (v: nat)
    requires forall i :: 0 <= i < |d| ==> IsHexDigit(d[i])
  {
    if d == [] then 0 else HexValue(d[..|d| - 1]) * 16 + DigitValue(d[|d| - 1])
  }

  /** `parseInt(s, 16)`; `None` stands for NaN. */
  function ParseIntHex(s: string): Option<int> {
    var t := TrimStart(s);
    var sign := if |t| > 0 && t[0] == '-' then -1 else 1;
    var u := if |t| > 0 && (t[0] == '-' || t[0] == '+') then t[1..] else t;
    var w := if |u| >= 2 && u[0] == '0' && (u[1] == 'x' || u[1] == 'X') then u[2..] else u;
    var digits := HexRun(w);
    if digits == "" then None else Some(sign * HexValue(digits))
  }

  /** Storing a number into a `Uint8Array` element. */
  function ToUint8(n: Option<int>): uint8 {
    match n
    case None => 0
    case Some(v) => (v % 256) as uint8
  }

  /** Byte k of the buffer: `parseInt(input.substring(2k, 2k + 2), 16)` stored as a byte. */
  function PairByte(s: string, k: nat): uint8
    requires 2 * k + 2 <= |s|
  {
    ToUint8(ParseIntHex(s[2 * k..2 * k + 2]))
  }

  function DecodedBytes(s: string): (bytes: seq<uint8>)
    requires |s| % 2 == 0
  {
    seq(|s| / 2, k requires 0 <= k < |s| / 2 => PairByte(s, k))
  }

  /** `hexToArrayBuffer(input)`: a non-string is a TypeError, an odd length a
      RangeError; otherwise byte k holds the value of the k-th pair. */
  method HexToArrayBuffer(input: Json) returns (r: Result<seq<uint8>>)
    ensures !input.Str? ==> r == Err(TypeError("Expected input to be a string"))
    ensures input.Str? && |input.s| % 2 != 0 ==>
      r == Err(RangeError("Expected string to be an even number of characters"))
    ensures input.Str? && |input.s| % 2 == 0 ==> r.Ok? && |r.value| == |input.s| / 2
    ensures input.Str? && |input.s| % 2 == 0 ==>
      forall k :: 0 <= k < |r.value| ==> r.value[k] == PairByte(input.s, k)
  {
    if !input.Str? {
      return Err(TypeError("Expected input to be a string"));
    }
    var s := input.s;
    if |s| % 2 != 0 {
      return Err(RangeError("Expected string to be an even number of characters"));
    }
    var view := new uint8[|s| / 2];
    var i := 0;
    while i < |s|
      invariant 0 <= i <= |s| && i % 2 == 0
      invariant forall k :: 0 <= k < i / 2 ==> view[k] == PairByte(s, k)
    {
      view[i / 2] := ToUint8(ParseIntHex(s[i..i + 2]));
      i := i + 2;
    }
    r := Ok(view[..]);
  }

  /** A pair of hex digits is read as the two-digit hex number it spells. */
  lemma {:induction false} HexPairValue(a: char, b: char)
    requires IsHexDigit(a) && IsHexDigit(b)
    ensures ParseIntHex([a, b]) == Some(16 * DigitValue(a) + DigitValue(b))
  {
    var s := [a, b];
    assert TrimStart(s) == s;
    assert HexRun(s[1..]) == [b] by { assert HexRun(s[1..][1..]) == ""; }
    assert HexRun(s) == s;
    assert s[..1] == [a];
    assert HexValue([a]) == DigitValue(a) by { assert [a][..0] == ""; }
  }

  /** A pair of hex digits at positions 2k and 2k+1 gives the byte they spell. */
  lemma HexPairDecode(s: string, k: nat)
    requires 2 * k + 2 <= |s|
    requires IsHexDigit(s[2 * k]) && IsHexDigit(s[2 * k + 1])
    ensures PairByte(s, k) as int == 16 * DigitValue(s[2 * k]) + DigitValue(s[2 * k + 1])
  {
    assert s[2 * k..2 * k + 2] == [s[2 * k], s[2 * k + 1]];
    HexPairValue(s[2 * k], s[2 * k + 1]);
  }

  /** When every character is a hex digit, byte k equals the hex value of
      characters 2k and 2k+1. */
  lemma HexDigitsDecode(s: string, k: nat)
    requires |s| % 2 == 0 && 2 * k + 2 <= |s|
    requires forall i :: 0 <= i < |s| ==> IsHexDigit(s[i])
    ensures PairByte(s, k) as int == 16 * DigitValue(s[2 * k]) + DigitValue(s[2 * k + 1])
  {
    HexPairDecode(s, k);
  }

  lemma HexDigitsValues(i: nat)
    requires i < 16
    ensures IsHexDigit(EthLib.HexDigits[i]) && DigitValue(EthLib.HexDigits[i]) == i
  {
  }

  lemma {:induction false} HexEncodeAt(bytes: seq<uint8>, k: nat)
    requires k < |bytes|
    ensures EthLib.HexEncode(bytes)[2 * k..2 * k + 2]
         == [EthLib.HexDigits[bytes[k] as int / 16], EthLib.HexDigits[bytes[k] as int % 16]]
  {
    var s := EthLib.HexEncode(bytes);
    if k > 0 {
      HexEncodeAt(bytes[1..], k - 1);
      assert s == s[..2] + EthLib.HexEncode(bytes[1..]);
      assert s[2 * k..2 * k + 2] == EthLib.HexEncode(bytes[1..])[2 * (k - 1)..2 * (k - 1) + 2];
    }
  }

  /** The two lower-case digits of byte b decode to b. */
  lemma DigitPairByte(s: string, k: nat, b: int)
    requires 0 <= b < 256 && 2 * k + 2 <= |s|
    requires s[2 * k] == EthLib.HexDigits[b / 16] && s[2 * k + 1] == EthLib.HexDigits[b % 16]
    ensures PairByte(s, k) == b as uint8
  {
    var hi, lo := b / 16, b % 16;
    assert 16 * hi + lo == b;
    HexDigitsValues(hi);
    HexDigitsValues(lo);
    HexPairDecode(s, k);
  }

  lemma EncodedDigits(bytes: seq<uint8>, k: nat)
    requires k < |bytes|
    ensures 2 * k + 2 <= |EthLib.HexEncode(bytes)|
    ensures EthLib.HexEncode(bytes)[2 * k] == EthLib.HexDigits[bytes[k] as int / 16]
    ensures EthLib.HexEncode(bytes)[2 * k + 1] == EthLib.HexDigits[bytes[k] as int % 16]
  {
    var s := EthLib.HexEncode(bytes);
    HexEncodeAt(bytes, k);
    assert s[2 * k] == s[2 * k..2 * k + 2][0];
    assert s[2 * k + 1] == s[2 * k..2 * k + 2][1];
  }

  lemma EncodedPairByte(bytes: seq<uint8>, k: nat)
    requires k < |bytes|
    ensures 2 * k + 2 <= |EthLib.HexEncode(bytes)|
    ensures PairByte(EthLib.HexEncode(bytes), k) == bytes[k]
  {
    EncodedDigits(bytes, k);
    DigitPairByte(EthLib.HexEncode(bytes), k, bytes[k] as int);
  }

  /** hexToArrayBuffer inverts `Buffer#toString('hex')`: decoding the hex text
      of a byte sequence gives back the same bytes. */
  lemma {:induction false} DecodeInvertsHexEncode(bytes: seq<uint8>)
    ensures |EthLib.HexEncode(bytes)| % 2 == 0
    ensures DecodedBytes(EthLib.HexEncode(bytes)) == bytes
  {
    var s := EthLib.HexEncode(bytes);
    assert |s| / 2 == |bytes|;
    var d := DecodedBytes(s);
    forall k | 0 <= k < |bytes|
      ensures d[k] == bytes[k]
    {
      EncodedPairByte(bytes, k);
    }
    assert d == bytes;
  }
}
