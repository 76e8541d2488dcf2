// Go's `for _, c := range s`: decoding a byte string as UTF-8 (RFC 3629, sections 3 and 4), where a byte
// that starts no well-formed sequence yields U+FFFD and is skipped alone.

module Utf8 {

  type Byte = b: int | 0 <= b < 256

  const RUNE_ERROR := 0xFFFD

  /** One step of the range loop: the code point and how many bytes it took. */
  datatype Decoded = Decoded(code: int, width: nat)

  /** Unicode scalar values: the code points that have a UTF-8 encoding. */
  predicate IsScalar(code: int) {
    0 <= code < 0xD800 || 0xE000 <= code < 0x11_0000
  }

  predicate IsContinuation(b: Byte) {
    0x80 <= b < 0xC0
  }

  /** The sequence length that a first byte announces; 0 for a byte that cannot start a sequence. */
  function SequenceLength(first: Byte): (n: nat)
    ensures n <= 4
  {
    if first < 0x80 then 1
    else if 0xC2 <= first < 0xE0 then 2
    else if 0xE0 <= first < 0xF0 then 3
    else if 0xF0 <= first < 0xF5 then 4
    else 0
  }

  /** The range allowed for the second byte: it excludes overlong forms, surrogates and values above
      U+10FFFF. */
  predicate SecondAllowed(first: Byte, second: Byte) {
    && IsContinuation(second)
    && (first == 0xE0 ==> 0xA0 <= second)
    && (first == 0xED ==> second < 0xA0)
    && (first == 0xF0 ==> 0x90 <= second)
    && (first == 0xF4 ==> second < 0x90)
  }

  predicate StartsWellFormed(s: seq<Byte>) {
    && s != []
    && var n := SequenceLength(s[0]);
    && 1 <= n <= |s|
    && (n > 1 ==> SecondAllowed(s[0], s[1]))
    && (n > 2 ==> IsContinuation(s[2]))
    && (n > 3 ==> IsContinuation(s[3]))
  }

  /** The payload of a continuation byte. */
  function Low6(b: Byte): int {
    b - 0x80
  }

  function Join2(high: int, low: int): int {
    high * 0x40 + low
  }

  /** utf8.DecodeRune on a non-empty string. */
  function DecodeRune(s: seq<Byte>): (d: Decoded)
    requires s != []
    ensures 1 <= d.width <= |s|
    ensures s[0] < 0x80 ==> d == Decoded(s[0], 1)
    ensures s[0] >= 0x80 ==> d.code >= 0x80 && forall i | 0 <= i < d.width :: s[i] >= 0x80
  {
    if !StartsWellFormed(s) then Decoded(RUNE_ERROR, 1)
    else match SequenceLength(s[0])
      case 1 => Decoded(s[0], 1)
      case 2 => Decoded(Join2(s[0] - 0xC0, Low6(s[1])), 2)
      case 3 => Decoded(Join2(Join2(s[0] - 0xE0, Low6(s[1])), Low6(s[2])), 3)
      case _ => Decoded(Join2(Join2(Join2(s[0] - 0xF0, Low6(s[1])), Low6(s[2])), Low6(s[3])), 4)
  }

  /** The code points a range loop over `s` visits. */
  function Range(s: seq<Byte>): seq<int> {
    if s == [] then []
    else var d := DecodeRune(s); [d.code] + Range(s[d.width..])
  }

  // ---------------------------------------------------------------- the encoder as reference

  /** The table of section 3 of RFC 3629. */
  function Encode(code: int): (r: seq<Byte>)
    requires IsScalar(code)
    ensures 1 <= |r| <= 4
  {
    if code < 0x80 then [code]
    else if code < 0x800 then [0xC0 + code / 0x40, 0x80 + code % 0x40]
    else if code < 0x1_0000 then [0xE0 + code / 0x1000, 0x80 + code / 0x40 % 0x40, 0x80 + code % 0x40]
    else [0xF0 + code / 0x4_0000, 0x80 + code / 0x1000 % 0x40, 0x80 + code / 0x40 % 0x40, 0x80 + code % 0x40]
  }

  function EncodeAll(codes: seq<int>): seq<Byte>
    requires forall c | c in codes :: IsScalar(c)
  {
    if codes == [] then [] else Encode(codes[0]) + EncodeAll(codes[1..])
  }

  /** Decoding undoes encoding, whatever bytes follow. */
  lemma DecodeEncode(code: int, rest: seq<Byte>)
    requires IsScalar(code)
    ensures StartsWellFormed(Encode(code) + rest)
    ensures DecodeRune(Encode(code) + rest) == Decoded(code, |Encode(code)|)
  {
    var s := Encode(code) + rest;
    assert forall i | 0 <= i < |Encode(code)| :: s[i] == Encode(code)[i];
    SplitsInSixes(code);
    assert StartsWellFormed(s);
  }

  lemma SplitsInSixes(code: int)
    requires code >= 0
    ensures code == Join2(code / 0x40, code % 0x40)
    ensures code / 0x40 == Join2(code / 0x1000, code / 0x40 % 0x40)
    ensures code / 0x1000 == Join2(code / 0x4_0000, code / 0x1000 % 0x40)
  {
  }

  lemma Join2Splits(high: int, low: int)
    requires 0 <= low < 0x40
    ensures Join2(high, low) / 0x40 == high && Join2(high, low) % 0x40 == low
  {
  }

  lemma Divide2(code: int)
    ensures code / 0x1000 == code / 0x40 / 0x40
    ensures code / 0x4_0000 == code / 0x40 / 0x40 / 0x40
  {
  }

  /** Conversely, the decoder takes a sequence only when it is the encoding of the code point it reports. */
  lemma EncodeDecode(s: seq<Byte>)
    requires StartsWellFormed(s)
    ensures IsScalar(DecodeRune(s).code)
    ensures Encode(DecodeRune(s).code) == s[..DecodeRune(s).width]
  {
    var code := DecodeRune(s).code;
    Divide2(code);
    match SequenceLength(s[0])
    case 1 =>
    case 2 =>
      Join2Splits(s[0] - 0xC0, Low6(s[1]));
    case 3 =>
      var high := Join2(s[0] - 0xE0, Low6(s[1]));
      Join2Splits(s[0] - 0xE0, Low6(s[1]));
      Join2Splits(high, Low6(s[2]));
    case _ =>
      var high := Join2(s[0] - 0xF0, Low6(s[1]));
      Join2Splits(s[0] - 0xF0, Low6(s[1]));
      Join2Splits(high, Low6(s[2]));
      Join2Splits(Join2(high, Low6(s[2])), Low6(s[3]));
  }

  /** The whole decoder against the encoder: where the bytes start with the encoding of a scalar value, that one is decoded and
      all of its bytes are taken; otherwise the first byte alone is taken, for U+FFFD. */
  lemma DecodeIsExact(s: seq<Byte>)
    requires s != []
    ensures var d := DecodeRune(s);
            if exists code :: IsScalar(code) && Encode(code) <= s
            then IsScalar(d.code) && Encode(d.code) <= s && d.width == |Encode(d.code)|
            else d == Decoded(0xFFFD, 1)
  {
    forall code | IsScalar(code) && Encode(code) <= s ensures StartsWellFormed(s) {
      assert s == Encode(code) + s[|Encode(code)|..];
      DecodeEncode(code, s[|Encode(code)|..]);
    }
    if StartsWellFormed(s) {
      EncodeDecode(s);
    }
  }

  /** A range loop over the encoding of a text visits exactly that text. */
  lemma {:induction false} RangeOfEncoded(codes: seq<int>)
    requires forall c | c in codes :: IsScalar(c)
    ensures Range(EncodeAll(codes)) == codes
  {
    if codes != [] {
      var rest := EncodeAll(codes[1..]);
      DecodeEncode(codes[0], rest);
      assert (Encode(codes[0]) + rest)[|Encode(codes[0])|..] == rest;
      RangeOfEncoded(codes[1..]);
    }
  }

  // ---------------------------------------------------------------- ASCII passes through

  function AsciiOnly(s: seq<int>): seq<int> {
    if s == [] then []
    else if 0 <= s[0] < 0x80 then [s[0]] + AsciiOnly(s[1..])
    else AsciiOnly(s[1..])
  }

  lemma {:induction false} AsciiOnlySkips(s: seq<int>, k: nat)
    requires k <= |s| && forall i | 0 <= i < k :: s[i] >= 0x80
    ensures AsciiOnly(s) == AsciiOnly(s[k..])
  {
    if k > 0 {
      AsciiOnlySkips(s[1..], k - 1);
      assert s[1..][k - 1..] == s[k..];
    }
  }

  lemma {:induction false} AsciiOnlyConcat(a: seq<int>, b: seq<int>)
    ensures AsciiOnly(a + b) == AsciiOnly(a) + AsciiOnly(b)
  {
    if a == [] {
      assert a + b == b;
    } else {
      assert (a + b)[1..] == a[1..] + b;
      AsciiOnlyConcat(a[1..], b);
    }
  }

  /** Decoding neither hides an ASCII byte nor invents one, also on malformed input. */
  lemma {:induction false} RangeKeepsAscii(s: seq<Byte>)
    ensures AsciiOnly(Range(s)) == AsciiOnly(s)
    decreases |s|
  {
    if s != [] {
      var d := DecodeRune(s);
      RangeKeepsAscii(s[d.width..]);
      assert ([d.code] + Range(s[d.width..]))[1..] == Range(s[d.width..]);
      if s[0] >= 0x80 {
        AsciiOnlySkips(s, d.width);
      }
    }
  }

  /** Hence the ASCII part of a stream does not depend on where the stream is cut. */
  lemma AsciiOfSplit(a: seq<Byte>, b: seq<Byte>)
    ensures AsciiOnly(Range(a + b)) == AsciiOnly(Range(a) + Range(b))
  {
    RangeKeepsAscii(a + b);
    RangeKeepsAscii(a);
    RangeKeepsAscii(b);
    AsciiOnlyConcat(a, b);
    AsciiOnlyConcat(Range(a), Range(b));
  }
}
