/** Bytes as hexadecimal text and back (broker.rs `encode_hex`, `decode_hex`): section 8 of RFC 4648, in
    lower case on the way out and either case on the way in. Text is the bytes of its UTF-8 form. */
module Hex {
  import opened Kube

  type Byte = b: nat | b < 256

  const DIGITS: seq<Byte> := [48, 49, 50, 51, 52, 53, 54, 55, 56, 57, 97, 98, 99, 100, 101, 102]

  /** The value of one hexadecimal digit. */
  function ToDigit(c: Byte): (digit: Option<nat>)
    ensures digit.Some? ==> digit.value < 16
  {
    if 48 <= c <= 57 then Some(c - 48)
    else if 97 <= c <= 102 then Some(c - 87)
    else if 65 <= c <= 70 then Some(c - 55)
    else None
  }

  /** A digit as `encode_hex` would have written it. */
  function Lower(c: Byte): Byte {
    if 65 <= c <= 90 then c + 32 else c
  }

  /** The two digits of one byte. */
  function Digits(b: Byte): seq<Byte> {
    [DIGITS[b / 16], DIGITS[b % 16]]
  }

  /** The byte two digits stand for. */
  function Joined(high: Byte, low: Byte): Option<Byte> {
    if ToDigit(high).Some? && ToDigit(low).Some?
    then Some(ToDigit(high).value * 16 + ToDigit(low).value) else None
  }

  /** What the text of `bytes` is. */
  function Encoded(bytes: seq<Byte>): seq<Byte> {
    if bytes == [] then [] else Encoded(bytes[..|bytes| - 1]) + Digits(bytes[|bytes| - 1])
  }

  /** The bytes `text` is hexadecimal for, if it is hexadecimal at all. */
  function Decoded(text: seq<Byte>): Option<seq<Byte>> {
    if text == [] then Some([])
    else if |text| == 1 then None
    else
      var front, last := Decoded(text[..|text| - 2]), Joined(text[|text| - 2], text[|text| - 1]);
      if front.Some? && last.Some? then Some(front.value + [last.value]) else None
  }

  /** Decoding undoes encoding. */
  lemma {:induction false} DecodeEncode(bytes: seq<Byte>)
    ensures |Encoded(bytes)| == 2 * |bytes| && Decoded(Encoded(bytes)) == Some(bytes)
  {
    hide Digits, Joined;
    if bytes != [] {
      var front, last := bytes[..|bytes| - 1], bytes[|bytes| - 1];
      DecodeEncode(front);
      DigitsJoin(last);
      assert Encoded(bytes)[..|Encoded(bytes)| - 2] == Encoded(front);
      assert front + [last] == bytes;
    }
  }

  lemma DigitsJoin(b: Byte)
    ensures |Digits(b)| == 2 && Joined(Digits(b)[0], Digits(b)[1]) == Some(b)
  {
    DigitReads(b / 16);
    DigitReads(b % 16);
  }

  lemma DigitReads(d: nat)
    requires d < 16
    ensures ToDigit(DIGITS[d]) == Some(d)
  {
    if d < 10 { assert DIGITS[d] == 48 + d; } else { assert DIGITS[d] == 87 + d; }
  }

  /** One of `0` to `9`, `a` to `f` and `A` to `F`. */
  predicate IsDigit(c: Byte) {
    0x30 <= c <= 0x39 || 0x61 <= c <= 0x66 || 0x41 <= c <= 0x46
  }

  predicate AllDigits(text: seq<Byte>) {
    forall c :: c in text ==> IsDigit(c)
  }

  lemma DigitsAre()
    ensures forall c :: IsDigit(c) <==> ToDigit(c).Some?
  {
  }

  /** Decoding accepts exactly the texts of even length made of hexadecimal digits. */
  lemma {:induction false} Accepts(text: seq<Byte>)
    ensures Decoded(text).Some? <==> |text| % 2 == 0 && AllDigits(text)
    decreases |text|
  {
    hide ToDigit, IsDigit;
    DigitsAre();
    if |text| >= 2 {
      var front, high, low := text[..|text| - 2], text[|text| - 2], text[|text| - 1];
      Accepts(front);
      assert text == front + [high, low];
      assert high in text && low in text;
    } else if |text| == 1 {
      assert text[0] in text;
    }
  }

  /** `text` as `encode_hex` would have written it. */
  function Lowered(text: seq<Byte>): seq<Byte> {
    if |text| < 2 then []
    else Lowered(text[..|text| - 2]) + [Lower(text[|text| - 2]), Lower(text[|text| - 1])]
  }

  /** Encoding the bytes a text decodes to gives the text back in lower case. */
  lemma {:induction false} EncodeDecode(text: seq<Byte>)
    requires Decoded(text).Some?
    ensures Encoded(Decoded(text).value) == Lowered(text)
    decreases |text|
  {
    hide Digits, Joined, Lower;
    if |text| >= 2 {
      var front, high, low := text[..|text| - 2], text[|text| - 2], text[|text| - 1];
      EncodeDecode(front);
      JoinedDigits(high, low);
      var bytes := Decoded(text).value;
      assert bytes[..|bytes| - 1] == Decoded(front).value;
    }
  }

  lemma JoinedDigits(high: Byte, low: Byte)
    requires Joined(high, low).Some?
    ensures Digits(Joined(high, low).value) == [Lower(high), Lower(low)]
  {
    hide ToDigit, Lower;
    DigitWrites(high);
    DigitWrites(low);
    Halves(ToDigit(high).value, ToDigit(low).value);
  }

  lemma Halves(high: nat, low: nat)
    requires high < 16 && low < 16
    ensures (high * 16 + low) / 16 == high && (high * 16 + low) % 16 == low
  {
  }

  lemma DigitWrites(c: Byte)
    requires ToDigit(c).Some?
    ensures DIGITS[ToDigit(c).value] == Lower(c)
  {
    var d := ToDigit(c).value;
    if d < 10 { assert DIGITS[d] == 48 + d; } else { assert DIGITS[d] == 87 + d; }
  }

  method EncodeHex(bytes: seq<Byte>) returns (text: seq<Byte>)
    ensures text == Encoded(bytes)
    ensures Decoded(text) == Some(bytes)
  {
    text := [];
    for i := 0 to |bytes|
      invariant text == Encoded(bytes[..i])
    {
      assert bytes[..i + 1][..i] == bytes[..i];
      text := text + [DIGITS[bytes[i] / 16]];
      text := text + [DIGITS[bytes[i] % 16]];
    }
    assert bytes[..|bytes|] == bytes;
    DecodeEncode(bytes);
  }

  /** A digit that is not one ends the loop early, as `?` does. */
  method DecodeHex(text: seq<Byte>) returns (bytes: Option<seq<Byte>>)
    ensures bytes == Decoded(text)
    ensures bytes.Some? <==> |text| % 2 == 0 && AllDigits(text)
  {
    Accepts(text);
    DigitsAre();
    if |text| % 2 != 0 { return None; }
    var sofar: seq<Byte> := [];
    var i := 0;
    while i < |text|
      invariant 0 <= i <= |text| && i % 2 == 0
      invariant Decoded(text[..i]) == Some(sofar)
    {
      assert text[..i + 2][..i] == text[..i];
      var high := ToDigit(text[i]);
      if high.None? {
        assert text[i] in text;
        return None;
      }
      var low := ToDigit(text[i + 1]);
      if low.None? {
        assert text[i + 1] in text;
        return None;
      }
      sofar := sofar + [high.value * 16 + low.value];
      i := i + 2;
    }
    assert text[..|text|] == text;
    return Some(sofar);
  }
}
