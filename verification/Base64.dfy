// Standard padded base64 (RFC 4648 section 4), decoded the way Go's decoder reads
// it: line breaks are skipped wherever they stand, and a strict decoder also
// refuses stray trailing bits (section 3.5).
module Base64 {
  import opened Wrappers

  type byte = b: int | 0 <= b < 256
  type sextet = v: int | 0 <= v < 64

  const PAD: byte := 61
  const LF: byte := 10
  const CR: byte := 13

  function Letter(v: sextet): (c: byte)
    ensures c != PAD && c != LF && c != CR && 0x21 <= c <= 0x7E
  {
    if v < 26 then 65 + v
    else if v < 52 then 97 + v - 26
    else if v < 62 then 48 + v - 52
    else if v == 62 then 43
    else 47
  }

  function Value(c: byte): (r: Option<sextet>)
    ensures r.Some? ==> c != PAD && Letter(r.value) == c
  {
    if 65 <= c <= 90 then Some(c - 65)
    else if 97 <= c <= 122 then Some(c - 97 + 26)
    else if 48 <= c <= 57 then Some(c - 48 + 52)
    else if c == 43 then Some(62)
    else if c == 47 then Some(63)
    else None
  }

  lemma ValueOfLetter(v: sextet)
    ensures Value(Letter(v)) == Some(v)
  {
  }

  // Three bytes as four sextets, and back.
  function Split(a: byte, b: byte, c: byte): (sextet, sextet, sextet, sextet) {
    (a / 4, a % 4 * 16 + b / 16, b % 16 * 4 + c / 64, c % 64)
  }

  function Join(v0: sextet, v1: sextet, v2: sextet, v3: sextet): (byte, byte, byte) {
    (v0 * 4 + v1 / 16, v1 % 16 * 16 + v2 / 4, v2 % 4 * 64 + v3)
  }

  lemma ByFour(high: nat, low: nat)
    requires low < 4
    ensures (high * 4 + low) / 4 == high && (high * 4 + low) % 4 == low
  {
  }

  lemma BySixteen(high: nat, low: nat)
    requires low < 16
    ensures (high * 16 + low) / 16 == high && (high * 16 + low) % 16 == low
  {
  }

  lemma BySixtyFour(high: nat, low: nat)
    requires low < 64
    ensures (high * 64 + low) / 64 == high && (high * 64 + low) % 64 == low
  {
  }

  lemma JoinSplit(a: byte, b: byte, c: byte)
    ensures var (v0, v1, v2, v3) := Split(a, b, c); Join(v0, v1, v2, v3) == (a, b, c)
    ensures b == 0 ==> Split(a, b, c).1 % 16 == 0
    ensures c == 0 ==> Split(a, b, c).2 % 4 == 0
  {
    BySixteen(a % 4, b / 16);
    ByFour(b % 16, c / 64);
  }

  lemma SplitJoin(v0: sextet, v1: sextet, v2: sextet, v3: sextet)
    ensures var (a, b, c) := Join(v0, v1, v2, v3); Split(a, b, c) == (v0, v1, v2, v3)
  {
    ByFour(v0, v1 / 16);
    BySixteen(v1 % 16, v2 / 4);
    BySixtyFour(v2 % 4, v3);
  }

  // The four letters of a full group of three bytes.
  function Quantum(a: byte, b: byte, c: byte): seq<byte> {
    var (v0, v1, v2, v3) := Split(a, b, c);
    [Letter(v0), Letter(v1), Letter(v2), Letter(v3)]
  }

  function Encode(bytes: seq<byte>): seq<byte> {
    if |bytes| == 0 then []
    else if |bytes| == 1 then Quantum(bytes[0], 0, 0)[..2] + [PAD, PAD]
    else if |bytes| == 2 then Quantum(bytes[0], bytes[1], 0)[..3] + [PAD]
    else Quantum(bytes[0], bytes[1], bytes[2]) + Encode(bytes[3..])
  }

  function WithoutBreaks(text: seq<byte>): seq<byte> {
    if text == [] then []
    else if text[0] == LF || text[0] == CR then WithoutBreaks(text[1..])
    else [text[0]] + WithoutBreaks(text[1..])
  }

  function DecodeQuanta(text: seq<byte>, strict: bool): Option<seq<byte>> {
    if text == [] then Some([])
    else if |text| < 4 then None
    else
      var v0, v1, v2, v3 := Value(text[0]), Value(text[1]), Value(text[2]), Value(text[3]);
      if v0.None? || v1.None? then None
      else if text[2] == PAD then
        if text[3] == PAD && |text| == 4 && (strict ==> v1.value % 16 == 0)
        then Some([Join(v0.value, v1.value, 0, 0).0])
        else None
      else if v2.None? then None
      else if text[3] == PAD then
        if |text| == 4 && (strict ==> v2.value % 4 == 0)
        then var (a, b, _) := Join(v0.value, v1.value, v2.value, 0); Some([a, b])
        else None
      else if v3.None? then None
      else
        var rest := DecodeQuanta(text[4..], strict);
        if rest.None? then None
        else var (a, b, c) := Join(v0.value, v1.value, v2.value, v3.value); Some([a, b, c] + rest.value)
  }

  function Decode(text: seq<byte>, strict: bool): Option<seq<byte>> {
    DecodeQuanta(WithoutBreaks(text), strict)
  }

  predicate Unbroken(text: seq<byte>) {
    forall i :: 0 <= i < |text| ==> text[i] != LF && text[i] != CR
  }

  lemma {:induction false} UnbrokenStands(text: seq<byte>)
    requires Unbroken(text)
    ensures WithoutBreaks(text) == text
  {
    if text == [] {
    } else {
      UnbrokenStands(text[1..]);
    }
  }

  // What an encoder writes is printable, so no line break is ever in it.
  lemma {:induction false} EncodeIsPrintable(bytes: seq<byte>)
    ensures forall i :: 0 <= i < |Encode(bytes)| ==> 0x21 <= Encode(bytes)[i] <= 0x7E
  {
    if |bytes| <= 2 {
    } else {
      EncodeIsPrintable(bytes[3..]);
    }
  }

  lemma QuantumLetters(a: byte, b: byte, c: byte)
    ensures var (v0, v1, v2, v3) := Split(a, b, c);
            var q := Quantum(a, b, c);
            && Value(q[0]) == Some(v0) && Value(q[1]) == Some(v1) && Value(q[2]) == Some(v2) && Value(q[3]) == Some(v3)
            && q[2] != PAD && q[3] != PAD
  {
    var (v0, v1, v2, v3) := Split(a, b, c);
    ValueOfLetter(v0);
    ValueOfLetter(v1);
    ValueOfLetter(v2);
    ValueOfLetter(v3);
  }

  lemma QuantumDecodes(a: byte, b: byte, c: byte, text: seq<byte>, rest: seq<byte>, strict: bool)
    requires DecodeQuanta(text, strict) == Some(rest)
    ensures DecodeQuanta(Quantum(a, b, c) + text, strict) == Some([a, b, c] + rest)
  {
    QuantumLetters(a, b, c);
    JoinSplit(a, b, c);
    assert (Quantum(a, b, c) + text)[4..] == text;
  }

  lemma Led(bytes: seq<byte>)
    requires |bytes| > 2
    ensures bytes == [bytes[0], bytes[1], bytes[2]] + bytes[3..]
  {
  }

  lemma PairDecodes(a: byte, b: byte, strict: bool)
    ensures DecodeQuanta(Quantum(a, b, 0)[..3] + [PAD], strict) == Some([a, b])
  {
    QuantumLetters(a, b, 0);
    JoinSplit(a, b, 0);
  }

  lemma ByteDecodes(a: byte, strict: bool)
    ensures DecodeQuanta(Quantum(a, 0, 0)[..2] + [PAD, PAD], strict) == Some([a])
  {
    QuantumLetters(a, 0, 0);
    JoinSplit(a, 0, 0);
  }

  lemma {:induction false} QuantaRoundTrip(bytes: seq<byte>, strict: bool)
    ensures DecodeQuanta(Encode(bytes), strict) == Some(bytes)
  {
    if |bytes| > 2 {
      QuantaRoundTrip(bytes[3..], strict);
      QuantumDecodes(bytes[0], bytes[1], bytes[2], Encode(bytes[3..]), bytes[3..], strict);
      Led(bytes);
    } else if |bytes| == 2 {
      PairDecodes(bytes[0], bytes[1], strict);
      assert bytes == [bytes[0], bytes[1]];
    } else if |bytes| == 1 {
      ByteDecodes(bytes[0], strict);
      assert bytes == [bytes[0]];
    }
  }

  // Decoding recovers every byte string, strictly or not.
  lemma RoundTrip(bytes: seq<byte>, strict: bool)
    ensures Decode(Encode(bytes), strict) == Some(bytes)
  {
    EncodeIsPrintable(bytes);
    UnbrokenStands(Encode(bytes));
    QuantaRoundTrip(bytes, strict);
  }

  // A strict decoder reads one spelling of each byte string: the encoder's.
  lemma {:induction false} StrictIsCanonical(text: seq<byte>)
    requires DecodeQuanta(text, true).Some?
    ensures Encode(DecodeQuanta(text, true).value) == text
  {
    if text == [] {
    } else {
      var v0, v1 := Value(text[0]).value, Value(text[1]).value;
      if text[2] == PAD {
        SplitJoin(v0, v1, 0, 0);
        assert Join(v0, v1, 0, 0) == (Join(v0, v1, 0, 0).0, 0, 0);
        assert text == [text[0], text[1], PAD, PAD];
      } else if text[3] == PAD {
        var v2 := Value(text[2]).value;
        SplitJoin(v0, v1, v2, 0);
        assert text == [text[0], text[1], text[2], PAD];
      } else {
        SplitJoin(v0, v1, Value(text[2]).value, Value(text[3]).value);
        StrictIsCanonical(text[4..]);
        assert DecodeQuanta(text, true).value[3..] == DecodeQuanta(text[4..], true).value;
        assert text == [text[0], text[1], text[2], text[3]] + text[4..];
      }
    }
  }
}
