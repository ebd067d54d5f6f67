// Header values: the server's encoder and decoder (transport/headervalue.go) and the
// client's own encoder (client/headers.go), which share one wire form.
module HeaderValue {
  import opened Wrappers
  import opened Base64

  datatype Fault = NotAFieldValue | NotBase64

  // "=?base64?" and "?=".
  const PREFIX: seq<byte> := [61, 63, 98, 97, 115, 101, 54, 52, 63]
  const SUFFIX: seq<byte> := [63, 61]

  // The one value whose markers overlap: "=?base64?=".
  const OVERLAPPING: seq<byte> := PREFIX + [61]

  predicate HasPrefix(value: seq<byte>, prefix: seq<byte>) {
    |prefix| <= |value| && value[..|prefix|] == prefix
  }

  predicate HasSuffix(value: seq<byte>, suffix: seq<byte>) {
    |suffix| <= |value| && value[|value| - |suffix|..] == suffix
  }

  predicate Visible(b: byte) {
    0x21 <= b <= 0x7E
  }

  predicate Spacing(b: byte) {
    b == 0x20 || b == 0x09
  }

  function Wrap(value: seq<byte>): seq<byte> {
    PREFIX + Encode(value) + SUFFIX
  }

  // ----- The server's side -----

  predicate IsSentinelWrapped(value: seq<byte>) {
    |value| >= |PREFIX| + |SUFFIX| && HasPrefix(value, PREFIX) && HasSuffix(value, SUFFIX)
  }

  predicate IsLiteral(value: seq<byte>) {
    && value != []
    && forall i :: 0 <= i < |value| ==>
         Visible(value[i]) || (Spacing(value[i]) && !(i == 0 || i == |value| - 1))
  }

  function EncodeHeaderValue(value: seq<byte>): seq<byte> {
    if !IsSentinelWrapped(value) && IsLiteral(value) then value else Wrap(value)
  }

  function DecodeHeaderValue(header: seq<byte>): Result<seq<byte>, Fault> {
    if !IsLiteral(header) then Failure(NotAFieldValue)
    else if !IsSentinelWrapped(header) then Success(header)
    else
      var decoded := Decode(header[|PREFIX|..|header| - |SUFFIX|], true);
      if decoded.None? then Failure(NotBase64) else Success(decoded.value)
  }

  // ----- The client's side -----

  predicate IsBase64HeaderValue(value: seq<byte>) {
    HasPrefix(value, PREFIX) && HasSuffix(value, SUFFIX)
  }

  predicate IsPrintableFieldValue(value: seq<byte>) {
    && value != []
    && forall i :: 0 <= i < |value| ==>
         var edge := i == 0 || i == |value| - 1;
         Visible(value[i]) || (!edge && Spacing(value[i]))
  }

  function ClientEncodeHeaderValue(value: seq<byte>): seq<byte> {
    if !IsBase64HeaderValue(value) && IsPrintableFieldValue(value) then value else Wrap(value)
  }

  // ----- What the two sides agree on -----

  lemma WrapIsLiteral(value: seq<byte>)
    ensures IsLiteral(Wrap(value)) && IsSentinelWrapped(Wrap(value))
    ensures Wrap(value)[|PREFIX|..|Wrap(value)| - |SUFFIX|] == Encode(value)
  {
    EncodeIsPrintable(value);
    var wrapped := Wrap(value);
    forall i | 0 <= i < |wrapped| ensures Visible(wrapped[i]) {
      if |PREFIX| <= i < |wrapped| - |SUFFIX| {
        assert wrapped[i] == Encode(value)[i - |PREFIX|];
      }
    }
    assert wrapped[..|PREFIX|] == PREFIX;
    assert wrapped[|wrapped| - |SUFFIX|..] == SUFFIX;
  }

  lemma WrapDecodes(value: seq<byte>)
    ensures DecodeHeaderValue(Wrap(value)) == Success(value)
  {
    WrapIsLiteral(value);
    RoundTrip(value, true);
  }

  lemma PartsOfWrapped(header: seq<byte>)
    requires IsSentinelWrapped(header)
    ensures header == PREFIX + header[|PREFIX|..|header| - |SUFFIX|] + SUFFIX
  {
  }

  // The payload of a literal header has no line break to skip.
  lemma PayloadStands(header: seq<byte>)
    requires IsSentinelWrapped(header) && IsLiteral(header)
    ensures var payload := header[|PREFIX|..|header| - |SUFFIX|]; WithoutBreaks(payload) == payload
  {
    var payload := header[|PREFIX|..|header| - |SUFFIX|];
    forall i | 0 <= i < |payload| ensures payload[i] != LF && payload[i] != CR {
      assert payload[i] == header[i + |PREFIX|];
    }
    UnbrokenStands(payload);
  }

  lemma OnlyWrapDecodes(header: seq<byte>, value: seq<byte>)
    requires DecodeHeaderValue(header) == Success(value) && IsSentinelWrapped(header)
    ensures header == Wrap(value)
  {
    PayloadStands(header);
    StrictIsCanonical(header[|PREFIX|..|header| - |SUFFIX|]);
    PartsOfWrapped(header);
  }

  // The decoder reads a header as a value exactly when the header is that value
  // written literally or its one canonical wrapped spelling.
  lemma DecodesExactly(header: seq<byte>, value: seq<byte>)
    ensures DecodeHeaderValue(header) == Success(value) <==>
              || (header == value && IsLiteral(value) && !IsSentinelWrapped(value))
              || header == Wrap(value)
  {
    WrapDecodes(value);
    if DecodeHeaderValue(header) == Success(value) && IsSentinelWrapped(header) {
      OnlyWrapDecodes(header, value);
    }
  }

  lemma {:induction false} EncodedLonger(value: seq<byte>)
    ensures |Encode(value)| >= |value|
  {
    if |value| <= 2 {
    } else {
      EncodedLonger(value[3..]);
    }
  }

  // A value goes out as it is exactly where its bytes are visible ones, with a space or a tab only inside,
  // and it has not the markers of a wrapped one.
  lemma SentAsItIs(value: seq<byte>)
    ensures EncodeHeaderValue(value) == value <==>
              && value != [] && !IsSentinelWrapped(value)
              && forall i :: 0 <= i < |value| ==>
                   0x21 <= value[i] <= 0x7E || ((value[i] == 0x20 || value[i] == 0x09) && 0 < i < |value| - 1)
  {
    if EncodeHeaderValue(value) == Wrap(value) {
      EncodedLonger(value);
    }
  }

  // Decoding inverts the server's encoder on every byte string.
  lemma ServerRoundTrip(value: seq<byte>)
    ensures DecodeHeaderValue(EncodeHeaderValue(value)) == Success(value)
  {
    DecodesExactly(EncodeHeaderValue(value), value);
  }

  // Decoding inverts the client's encoder on every byte string as well.
  lemma ClientRoundTrip(value: seq<byte>)
    ensures DecodeHeaderValue(ClientEncodeHeaderValue(value)) == Success(value)
  {
    DecodesExactly(ClientEncodeHeaderValue(value), value);
  }

  // The two sentinel tests differ on one value alone, the one whose markers overlap,
  // and there the two encoders write different headers for it.
  lemma EncodersDifferOnOverlapAlone(value: seq<byte>)
    ensures EncodeHeaderValue(value) == ClientEncodeHeaderValue(value) <==> value != OVERLAPPING
  {
    assert IsLiteral(value) == IsPrintableFieldValue(value);
    if IsBase64HeaderValue(value) != IsSentinelWrapped(value) {
      assert |value| <= |PREFIX| + 1;
      assert value[|value| - 2..][0] == 63 && value[|value| - 2..][1] == 61;
      assert value[|value| - 1] == 61;
      assert value[..|PREFIX|][8] == 63;
      assert value[8] == 63;
      assert |value| == |PREFIX| + 1;
      assert value == value[..|PREFIX|] + [value[9]];
    }
    if value == OVERLAPPING {
      assert value[..|PREFIX|] == PREFIX;
      assert value[|value| - 2..] == SUFFIX;
      WrapIsLiteral(value);
      assert |Wrap(value)| != |value|;
    }
  }

  // No value has two wrapped spellings the decoder accepts.
  lemma OneWrappedSpelling(first: seq<byte>, second: seq<byte>)
    requires IsSentinelWrapped(first) && IsSentinelWrapped(second)
    requires DecodeHeaderValue(first).Success? && DecodeHeaderValue(first) == DecodeHeaderValue(second)
    ensures first == second
  {
    DecodesExactly(first, DecodeHeaderValue(first).value);
    DecodesExactly(second, DecodeHeaderValue(first).value);
  }

  lemma {:induction false} BreakDropped(head: seq<byte>, tail: seq<byte>)
    ensures WithoutBreaks(head + [LF] + tail) == WithoutBreaks(head + tail)
  {
    if head == [] {
      assert (head + [LF] + tail)[1..] == tail;
      assert head + tail == tail;
    } else {
      assert (head + [LF] + tail)[1..] == head[1..] + [LF] + tail;
      assert (head + tail)[1..] == head[1..] + tail;
      BreakDropped(head[1..], tail);
    }
  }

  // The canonical spelling rests on the literal check: the decoder underneath skips a
  // line break wherever it stands, and only the check keeps one out of a payload.
  lemma {:induction false} BreaksAreSkipped(head: seq<byte>, tail: seq<byte>, strict: bool)
    ensures Decode(head + [LF] + tail, strict) == Decode(head + tail, strict)
    ensures DecodeHeaderValue(PREFIX + (head + [LF] + tail) + SUFFIX) == Failure(NotAFieldValue)
  {
    BreakDropped(head, tail);
    assert (PREFIX + (head + [LF] + tail) + SUFFIX)[|PREFIX| + |head|] == LF;
  }
}
