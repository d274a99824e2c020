/** The size arithmetic of packages/codex-frontend/src/WebSocketTransport.ts: close reasons, the test of incoming
    messages, and the admission of outgoing ones. Strings are sequences of UTF-16 units. */
module WebSocketSizes {
  import opened Wrappers
  import opened Utf8

  const CLOSE_REASON_BYTES: nat := 123
  const FRAME_PAYLOAD: nat := 16 * 1024
  const MAXIMUM_HEADER: nat := 8
  const BYTE_ORDER_MARK: Scalar := 0xFEFF

  // ---- boundedCloseReason ----

  /** A TextDecoder drops a leading byte order mark from what it decodes. */
  function Unmarked(text: seq<Scalar>): seq<Scalar> {
    if text != [] && text[0] == BYTE_ORDER_MARK then text[1..] else text
  }

  function CloseReason(reason: seq<Unit>): seq<Unit> {
    if ByteLength(reason) <= CLOSE_REASON_BYTES then reason
    else Units(Unmarked(Scalars(reason)[..Whole(Scalars(reason), CLOSE_REASON_BYTES)]))
  }

  method BoundedCloseReason(reason: seq<Unit>) returns (r: seq<Unit>)
    ensures r == CloseReason(reason)
  {
    hide Encode, Decode, Whole, Scalars, Unmarked;
    var text := Scalars(reason);
    var bytes := Encode(text);
    if |bytes| <= CLOSE_REASON_BYTES {
      return reason;
    }
    ghost var k := Whole(text, CLOSE_REASON_BYTES);
    WholeIsLongest(text, CLOSE_REASON_BYTES);
    var length: int := CLOSE_REASON_BYTES;
    while length >= 0
      invariant |Encode(text[..k])| <= length <= CLOSE_REASON_BYTES
    {
      DecodePrefix(text, length);
      SameWhole(text, length, CLOSE_REASON_BYTES);
      var decoded := Decode(bytes[..length]);
      if decoded.Some? {
        return Units(Unmarked(decoded.value));
      }
      length := length - 1;
    }
    r := [];
  }

  /** Cutting less than a character away leaves the same whole characters. */
  lemma {:induction false} SameWhole(text: seq<Scalar>, n: nat, limit: nat)
    requires n <= limit && |Encode(text[..Whole(text, limit)])| <= n
    ensures Whole(text, n) == Whole(text, limit)
  {
    if text != [] && |EncodeOne(text[0])| <= limit {
      var w, rest := |EncodeOne(text[0])|, text[1..];
      var k := Whole(rest, limit - w);
      assert text[..k + 1][1..] == rest[..k];
      SameWhole(rest, n - w, limit - w);
    }
  }

  /** The reason that is sent fits a close frame (section 5.5 of RFC 6455). It is the longest prefix of whole
      characters that does, exactly when the reason is short or does not begin with a byte order mark. */
  lemma CloseReasonIsLongest(reason: seq<Unit>)
    ensures ByteLength(CloseReason(reason)) <= CLOSE_REASON_BYTES
    ensures var text := Scalars(reason);
      var k := Whole(text, CLOSE_REASON_BYTES);
      && (Scalars(CloseReason(reason)) == text[..k] <==>
            ByteLength(reason) <= CLOSE_REASON_BYTES || text[0] != BYTE_ORDER_MARK)
      && (k < |text| ==> |Encode(text[..k + 1])| > CLOSE_REASON_BYTES)
  {
    hide Encode, Whole, Scalars, Units;
    var text := Scalars(reason);
    var k := Whole(text, CLOSE_REASON_BYTES);
    WholeIsLongest(text, CLOSE_REASON_BYTES);
    assert text[..|text|] == text;
    NothingEncoded();
    if ByteLength(reason) > CLOSE_REASON_BYTES {
      ScalarsOfUnits(Unmarked(text[..k]));
      assert text != [];
      AtLeastOne(text);
      EncodeFirst(text[..k]);
    }
  }

  /** A long reason behind a byte order mark is not cut to its longest prefix: the mark is lost. */
  lemma MarkIsLost()
    ensures var reason := [BYTE_ORDER_MARK] + seq(CLOSE_REASON_BYTES, _ => 0x61);
      Scalars(CloseReason(reason)) != Scalars(reason)[..Whole(Scalars(reason), CLOSE_REASON_BYTES)]
  {
    var reason := [BYTE_ORDER_MARK] + seq(CLOSE_REASON_BYTES, _ => 0x61);
    CloseReasonIsLongest(reason);
    ByteLengthBounds(reason);
    assert Scalars(reason)[0] == BYTE_ORDER_MARK;
  }

  lemma NothingEncoded()
    ensures Encode([]) == []
  {
  }

  lemma AtLeastOne(text: seq<Scalar>)
    requires text != []
    ensures Whole(text, CLOSE_REASON_BYTES) >= 1
  {
  }

  lemma EncodeFirst(text: seq<Scalar>)
    requires text != []
    ensures |Encode(text[1..])| < |Encode(text)|
  {
  }

  // ---- Incoming messages ----

  /** The cheap test in front of the exact one never changes the answer. */
  method ExceedsMaximum(data: seq<Unit>, maximum: nat) returns (exceeds: bool)
    ensures exceeds <==> ByteLength(data) > maximum
  {
    hide ByteLength;
    ByteLengthBounds(data);
    exceeds := |data| * 3 > maximum;
    if exceeds {
      exceeds := ByteLength(data) > maximum;
    }
  }

  // ---- Outgoing messages ----

  /** The header of a masked frame (section 5.2 of RFC 6455): two bytes, the extended length, the masking key. */
  function HeaderBytes(payload: nat): nat {
    2 + (if payload < 126 then 0 else if payload < 65536 then 2 else 8) + 4
  }

  /** The bytes of a message sent as masked fragments of at most 16 KiB. */
  function FragmentedBytes(payload: nat): nat {
    if payload <= FRAME_PAYLOAD then HeaderBytes(payload) + payload
    else HeaderBytes(FRAME_PAYLOAD) + FRAME_PAYLOAD + FragmentedBytes(payload - FRAME_PAYLOAD)
  }

  function LastFragment(payload: nat): nat {
    if payload <= FRAME_PAYLOAD then payload else LastFragment(payload - FRAME_PAYLOAD)
  }

  function FramedMessageBytes(payload: nat): nat {
    var frames := if payload == 0 then 1 else (payload - 1) / FRAME_PAYLOAD + 1;
    payload + frames * MAXIMUM_HEADER
  }

  /** The estimate is exact, but for two bytes when the last fragment has a short length field. */
  lemma {:induction false} FramedBytesAreEnough(payload: nat)
    ensures FramedMessageBytes(payload) == FragmentedBytes(payload) + if LastFragment(payload) < 126 then 2 else 0
  {
    if payload > FRAME_PAYLOAD {
      FramedBytesAreEnough(payload - FRAME_PAYLOAD);
      assert (payload - 1) / FRAME_PAYLOAD == (payload - FRAME_PAYLOAD - 1) / FRAME_PAYLOAD + 1;
    }
  }

  /** `send`, up to the call of the socket: an admitted message keeps the queue within its maximum, and a message is
      refused only for its own size or because the estimate no longer fits. */
  method Admit(message: seq<Unit>, maximumMessage: nat, buffered: nat, maximumBuffered: nat) returns (admitted: bool)
    ensures admitted <==> ByteLength(message) <= maximumMessage &&
                          buffered + FramedMessageBytes(ByteLength(message)) <= maximumBuffered
    ensures admitted ==> buffered + FragmentedBytes(ByteLength(message)) <= maximumBuffered
  {
    hide ByteLength, FramedMessageBytes, FragmentedBytes;
    var bytes := ByteLength(message);
    if bytes > maximumMessage {
      return false;
    }
    var queued := FramedMessageBytes(bytes);
    FramedBytesAreEnough(bytes);
    admitted := buffered <= maximumBuffered && queued <= maximumBuffered - buffered;
  }
}
