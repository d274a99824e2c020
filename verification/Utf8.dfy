/** UTF-8 text as TextEncoder writes it and a fatal TextDecoder reads it: scalar values, their bytes, and UTF-16
    strings, whose lone surrogates are written as U+FFFD. */
module Utf8 {
  import opened Wrappers

  type Scalar = n: nat | n < 0xD800 || 0xE000 <= n < 0x110000

  type Byte = n: nat | n < 256

  type Unit = n: nat | n < 0x10000

  function EncodeOne(c: Scalar): (bytes: seq<Byte>)
    ensures 1 <= |bytes| <= 4
  {
    var d := c / 64;
    var e := d / 64;
    if c < 0x80 then [c]
    else if c < 0x800 then [0xC0 + d, 0x80 + c % 64]
    else if c < 0x10000 then [0xE0 + e, 0x80 + d % 64, 0x80 + c % 64]
    else [0xF0 + e / 64, 0x80 + e % 64, 0x80 + d % 64, 0x80 + c % 64]
  }

  function Encode(text: seq<Scalar>): seq<Byte> {
    if text == [] then [] else EncodeOne(text[0]) + Encode(text[1..])
  }

  predicate Continues(b: Byte) {
    0x80 <= b < 0xC0
  }

  /** A number extended by the six bits of a continuation byte. */
  function Extended(high: int, b: Byte): int {
    high * 64 + b - 0x80
  }

  /** The first character of some bytes and its width, if they start with a shortest-form encoding of a scalar. */
  function DecodeOne(bytes: seq<Byte>): (r: Option<(Scalar, nat)>)
    ensures r.Some? ==> 1 <= r.value.1 <= |bytes|
  {
    if bytes == [] then None
    else
      var b := bytes[0];
      if b < 0x80 then Some((b, 1))
      else if 0xC2 <= b < 0xE0 then
        if |bytes| >= 2 && Continues(bytes[1]) then Some((Extended(b - 0xC0, bytes[1]), 2)) else None
      else if 0xE0 <= b < 0xF0 then
        if |bytes| >= 3 && Continues(bytes[1]) && Continues(bytes[2]) then
          var c := Extended(Extended(b - 0xE0, bytes[1]), bytes[2]);
          if c >= 0x800 && !(0xD800 <= c < 0xE000) then Some((c, 3)) else None
        else None
      else if 0xF0 <= b < 0xF5 then
        if |bytes| >= 4 && Continues(bytes[1]) && Continues(bytes[2]) && Continues(bytes[3]) then
          var c := Extended(Extended(Extended(b - 0xF0, bytes[1]), bytes[2]), bytes[3]);
          if 0x10000 <= c < 0x110000 then Some((c, 4)) else None
        else None
      else None
  }

  function Decode(bytes: seq<Byte>): Option<seq<Scalar>>
    decreases |bytes|
  {
    if bytes == [] then Some([])
    else
      var first := DecodeOne(bytes);
      if first.None? then None
      else
        var rest := Decode(bytes[first.value.1..]);
        if rest.None? then None else Some([first.value.0] + rest.value)
  }

  lemma OneCharacter(c: Scalar, more: seq<Byte>)
    ensures DecodeOne(EncodeOne(c) + more) == Some((c, |EncodeOne(c)|))
  {
    var bytes, one := EncodeOne(c) + more, EncodeOne(c);
    assert forall i :: 0 <= i < |one| ==> bytes[i] == one[i];
  }

  lemma CutCharacter(c: Scalar, n: nat)
    requires 0 < n < |EncodeOne(c)|
    ensures DecodeOne(EncodeOne(c)[..n]).None?
  {
  }

  /** How many whole characters fit into n bytes. */
  function Whole(text: seq<Scalar>, n: nat): (k: nat)
    ensures k <= |text|
  {
    if text == [] || |EncodeOne(text[0])| > n then 0 else 1 + Whole(text[1..], n - |EncodeOne(text[0])|)
  }

  lemma {:induction false} WholeIsLongest(text: seq<Scalar>, n: nat)
    ensures var k := Whole(text, n);
      && |Encode(text[..k])| <= n && (k < |text| ==> n < |Encode(text[..k + 1])| <= |Encode(text[..k])| + 4)
      && (k == |text| <==> |Encode(text)| <= n)
  {
    hide EncodeOne;
    if text != [] {
      var w, rest := |EncodeOne(text[0])|, text[1..];
      if w <= n {
        var k := Whole(rest, n - w);
        WholeIsLongest(rest, n - w);
        assert text[..k + 1][1..] == rest[..k];
        if k < |rest| {
          assert text[..k + 2][1..] == rest[..k + 1];
        }
        assert text[..|text|] == text && rest[..|rest|] == rest;
      } else {
        assert text[..1] == [text[0]];
        assert Encode(text[..1]) == EncodeOne(text[0]);
      }
    }
  }

  /** Decoding inverts encoding; a prefix of encoded text decodes exactly when it does not cut a character. */
  lemma {:induction false} DecodePrefix(text: seq<Scalar>, n: nat)
    requires n <= |Encode(text)|
    ensures var k := Whole(text, n);
      Decode(Encode(text)[..n]) == if |Encode(text[..k])| == n then Some(text[..k]) else None
  {
    hide EncodeOne, DecodeOne;
    if text != [] && n > 0 {
      var one, rest := EncodeOne(text[0]), text[1..];
      if n < |one| {
        assert Encode(text)[..n] == one[..n];
        CutCharacter(text[0], n);
      } else {
        var tail := Encode(rest)[..n - |one|];
        assert Encode(text)[..n] == one + tail;
        OneCharacter(text[0], tail);
        assert (one + tail)[|one|..] == tail;
        DecodePrefix(rest, n - |one|);
        var k := Whole(rest, n - |one|);
        assert text[..k + 1][1..] == rest[..k];
        assert text[..k + 1] == [text[0]] + rest[..k];
      }
    }
  }

  /** Round trip. */
  lemma DecodeEncode(text: seq<Scalar>)
    ensures Decode(Encode(text)) == Some(text)
  {
    DecodePrefix(text, |Encode(text)|);
    WholeIsLongest(text, |Encode(text)|);
    assert Encode(text)[..|Encode(text)|] == Encode(text) && text[..|text|] == text;
  }

  // ---- UTF-16 ----

  predicate High(u: Unit) {
    0xD800 <= u < 0xDC00
  }

  predicate Low(u: Unit) {
    0xDC00 <= u < 0xE000
  }

  function Paired(high: int, low: int): int {
    0x10000 + (high - 0xD800) * 1024 + low - 0xDC00
  }

  /** The scalar values of a string of UTF-16 units; a lone surrogate reads as U+FFFD. */
  function Scalars(units: seq<Unit>): seq<Scalar> {
    if units == [] then []
    else if High(units[0]) && |units| >= 2 && Low(units[1]) then
      [Paired(units[0], units[1])] + Scalars(units[2..])
    else [if High(units[0]) || Low(units[0]) then 0xFFFD else units[0]] + Scalars(units[1..])
  }

  /** `byteLength` */
  function ByteLength(units: seq<Unit>): nat {
    |Encode(Scalars(units))|
  }

  lemma {:induction false} ByteLengthBounds(units: seq<Unit>)
    ensures |units| <= ByteLength(units) <= 3 * |units|
  {
    if units != [] {
      if High(units[0]) && |units| >= 2 && Low(units[1]) {
        ByteLengthBounds(units[2..]);
      } else {
        ByteLengthBounds(units[1..]);
      }
    }
  }

  /** The UTF-16 string of some scalar values. */
  function Units(text: seq<Scalar>): seq<Unit> {
    if text == [] then []
    else
      var c: int := text[0];
      (if c < 0x10000 then [c] else [0xD800 + (c - 0x10000) / 1024, 0xDC00 + c % 1024]) + Units(text[1..])
  }

  lemma {:induction false} ScalarsOfUnits(text: seq<Scalar>)
    ensures Scalars(Units(text)) == text
  {
    if text != [] {
      var c: int, rest := text[0], Units(text[1..]);
      ScalarsOfUnits(text[1..]);
      if c < 0x10000 {
        assert Units(text)[1..] == rest;
      } else {
        assert Units(text)[2..] == rest;
        assert (c - 0x10000) % 1024 == c % 1024;
      }
    }
  }

  /** A surrogate that is not followed by its other half is written as U+FFFD, in three bytes; a pair as one character
      in four. */
  lemma Surrogates(u: Unit, rest: seq<Unit>)
    requires High(u) || Low(u)
    ensures High(u) && rest != [] && Low(rest[0]) ==>
      |EncodeOne(Scalars([u] + rest)[0])| == 4 && Scalars([u] + rest)[1..] == Scalars(rest[1..])
    ensures !(High(u) && rest != [] && Low(rest[0])) ==>
      EncodeOne(Scalars([u] + rest)[0]) == [0xEF, 0xBF, 0xBD] && Scalars([u] + rest)[1..] == Scalars(rest)
  {
    hide EncodeOne;
    var units := [u] + rest;
    assert units[1..] == rest && (rest != [] ==> units[2..] == rest[1..]);
    Replacement();
    if High(u) && rest != [] && Low(rest[0]) {
      FourBytes(Paired(u, rest[0]));
    }
  }

  lemma Replacement()
    ensures EncodeOne(0xFFFD) == [0xEF, 0xBF, 0xBD]
  {
  }

  lemma FourBytes(c: Scalar)
    requires c >= 0x10000
    ensures |EncodeOne(c)| == 4
  {
  }
}
