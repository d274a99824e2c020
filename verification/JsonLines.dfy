/** JSONL framing: a byte stream cut into newline-terminated messages, whatever chunks it arrives in. */
module JsonLines {
  import opened Wrappers

  // ----- the whole stream at once ---------------------------------------------------------------

  /** What a stream says: the messages of its complete lines up to the first violation, whether there is one,
      and otherwise the unterminated rest. */
  datatype Reading<+M> = Reading(messages: seq<M>, failed: bool, rest: string)

  /** The length of the first line, without its newline; the length of the text if it has none. */
  function LineLength(text: string): (n: nat)
    ensures n <= |text| && '\n' !in text[..n] && (n < |text| ==> text[n] == '\n')
  {
    if text == [] || text[0] == '\n' then 0 else 1 + LineLength(text[1..])
  }

  function WithoutCr(line: string): string {
    if line != [] && line[|line| - 1] == '\r' then line[..|line| - 1] else line
  }

  /** Reads a stream line by line: a line longer than `max`, also an unterminated one, or one that does not
      parse ends the reading; a blank line is skipped. */
  function Read<M>(text: string, max: nat, parse: string -> Option<M>): Reading<M>
    decreases |text|
  {
    var n := LineLength(text);
    if n > max then Reading([], true, [])
    else if n == |text| then Reading([], false, text)
    else
      var line := WithoutCr(text[..n]);
      if line == [] then Read(text[n + 1..], max, parse)
      else
        match parse(line)
        case None => Reading([], true, [])
        case Some(m) =>
          var r := Read(text[n + 1..], max, parse);
          r.(messages := [m] + r.messages)
  }

  /** Reading on after `r`. */
  function Continue<M>(r: Reading<M>, more: string, max: nat, parse: string -> Option<M>): Reading<M> {
    if r.failed then r
    else
      var s := Read(r.rest + more, max, parse);
      s.(messages := r.messages + s.messages)
  }

  lemma LineLengthUnique(text: string, n: nat)
    requires n < |text| && text[n] == '\n' && '\n' !in text[..n]
    ensures LineLength(text) == n
  {
  }

  /** What one line contributes to the reading of the lines after it. */
  function AfterLine<M>(line: string, later: Reading<M>, parse: string -> Option<M>): Reading<M> {
    if line == [] then later
    else
      match parse(line)
      case None => Reading([], true, [])
      case Some(m) => later.(messages := [m] + later.messages)
  }

  lemma ReadLine<M>(text: string, max: nat, parse: string -> Option<M>)
    ensures var n := LineLength(text);
      Read(text, max, parse) ==
        if n > max then Reading([], true, [])
        else if n == |text| then Reading([], false, text)
        else AfterLine(WithoutCr(text[..n]), Read(text[n + 1..], max, parse), parse)
  {
  }

  lemma ContinueAfterLine<M>(line: string, later: Reading<M>, more: string, max: nat, parse: string -> Option<M>)
    ensures Continue(AfterLine(line, later, parse), more, max, parse) ==
      AfterLine(line, Continue(later, more, max, parse), parse)
  {
    if line != [] && parse(line).Some? && !later.failed {
      var m := parse(line).value;
      var s := Read(later.rest + more, max, parse);
      assert ([m] + later.messages) + s.messages == [m] + (later.messages + s.messages);
    }
  }

  /** Reading a text in two parts reads the same as reading it whole. */
  lemma {:induction false} ReadAppend<M>(text: string, more: string, max: nat, parse: string -> Option<M>)
    ensures Read(text + more, max, parse) == Continue(Read(text, max, parse), more, max, parse)
    decreases |text|
  {
    hide Read, AfterLine, WithoutCr, LineLength;
    var n := LineLength(text);
    var whole := text + more;
    ReadLine(text, max, parse);
    ReadLine(whole, max, parse);
    if n < |text| {
      assert whole[..n] == text[..n];
      LineLengthUnique(whole, n);
      assert whole[n + 1..] == text[n + 1..] + more;
      ReadAppend(text[n + 1..], more, max, parse);
      ContinueAfterLine(WithoutCr(text[..n]), Read(text[n + 1..], max, parse), more, max, parse);
    } else {
      assert text[..n] == text;
      LongerLine(text, more);
      assert [] + Read(whole, max, parse).messages == Read(whole, max, parse).messages;
    }
  }

  lemma LongerLine(text: string, more: string)
    requires '\n' !in text
    ensures |text| <= LineLength(text + more)
  {
  }

  // ----- the incremental framer -----------------------------------------------------------------

  datatype Outcome = Accepted | Failed | Threw

  datatype Turn = Again | Ended(outcome: Outcome)

  /** `delivered` records the calls of the message handler; `throws` tells which of them, numbered over the
      life of the framer, throw. A throwing handler's exception leaves `Consume` at once. */
  class JsonLineFramer<M> {
    const maximumFrameBytes: nat
    const parse: string -> Option<M>
    const throws: nat -> bool
    var buffer: string
    var bufferOffset: nat
    var failed: bool
    var delivered: seq<M>

    ghost predicate Valid()
      reads this
    {
      maximumFrameBytes > 0 && bufferOffset <= |buffer| && (failed ==> buffer == [] && bufferOffset == 0)
    }

    /** The bytes received and not yet consumed. */
    ghost function Pending(): string
      requires Valid()
      reads this
    {
      buffer[bufferOffset..]
    }

    /** Everything the framer has delivered and will deliver of the bytes it holds. */
    ghost function Outlook(): Reading<M>
      requires Valid()
      reads this
    {
      if failed then Reading(delivered, true, [])
      else Prepend(delivered, Read(Pending(), maximumFrameBytes, parse))
    }

    constructor (maximumFrameBytes: nat, parse: string -> Option<M>, throws: nat -> bool)
      requires maximumFrameBytes > 0
      ensures Valid() && this.maximumFrameBytes == maximumFrameBytes && this.parse == parse && this.throws == throws
      ensures Pending() == [] && !failed && delivered == []
    {
      this.maximumFrameBytes, this.parse, this.throws := maximumFrameBytes, parse, throws;
      buffer, bufferOffset, failed, delivered := [], 0, false, [];
    }

    /** Drops consumed bytes; what is still to be read does not change. */
    method Compact()
      requires Valid()
      modifies this`buffer, this`bufferOffset
      ensures Valid() && Pending() == old(Pending())
      ensures bufferOffset == 0 || bufferOffset < |buffer| / 2
    {
      if bufferOffset == 0 {
        return;
      }
      if bufferOffset == |buffer| {
        buffer := [];
        bufferOffset := 0;
      } else if bufferOffset >= |buffer| / 2 {
        buffer := buffer[bufferOffset..];
        bufferOffset := 0;
      }
    }

    method Fail()
      requires Valid() && !failed
      modifies this`buffer, this`bufferOffset, this`failed
      ensures Valid() && failed
    {
      failed := true;
      buffer := [];
      bufferOffset := 0;
    }

    method FindNewline() returns (newline: nat)
      requires Valid()
      ensures newline == bufferOffset + LineLength(Pending())
    {
      newline := bufferOffset;
      while newline < |buffer| && buffer[newline] != '\n'
        invariant bufferOffset <= newline <= |buffer|
        invariant bufferOffset + LineLength(Pending()) == newline + LineLength(buffer[newline..])
      {
        assert buffer[newline..][1..] == buffer[newline + 1..];
        newline := newline + 1;
      }
    }

    method TakeLine(newline: nat) returns (line: string)
      requires Valid() && !failed && bufferOffset <= newline < |buffer|
      modifies this`bufferOffset
      ensures Valid() && bufferOffset == newline + 1
      ensures var n := newline - old(bufferOffset);
        line == WithoutCr(old(Pending())[..n]) && Pending() == old(Pending())[n + 1..]
    {
      line := buffer[bufferOffset..newline];
      assert Pending()[..newline - bufferOffset] == line;
      bufferOffset := newline + 1;
      if line != [] && line[|line| - 1] == '\r' {
        line := line[..|line| - 1];
      }
    }

    /** One turn of the loop: takes the next line, or ends the call. Nothing is lost or read twice: the outlook
        stays. */
    method TakeTurn() returns (turn: Turn)
      requires Valid() && !failed
      modifies this
      ensures Valid() && Outlook() == old(Outlook()) && old(delivered) <= delivered
      ensures turn == Ended(Failed) <==> failed
      ensures turn == Ended(Accepted) ==>
        && delivered == old(delivered) && Pending() == Outlook().rest && delivered == Outlook().messages
        && (|buffer| <= maximumFrameBytes || |buffer| <= 2 * maximumFrameBytes - 2)
      ensures turn == Ended(Failed) ==> delivered == old(delivered)
      ensures turn == Ended(Threw) ==> Delivered(old(delivered)) && throws(|old(delivered)|)
      ensures turn == Again ==>
        && |buffer| - bufferOffset < old(|buffer| - bufferOffset)
        && (delivered == old(delivered) || (Delivered(old(delivered)) && !throws(|old(delivered)|)))
    {
      hide Read, LineLength, AfterLine, WithoutCr;
      ReadLine(Pending(), maximumFrameBytes, parse);
      var newline := FindNewline();
      var lineBytes := newline - bufferOffset;
      if newline == |buffer| {
        if lineBytes > maximumFrameBytes {
          Fail();
          return Ended(Failed);
        }
        Compact();
        return Ended(Accepted);
      }
      if lineBytes > maximumFrameBytes {
        Fail();
        return Ended(Failed);
      }
      var line := TakeLine(newline);
      AddLine(delivered, line, Read(Pending(), maximumFrameBytes, parse), parse);
      if line == [] {
        return Again;
      }
      var message := parse(line);
      if message.None? {
        Fail();
        return Ended(Failed);
      }
      delivered := delivered + [message.value];
      return if throws(|delivered| - 1) then Ended(Threw) else Again;
    }

    /** Exactly one message more than before. */
    ghost predicate Delivered(before: seq<M>)
      reads this
    {
      |delivered| == |before| + 1 && before <= delivered
    }

    /** Consuming a chunk adds exactly what the chunk adds to the reading of the stream. If the handler threw,
        the lines behind the one it was called with are still held, in order; if the chunk was accepted, only an
        unterminated line is held, and the physical buffer stays below twice the limit. */
    method Consume(bytes: string) returns (outcome: Outcome)
      requires Valid()
      modifies this
      ensures Valid()
      ensures Outlook() == Continue(old(Outlook()), bytes, maximumFrameBytes, parse)
      ensures old(delivered) <= delivered
      ensures outcome.Failed? <==> failed
      ensures outcome.Accepted? ==> Pending() == Outlook().rest && delivered == Outlook().messages
      ensures outcome.Accepted? ==> |buffer| <= maximumFrameBytes || |buffer| <= 2 * maximumFrameBytes - 2
      ensures outcome.Threw? ==> |delivered| > |old(delivered)| && throws(|delivered| - 1)
      ensures forall i :: |old(delivered)| <= i < |delivered| && throws(i) ==> i == |delivered| - 1 && outcome.Threw?
    {
      hide Read, Continue, Prepend;
      if failed {
        ContinueFailed(delivered, bytes, maximumFrameBytes, parse);
        return Failed;
      }
      ghost var target := Continue(Outlook(), bytes, maximumFrameBytes, parse);
      OutlookAppend(delivered, Pending(), bytes, maximumFrameBytes, parse);
      Compact();
      ghost var held := Pending();
      buffer := buffer + bytes;
      assert Pending() == held + bytes;
      while true
        invariant Valid() && !failed && Outlook() == target && old(delivered) <= delivered
        invariant forall i :: |old(delivered)| <= i < |delivered| ==> !throws(i)
        decreases |buffer| - bufferOffset
      {
        ghost var before := delivered;
        var turn := TakeTurn();
        assert delivered[..|old(delivered)|] == before[..|old(delivered)|] == old(delivered);
        if turn.Ended? {
          return turn.outcome;
        }
      }
    }

    method Reset()
      requires Valid()
      modifies this`buffer, this`bufferOffset, this`failed
      ensures Valid() && Pending() == [] && !failed
    {
      buffer := [];
      bufferOffset := 0;
      failed := false;
    }
  }

  function Prepend<M>(done: seq<M>, r: Reading<M>): Reading<M> {
    r.(messages := done + r.messages)
  }

  lemma OutlookAppend<M>(done: seq<M>, text: string, more: string, max: nat, parse: string -> Option<M>)
    ensures Prepend(done, Read(text + more, max, parse)) ==
      Continue(Prepend(done, Read(text, max, parse)), more, max, parse)
  {
    hide Read;
    ReadAppend(text, more, max, parse);
    var r := Read(text, max, parse);
    if !r.failed {
      var s := Read(r.rest + more, max, parse);
      assert done + (r.messages + s.messages) == (done + r.messages) + s.messages;
    }
  }

  lemma ContinueFailed<M>(done: seq<M>, more: string, max: nat, parse: string -> Option<M>)
    ensures Continue(Reading(done, true, []), more, max, parse) == Reading(done, true, [])
  {
  }

  lemma AddLine<M>(done: seq<M>, line: string, later: Reading<M>, parse: string -> Option<M>)
    ensures Prepend(done, AfterLine(line, later, parse)) ==
      if line == [] then Prepend(done, later)
      else if parse(line).None? then Reading(done, true, [])
      else Prepend(done + [parse(line).value], later)
  {
    if line != [] && parse(line).Some? {
      assert done + ([parse(line).value] + later.messages) == (done + [parse(line).value]) + later.messages;
    } else if line != [] {
      assert done + [] == done;
    }
  }

  // ----- chunking and round trip ----------------------------------------------------------------

  function Flatten(chunks: seq<string>): string {
    if chunks == [] then [] else Flatten(chunks[..|chunks| - 1]) + chunks[|chunks| - 1]
  }

  /** What a framer makes of a sequence of chunks: by the contract of `Consume`, each call continues the reading. */
  function Feed<M>(chunks: seq<string>, max: nat, parse: string -> Option<M>): Reading<M> {
    if chunks == [] then Reading([], false, [])
    else Continue(Feed(chunks[..|chunks| - 1], max, parse), chunks[|chunks| - 1], max, parse)
  }

  /** Framing depends only on the concatenated bytes: under any chunking, the messages delivered, the failure and
      the held rest are those of reading the whole stream at once. */
  lemma {:induction false} ChunkingIrrelevant<M>(chunks: seq<string>, max: nat, parse: string -> Option<M>)
    ensures Feed(chunks, max, parse) == Read(Flatten(chunks), max, parse)
  {
    hide Read;
    if chunks == [] {
      ReadLine([], max, parse);
    } else {
      var before, last := chunks[..|chunks| - 1], chunks[|chunks| - 1];
      ChunkingIrrelevant(before, max, parse);
      ReadAppend(Flatten(before), last, max, parse);
    }
  }

  /** A framer fed chunk by chunk, whatever its handler does, ends up with the reading of the whole stream. */
  method FeedChunks<M>(framer: JsonLineFramer<M>, chunks: seq<string>)
    requires framer.Valid() && framer.Outlook() == Reading([], false, [])
    modifies framer
    ensures framer.Valid()
    ensures framer.Outlook() == Read(Flatten(chunks), framer.maximumFrameBytes, framer.parse)
  {
    hide Read, Continue;
    var i := 0;
    assert chunks[..0] == [];
    while i < |chunks|
      invariant i <= |chunks| && framer.Valid()
      invariant framer.Outlook() == Feed(chunks[..i], framer.maximumFrameBytes, framer.parse)
    {
      assert chunks[..i + 1][..i] == chunks[..i];
      var _ := framer.Consume(chunks[i]);
      i := i + 1;
    }
    assert chunks[..i] == chunks;
    ChunkingIrrelevant(chunks, framer.maximumFrameBytes, framer.parse);
  }

  function Encode<M>(message: M, max: nat, dump: M -> string): (r: Result<string>)
    ensures r.Ok? <==> |dump(message)| <= max
    ensures r.Ok? ==> r.value == dump(message) + "\n"
  {
    if |dump(message)| > max then Rejected("serialized JSONL frame exceeds configured maximum")
    else Ok(dump(message) + "\n")
  }

  /** The serializer's side of the bargain, for one message. */
  ghost predicate Serializable<M>(m: M, dump: M -> string, parse: string -> Option<M>) {
    dump(m) != [] && '\n' !in dump(m) && '\r' !in dump(m) && parse(dump(m)) == Some(m)
  }

  ghost predicate Encodings<M>(messages: seq<M>, max: nat, dump: M -> string, encoded: string)
    decreases |messages|
  {
    if messages == [] then encoded == []
    else
      var first := Encode(messages[0], max, dump);
      first.Ok? && first.value <= encoded && Encodings(messages[1..], max, dump, encoded[|first.value|..])
  }

  lemma {:induction false} ReadEncodings<M>(messages: seq<M>, max: nat, dump: M -> string, parse: string -> Option<M>,
                                            encoded: string)
    requires forall m :: m in messages ==> Serializable(m, dump, parse)
    requires Encodings(messages, max, dump, encoded)
    ensures Read(encoded, max, parse) == Reading(messages, false, [])
    decreases |messages|
  {
    hide Read, LineLength;
    ReadLine(encoded, max, parse);
    if messages == [] {
    } else {
      var line := dump(messages[0]);
      var rest := encoded[|line| + 1..];
      assert (line + "\n")[|line|] == '\n' == encoded[|line|];
      assert encoded[..|line|] == line;
      assert Serializable(messages[0], dump, parse);
      LineLengthUnique(encoded, |line|);
      ReadEncodings(messages[1..], max, dump, parse, rest);
      assert WithoutCr(line) == line;
      assert [messages[0]] + messages[1..] == messages;
    }
  }

  // ----- line ends ------------------------------------------------------------------------------

  function Joined(lines: seq<string>, end: string): string {
    if lines == [] then [] else lines[0] + end + Joined(lines[1..], end)
  }

  /** A carriage return before the newline is no part of the line, but counts against the limit. */
  lemma EndedLine<M>(line: string, end: string, rest: string, max: nat, parse: string -> Option<M>)
    requires end == "\n" || end == "\r\n"
    requires '\n' !in line && (line == [] || line[|line| - 1] != '\r')
    ensures Read(line + end + rest, max, parse) ==
      if |line| + |end| - 1 > max then Reading([], true, []) else AfterLine(line, Read(rest, max, parse), parse)
  {
    hide Read, AfterLine;
    var text, n := line + end + rest, |line| + |end| - 1;
    assert text[n] == '\n' && text[n + 1..] == rest;
    assert text[..n] == line + end[..|end| - 1];
    LineLengthUnique(text, n);
    ReadLine(text, max, parse);
    assert WithoutCr(text[..n]) == line by {
      assert text[..n] == if end == "\n" then line else line + "\r";
      assert end == "\r\n" ==> text[..n][..|line|] == line;
    }
  }

  /** Streams with CRLF and with LF line ends read the same, blank lines included, as long as every line leaves room
      for the carriage return. */
  lemma {:induction false} LineEndsAlike<M>(lines: seq<string>, max: nat, parse: string -> Option<M>)
    requires forall line :: line in lines ==>
      '\n' !in line && |line| < max && (line == [] || line[|line| - 1] != '\r')
    ensures Read(Joined(lines, "\r\n"), max, parse) == Read(Joined(lines, "\n"), max, parse)
  {
    hide Read, AfterLine, WithoutCr;
    if lines != [] {
      assert lines[0] in lines && forall line :: line in lines[1..] ==> line in lines;
      LineEndsAlike(lines[1..], max, parse);
      EndedLine(lines[0], "\r\n", Joined(lines[1..], "\r\n"), max, parse);
      EndedLine(lines[0], "\n", Joined(lines[1..], "\n"), max, parse);
    }
  }

  /** A line that fills the limit has no such room: it reads with a line feed and fails with CRLF. */
  lemma FullLine<M>(line: string, max: nat, parse: string -> Option<M>)
    requires |line| == max > 0 && '\n' !in line && line[max - 1] != '\r' && parse(line).Some?
    ensures Read(line + "\n", max, parse) == Reading([parse(line).value], false, [])
    ensures Read(line + "\r\n", max, parse).failed
  {
    hide Read;
    EndedLine(line, "\n", [], max, parse);
    EndedLine(line, "\r\n", [], max, parse);
    ReadLine([], max, parse);
    assert line + "\n" + [] == line + "\n" && line + "\r\n" + [] == line + "\r\n";
  }

  /** Round trip: the concatenated encodings of any accepted messages, fed in any chunks, deliver exactly these
      messages, in order, and never fail. */
  lemma RoundTrip<M>(messages: seq<M>, max: nat, dump: M -> string, parse: string -> Option<M>, chunks: seq<string>)
    requires forall m :: m in messages ==> Serializable(m, dump, parse)
    requires Encodings(messages, max, dump, Flatten(chunks))
    ensures Feed(chunks, max, parse) == Reading(messages, false, [])
  {
    ChunkingIrrelevant(chunks, max, parse);
    ReadEncodings(messages, max, dump, parse, Flatten(chunks));
  }

  /** The same of a framer: after the encodings it has delivered or still holds exactly these messages, in order. */
  method FeedEncodings<M>(framer: JsonLineFramer<M>, messages: seq<M>, dump: M -> string, chunks: seq<string>)
    requires framer.Valid() && framer.Outlook() == Reading([], false, [])
    requires forall m :: m in messages ==> Serializable(m, dump, framer.parse)
    requires Encodings(messages, framer.maximumFrameBytes, dump, Flatten(chunks))
    modifies framer
    ensures framer.Valid() && framer.Outlook() == Reading(messages, false, [])
  {
    hide Read, Continue;
    RoundTrip(messages, framer.maximumFrameBytes, dump, framer.parse, chunks);
    ChunkingIrrelevant(chunks, framer.maximumFrameBytes, framer.parse);
    FeedChunks(framer, chunks);
  }
}
