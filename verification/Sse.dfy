/** Server-sent events: the interpretation of an event stream, as sections 9.2.5 and 9.2.6 of the WHATWG HTML
    Living Standard describe it (id and retry fields have no effect here), and the incremental decoder. */
module Sse {

  // ----- lines ----------------------------------------------------------------------------------

  predicate IsEnd(c: char) {
    c == '\r' || c == '\n'
  }

  /** The position of the first carriage return or line feed; the length of the text if there is none. */
  function FirstEnd(s: string): (n: nat)
    ensures n <= |s| && (forall i :: 0 <= i < n ==> !IsEnd(s[i])) && (n < |s| ==> IsEnd(s[n]))
  {
    if s == [] || IsEnd(s[0]) then 0 else 1 + FirstEnd(s[1..])
  }

  /** The text behind a line end at position `n`: a carriage return takes a line feed behind it along. */
  function Behind(s: string, n: nat): string
    requires n < |s|
  {
    if s[n] == '\r' && n + 1 < |s| && s[n + 1] == '\n' then s[n + 2..] else s[n + 1..]
  }

  /** The complete lines of a stream. */
  function Lines(s: string): seq<string>
    decreases |s|
  {
    var n := FirstEnd(s);
    if n == |s| then [] else [s[..n]] + Lines(Behind(s, n))
  }

  /** The line still waiting for its end. */
  function Tail(s: string): string
    decreases |s|
  {
    var n := FirstEnd(s);
    if n == |s| then s else Tail(Behind(s, n))
  }

  predicate EndsInCr(s: string) {
    s != [] && s[|s| - 1] == '\r'
  }

  // ----- events ---------------------------------------------------------------------------------

  datatype Event = Event(name: string, data: string)

  function FirstColon(s: string): (n: nat)
    ensures n <= |s|
  {
    if s == [] || s[0] == ':' then 0 else 1 + FirstColon(s[1..])
  }

  function Field(line: string): string {
    line[..FirstColon(line)]
  }

  /** What follows the first colon, one leading space apart. */
  function Value(line: string): string {
    var n := FirstColon(line);
    if n == |line| then []
    else if n + 1 < |line| && line[n + 1] == ' ' then line[n + 2..]
    else line[n + 1..]
  }

  /** The event type a block of lines names: that of its last event field. */
  function TypeOf(block: seq<string>): string {
    if block == [] then []
    else if Field(block[|block| - 1]) == "event" then Value(block[|block| - 1])
    else TypeOf(block[..|block| - 1])
  }

  /** The values of the data fields of a block, in order. */
  function DataOf(block: seq<string>): seq<string> {
    if block == [] then []
    else DataOf(block[..|block| - 1]) + if Field(block[|block| - 1]) == "data" then [Value(block[|block| - 1])] else []
  }

  function Join(values: seq<string>): string {
    if values == [] then []
    else if |values| == 1 then values[0]
    else Join(values[..|values| - 1]) + "\n" + values[|values| - 1]
  }

  /** A block dispatches one event if it has a data field, and nothing otherwise. */
  function Dispatch(block: seq<string>): seq<Event> {
    if DataOf(block) == [] then []
    else [Event(if TypeOf(block) == [] then "message" else TypeOf(block), Join(DataOf(block)))]
  }

  function FirstBlank(lines: seq<string>): (n: nat)
    ensures n <= |lines| && (forall i :: 0 <= i < n ==> lines[i] != []) && (n < |lines| ==> lines[n] == [])
  {
    if lines == [] || lines[0] == [] then 0 else 1 + FirstBlank(lines[1..])
  }

  /** Blank lines end the blocks; an unfinished block dispatches nothing. */
  function Events(lines: seq<string>): seq<Event>
    decreases |lines|
  {
    var n := FirstBlank(lines);
    if n == |lines| then [] else Dispatch(lines[..n]) + Events(lines[n + 1..])
  }

  function OpenBlock(lines: seq<string>): seq<string>
    decreases |lines|
  {
    var n := FirstBlank(lines);
    if n == |lines| then lines else OpenBlock(lines[n + 1..])
  }

  const ByteOrderMark: string := [0xEF as char, 0xBB as char, 0xBF as char]

  function WithoutMark(line: string): string {
    if ByteOrderMark <= line then line[3..] else line
  }

  /** The lines of a stream, without the byte order mark that may lead it. */
  function Text(s: string): seq<string> {
    var lines := Lines(s);
    if lines == [] then [] else [WithoutMark(lines[0])] + lines[1..]
  }

  /** The events a stream means. */
  function Interpret(s: string): seq<Event> {
    Events(Text(s))
  }

  // ----- one more byte --------------------------------------------------------------------------

  lemma FirstEndAppend(s: string, t: string)
    ensures FirstEnd(s) < |s| ==> FirstEnd(s + t) == FirstEnd(s)
    ensures FirstEnd(s) == |s| ==> FirstEnd(s + t) == |s| + FirstEnd(t)
  {
    if s == [] {
      assert s + t == t;
    } else if !IsEnd(s[0]) {
      assert (s + t)[1..] == s[1..] + t;
      FirstEndAppend(s[1..], t);
    }
  }

  /** A lone CR at the end waits for its line feed. */
  lemma BehindOpenEnd(s: string, n: nat, c: char)
    requires n + 1 == |s| && s[n] == '\r'
    ensures Behind(s, n) == [] && Behind(s + [c], n) == if c == '\n' then [] else [c]
  {
    assert (s + [c])[n + 1] == c;
  }

  /** Behind any other line end the next byte is simply one more. */
  lemma BehindClosedEnd(s: string, n: nat, c: char)
    requires n < |s| && IsEnd(s[n]) && !(s[n] == '\r' && n + 1 == |s|)
    ensures |Behind(s, n)| < |s| && Behind(s + [c], n) == Behind(s, n) + [c]
    ensures EndsInCr(Behind(s, n)) <==> EndsInCr(s)
  {
    var m := if s[n] == '\r' && s[n + 1] == '\n' then n + 2 else n + 1;
    assert (s + [c])[m..] == s[m..] + [c];
    if m < |s| {
      assert s[m..][|s| - m - 1] == s[|s| - 1];
    }
  }

  /** The first line of a stream and the stream behind it. */
  lemma SplitFirst(s: string, n: nat)
    requires n == FirstEnd(s)
    ensures n < |s| ==> Lines(s) == [s[..n]] + Lines(Behind(s, n)) && Tail(s) == Tail(Behind(s, n))
    ensures n == |s| ==> Lines(s) == [] && Tail(s) == s
  {
  }

  /** How the lines of a stream change with its next byte. */
  lemma {:induction false} LinesSnoc(s: string, c: char)
    ensures EndsInCr(s) && c == '\n' ==> Lines(s + [c]) == Lines(s) && Tail(s + [c]) == Tail(s)
    ensures IsEnd(c) && !(EndsInCr(s) && c == '\n') ==> Lines(s + [c]) == Lines(s) + [Tail(s)] && Tail(s + [c]) == []
    ensures !IsEnd(c) ==> Lines(s + [c]) == Lines(s) && Tail(s + [c]) == Tail(s) + [c]
    decreases |s|
  {
    hide Lines, Tail, Behind;
    var n, t := FirstEnd(s), s + [c];
    FirstEndAppend(s, [c]);
    SplitFirst(s, n);
    SplitFirst(t, FirstEnd(t));
    SplitFirst([], 0);
    SplitFirst([c], FirstEnd([c]));
    if n < |s| {
      assert t[..n] == s[..n];
      if s[n] == '\r' && n + 1 == |s| {
        BehindOpenEnd(s, n, c);
        LinesSnoc([], c);
        assert [] + [c] == [c];
      } else {
        BehindClosedEnd(s, n, c);
        LinesSnoc(Behind(s, n), c);
        assert [s[..n]] + (Lines(Behind(s, n)) + [Tail(s)]) == [s[..n]] + Lines(Behind(s, n)) + [Tail(s)];
      }
    } else {
      assert !EndsInCr(s);
      assert t[..n] == s;
      LoneByte(t, n);
    }
  }

  lemma LoneByte(t: string, n: nat)
    requires n + 1 == |t|
    ensures Behind(t, n) == [] && Lines([]) == [] && Tail([]) == []
  {
  }

  lemma FirstBlankAppend(lines: seq<string>, more: seq<string>)
    ensures FirstBlank(lines) < |lines| ==> FirstBlank(lines + more) == FirstBlank(lines)
    ensures FirstBlank(lines) == |lines| ==> FirstBlank(lines + more) == |lines| + FirstBlank(more)
  {
    if lines == [] {
      assert lines + more == more;
    } else if lines[0] != [] {
      assert (lines + more)[1..] == lines[1..] + more;
      FirstBlankAppend(lines[1..], more);
    }
  }

  /** The first block of some lines and the lines behind it. */
  lemma SplitBlock(lines: seq<string>, n: nat)
    requires n == FirstBlank(lines)
    ensures n < |lines| ==>
      Events(lines) == Dispatch(lines[..n]) + Events(lines[n + 1..]) && OpenBlock(lines) == OpenBlock(lines[n + 1..])
    ensures n == |lines| ==> Events(lines) == [] && OpenBlock(lines) == lines
  {
    hide Dispatch;
  }

  /** How the events change with the next line. */
  lemma {:induction false} EventsSnoc(lines: seq<string>, line: string)
    ensures line == [] ==>
      Events(lines + [line]) == Events(lines) + Dispatch(OpenBlock(lines)) && OpenBlock(lines + [line]) == []
    ensures line != [] ==>
      Events(lines + [line]) == Events(lines) && OpenBlock(lines + [line]) == OpenBlock(lines) + [line]
    decreases |lines|
  {
    hide Events, OpenBlock, Dispatch;
    var n, all := FirstBlank(lines), lines + [line];
    FirstBlankAppend(lines, [line]);
    SplitBlock(lines, n);
    SplitBlock(all, FirstBlank(all));
    SplitBlock([], 0);
    if n < |lines| {
      assert all[..n] == lines[..n] && all[n + 1..] == lines[n + 1..] + [line];
      EventsSnoc(lines[n + 1..], line);
    } else if line == [] {
      assert all[..n] == lines && all[n + 1..] == [];
    } else {
      assert FirstBlank([line]) == 1;
    }
  }

  // ----- the limit ------------------------------------------------------------------------------

  /** The data buffer of an open block: every value followed by a line feed. */
  function DataBuffer(values: seq<string>): string {
    if values == [] then [] else DataBuffer(values[..|values| - 1]) + values[|values| - 1] + "\n"
  }

  lemma {:induction false} DataBufferIsJoin(values: seq<string>)
    ensures (DataBuffer(values) == [] <==> values == [])
    ensures values != [] ==> DataBuffer(values) == Join(values) + "\n"
  {
    if |values| > 1 {
      DataBufferIsJoin(values[..|values| - 1]);
    }
  }

  /** The bytes held after a stream: those of the open line and of the buffers of the open block. */
  function Load(s: string): nat {
    var block := OpenBlock(Text(s));
    |Tail(s)| + |TypeOf(block)| + |DataBuffer(DataOf(block))|
  }

  /** No byte of the stream arrives at a full buffer. */
  predicate Fits(s: string, limit: nat) {
    s == [] ||
    var before, c := s[..|s| - 1], s[|s| - 1];
    Fits(before, limit) && (IsEnd(c) || Load(before) < limit)
  }

  /** The part of the stream up to the first byte that does not fit. */
  function LongestFit(s: string, limit: nat): (t: string)
    ensures t <= s
  {
    if Fits(s, limit) then s else LongestFit(s[..|s| - 1], limit)
  }

  // ----- the buffers of the decoder -------------------------------------------------------------

  /** A line that ends reaches the interpretation without the byte order mark if it is the first. */
  lemma TextSnoc(s: string, c: char)
    ensures IsEnd(c) && !(EndsInCr(s) && c == '\n') ==>
      Text(s + [c]) == Text(s) + [if Lines(s) == [] then WithoutMark(Tail(s)) else Tail(s)]
    ensures !(IsEnd(c) && !(EndsInCr(s) && c == '\n')) ==> Text(s + [c]) == Text(s)
  {
    hide Lines, Tail, WithoutMark;
    LinesSnoc(s, c);
    if IsEnd(c) && !(EndsInCr(s) && c == '\n') && Lines(s) != [] {
      assert (Lines(s) + [Tail(s)])[1..] == Lines(s)[1..] + [Tail(s)];
    }
  }

  lemma BufferSnoc(block: seq<string>, line: string)
    ensures TypeOf(block + [line]) == if Field(line) == "event" then Value(line) else TypeOf(block)
    ensures DataBuffer(DataOf(block + [line])) ==
      if Field(line) == "data" then DataBuffer(DataOf(block)) + Value(line) + "\n" else DataBuffer(DataOf(block))
  {
    hide Field, Value;
    var more := block + [line];
    assert more[..|more| - 1] == block;
    if Field(line) == "data" {
      var values := DataOf(block) + [Value(line)];
      assert values[..|values| - 1] == DataOf(block);
    } else {
      assert DataOf(block) + [] == DataOf(block);
    }
  }

  /** A field name costs more bytes than its value gains, so taking a line over into the buffers never needs room. */
  lemma ValueShorter(line: string)
    requires line != []
    ensures Field(line) == "event" ==> |Value(line)| <= |line|
    ensures Field(line) == "data" ==> |Value(line)| + 1 <= |line|
  {
  }

  lemma LoadBounded(s: string, limit: nat)
    requires Fits(s, limit) && limit > 0
    ensures Load(s) <= limit
    decreases |s|
  {
    hide Lines, Tail, Text, OpenBlock, Events, TypeOf, DataOf, DataBuffer, Field, Value, Dispatch, WithoutMark;
    if s == [] {
      EmptyLoad();
    } else {
      var before, c := s[..|s| - 1], s[|s| - 1];
      assert s == before + [c];
      LoadBounded(before, limit);
      LoadSnoc(before, c);
    }
  }

  lemma EmptyLoad()
    ensures Load([]) == 0
  {
  }

  /** A byte of a line adds one to the load; a line end never adds anything. */
  lemma LoadSnoc(s: string, c: char)
    ensures !IsEnd(c) ==> Load(s + [c]) == Load(s) + 1
    ensures IsEnd(c) ==> Load(s + [c]) <= Load(s)
  {
    hide Lines, Tail, Text, OpenBlock, Events, TypeOf, DataOf, DataBuffer, Field, Value, Dispatch, WithoutMark;
    LinesSnoc(s, c);
    TextSnoc(s, c);
    if IsEnd(c) && !(EndsInCr(s) && c == '\n') {
      var line := if Lines(s) == [] then WithoutMark(Tail(s)) else Tail(s);
      var block := OpenBlock(Text(s));
      MarkShorter(Tail(s));
      EventsSnoc(Text(s), line);
      if line != [] {
        BufferSnoc(block, line);
        ValueShorter(line);
      } else {
        EmptyBuffers();
      }
    }
  }

  lemma EmptyBuffers()
    ensures TypeOf([]) == [] && DataBuffer(DataOf([])) == []
  {
  }

  lemma MarkShorter(line: string)
    ensures |WithoutMark(line)| <= |line|
  {
  }

  // ----- the incremental decoder ----------------------------------------------------------------

  class SseDecoder {
    const limit: nat
    var line: string
    var event: string
    var data: string
    var afterCr: bool
    var firstLine: bool
    var dispatched: seq<Event>
    ghost var received: string

    /** The buffers hold what the bytes received so far leave open, and the events dispatched are theirs. */
    ghost predicate Valid()
      reads this
    {
      && limit > 0 && Fits(received, limit)
      && line == Tail(received) && event == TypeOf(OpenBlock(Text(received)))
      && data == DataBuffer(DataOf(OpenBlock(Text(received))))
      && afterCr == EndsInCr(received) && firstLine == (Lines(received) == [])
      && dispatched == Interpret(received)
    }

    constructor (limit: nat)
      requires limit > 0
      ensures Valid() && received == [] && this.limit == limit
    {
      this.limit := limit;
      line, event, data, afterCr, firstLine, dispatched, received := [], [], [], false, true, [], [];
    }

    /** Feeding a chunk dispatches exactly the events the stream so far means. The decoder throws at the first
        byte that does not fit, having taken everything before it; and it never holds more than the limit. */
    method Consume(bytes: string) returns (threw: bool)
      requires Valid()
      modifies this
      ensures Valid() && |line| + |event| + |data| <= limit
      ensures threw <==> !Fits(old(received) + bytes, limit)
      ensures received == LongestFit(old(received) + bytes, limit)
      ensures dispatched == Interpret(received)
    {
      hide Fits, Load, Lines, Tail, Text, OpenBlock, TypeOf, DataOf, DataBuffer, Interpret, LongestFit;
      ghost var before := received;
      ghost var all := before + bytes;
      var i := 0;
      while i < |bytes|
        invariant i <= |bytes| && Valid() && received == all[..|before| + i]
      {
        var c := bytes[i];
        assert all[..|before| + i + 1] == received + [c];
        FitsSnoc(received, c, limit);
        LoadOf(received);
        if afterCr && c == '\n' {
          SwallowedByte(received);
          afterCr := false;
          received := received + [c];
        } else if IsEnd(c) {
          Line(c);
        } else {
          if |line| + |event| + |data| >= limit {
            StopsHere(all, |before| + i, limit);
            LoadBounded(received, limit);
            return true;
          }
          KeptByte(received, c);
          line := line + [c];
          afterCr := false;
          received := received + [c];
        }
        i := i + 1;
      }
      assert all[..|before| + i] == all;
      WholeFits(all, limit);
      LoadOf(received);
      LoadBounded(received, limit);
      return false;
    }

    method Line(c: char)
      requires Valid() && IsEnd(c) && !(afterCr && c == '\n')
      modifies this
      ensures Valid() && received == old(received) + [c]
    {
      hide Lines, Tail, Text, OpenBlock, TypeOf, DataOf, DataBuffer, Dispatch, Events, WithoutMark, LongestFit, Fits;
      ghost var s := received;
      FitsSnoc(s, c, limit);
      LinesSnoc(s, c);
      TextSnoc(s, c);
      ghost var ended := if Lines(s) == [] then WithoutMark(Tail(s)) else Tail(s);
      EventsSnoc(Text(s), ended);
      MarkShorter(line);
      LoadOf(s);
      LoadBounded(s, limit);
      afterCr := c == '\r';
      var value := line;
      line := [];
      received := received + [c];
      if firstLine {
        firstLine := false;
        value := WithoutMark(value);
      }
      TakeLine(value, OpenBlock(Text(s)));
      EmptyBuffers();
    }

    /** Takes a finished line over into the buffers of its block, or dispatches the block if the line is blank.
        The check of the buffers at its end never fires. */
    method TakeLine(value: string, ghost block: seq<string>)
      requires event == TypeOf(block) && data == DataBuffer(DataOf(block)) && |value| + |event| + |data| <= limit
      modifies this`event, this`data, this`dispatched
      ensures value == [] ==> event == [] && data == [] && dispatched == old(dispatched) + Dispatch(block)
      ensures value != [] ==> event == TypeOf(block + [value]) && data == DataBuffer(DataOf(block + [value])) &&
                              dispatched == old(dispatched)
    {
      hide TypeOf, DataOf, DataBuffer, Dispatch, Field, Value;
      if value == [] {
        DispatchBuffers(block);
        var body, name := data, event;
        data, event := [], [];
        if body != [] {
          dispatched := dispatched + [Event(if name == [] then "message" else name, body[..|body| - 1])];
        } else {
          assert dispatched + [] == dispatched;
        }
        return;
      }
      BufferSnoc(block, value);
      ValueShorter(value);
      var field, body := Field(value), Value(value);
      if field == "event" {
        event := body;
      } else if field == "data" {
        data := data + body + "\n";
      }
      if |data| + |event| > limit {
        assert false;
      }
    }
  }

  lemma FitsSnoc(s: string, c: char, limit: nat)
    ensures Fits(s + [c], limit) <==> Fits(s, limit) && (IsEnd(c) || Load(s) < limit)
  {
    assert (s + [c])[..|s|] == s;
  }

  lemma LoadOf(s: string)
    ensures Load(s) == |Tail(s)| + |TypeOf(OpenBlock(Text(s)))| + |DataBuffer(DataOf(OpenBlock(Text(s))))|
  {
  }

  lemma SwallowedByte(s: string)
    requires EndsInCr(s)
    ensures Tail(s + "\n") == Tail(s) && Text(s + "\n") == Text(s) && Lines(s + "\n") == Lines(s)
    ensures Interpret(s + "\n") == Interpret(s) && !EndsInCr(s + "\n")
  {
    hide Lines, Tail, Events;
    LinesSnoc(s, '\n');
  }

  lemma KeptByte(s: string, c: char)
    requires !IsEnd(c)
    ensures Tail(s + [c]) == Tail(s) + [c] && Text(s + [c]) == Text(s) && Lines(s + [c]) == Lines(s)
    ensures Interpret(s + [c]) == Interpret(s) && !EndsInCr(s + [c])
  {
    hide Lines, Tail, Events;
    LinesSnoc(s, c);
  }

  lemma DispatchBuffers(block: seq<string>)
    ensures var body := DataBuffer(DataOf(block));
      Dispatch(block) == if body == [] then []
                         else [Event(if TypeOf(block) == [] then "message" else TypeOf(block), body[..|body| - 1])]
  {
    hide TypeOf;
    DataBufferIsJoin(DataOf(block));
    var body := DataBuffer(DataOf(block));
    if body != [] {
      assert body[..|body| - 1] == Join(DataOf(block));
    }
  }

  lemma WholeFits(s: string, limit: nat)
    requires Fits(s, limit)
    ensures LongestFit(s, limit) == s
  {
  }

  lemma {:induction false} FitsPrefix(s: string, n: nat, limit: nat)
    requires n <= |s| && Fits(s, limit)
    ensures Fits(s[..n], limit)
    decreases |s|
  {
    if n < |s| {
      assert s[..|s| - 1][..n] == s[..n];
      FitsPrefix(s[..|s| - 1], n, limit);
    } else {
      assert s[..n] == s;
    }
  }

  lemma {:induction false} StopsHere(s: string, n: nat, limit: nat)
    requires n < |s| && Fits(s[..n], limit) && !Fits(s[..n + 1], limit)
    ensures LongestFit(s, limit) == s[..n] && !Fits(s, limit)
    decreases |s|
  {
    if Fits(s, limit) {
      FitsPrefix(s, n + 1, limit);
    }
    if n + 1 < |s| {
      assert s[..|s| - 1][..n] == s[..n] && s[..|s| - 1][..n + 1] == s[..n + 1];
      StopsHere(s[..|s| - 1], n, limit);
    }
  }

  // ----- round trip -----------------------------------------------------------------------------

  predicate IsLine(s: string) {
    forall i :: 0 <= i < |s| ==> !IsEnd(s[i])
  }

  /** The frame a session prints for one event. */
  function Frame(e: Event): string {
    "event: " + e.name + "\ndata: " + e.data + "\n\n"
  }

  function Frames(events: seq<Event>): string {
    if events == [] then [] else Frames(events[..|events| - 1]) + Frame(events[|events| - 1])
  }

  /** An event a session prints: its type is not empty, and neither its type nor its dump breaks the line. */
  predicate Printable(e: Event) {
    e.name != [] && IsLine(e.name) && e.data != [] && IsLine(e.data)
  }

  /** A place where a frame ended, and with it the line and the block. */
  ghost predicate Boundary(s: string) {
    Tail(s) == [] && !EndsInCr(s) && OpenBlock(Text(s)) == []
  }

  /** Appending a line's bytes: the line grows, and each byte must find room. */
  lemma {:induction false} TypeLine(s: string, x: string, limit: nat)
    requires IsLine(x)
    ensures Tail(s + x) == Tail(s) + x && Text(s + x) == Text(s) && Lines(s + x) == Lines(s)
    ensures x != [] ==> !EndsInCr(s + x)
    ensures Load(s + x) == Load(s) + |x|
    ensures Fits(s + x, limit) <==> Fits(s, limit) && (x == [] || Load(s) + |x| <= limit)
    decreases |x|
  {
    hide Fits, Load, Lines, Tail, Text, IsEnd;
    if x == [] {
      assert s + x == s;
    } else {
      var y, c := x[..|x| - 1], x[|x| - 1];
      assert IsLine(y);
      TypeLine(s, y, limit);
      assert s + x == (s + y) + [c];
      assert !IsEnd(c);
      KeptByte(s + y, c);
      FitsSnoc(s + y, c, limit);
      LoadSnoc(s + y, c);
      assert Tail(s) + y + [c] == Tail(s) + x;
    }
  }

  /** Ending a line that is not blank adds it to the open block, and always fits. */
  lemma EndLine(s: string, limit: nat)
    requires Tail(s) != [] && !EndsInCr(s) && !(ByteOrderMark <= Tail(s))
    ensures var t := s + "\n";
      && Tail(t) == [] && OpenBlock(Text(t)) == OpenBlock(Text(s)) + [Tail(s)] && Interpret(t) == Interpret(s)
      && !EndsInCr(t) && Lines(t) != [] && (Fits(t, limit) <==> Fits(s, limit))
  {
    hide Lines, Tail, Text, Events, OpenBlock, Fits;
    LinesSnoc(s, '\n');
    TextSnoc(s, '\n');
    EventsSnoc(Text(s), Tail(s));
    FitsSnoc(s, '\n', limit);
  }

  lemma EndBlock(s: string, limit: nat)
    requires Tail(s) == [] && !EndsInCr(s) && Lines(s) != []
    ensures var t := s + "\n";
      && Boundary(t) && Interpret(t) == Interpret(s) + Dispatch(OpenBlock(Text(s)))
        && (Fits(t, limit) <==> Fits(s, limit))
  {
    hide Lines, Tail, Text, Events, OpenBlock, Dispatch, Fits;
    LinesSnoc(s, '\n');
    TextSnoc(s, '\n');
    EventsSnoc(Text(s), []);
    FitsSnoc(s, '\n', limit);
  }

  lemma FrameFields(e: Event)
    requires Printable(e)
    ensures var first, second := "event: " + e.name, "data: " + e.data;
      && IsLine(first) && IsLine(second) && !(ByteOrderMark <= first) && !(ByteOrderMark <= second)
      && Field(first) == "event" && Value(first) == e.name && Field(second) == "data" && Value(second) == e.data
  {
    var first, second := "event: " + e.name, "data: " + e.data;
    ColonAt(first, 5);
    ColonAt(second, 4);
    assert first[..5] == "event" && second[..4] == "data";
    assert first[7..] == e.name && second[6..] == e.data;
  }

  lemma {:induction false} ColonAt(line: string, n: nat)
    requires n < |line| && line[n] == ':' && forall i :: 0 <= i < n ==> line[i] != ':'
    ensures FirstColon(line) == n
  {
    if n > 0 {
      ColonAt(line[1..], n - 1);
    }
  }

  lemma FrameDispatch(e: Event, first: string, second: string)
    requires e.name != []
    requires Field(first) == "event" && Value(first) == e.name && Field(second) == "data" && Value(second) == e.data
    ensures Dispatch([] + [first] + [second]) == [e]
    ensures TypeOf([] + [first]) == e.name && DataBuffer(DataOf([] + [first])) == []
  {
    hide Field, Value;
    var block := [] + [first] + [second];
    assert block[..1] == [] + [first] && ([] + [first])[..0] == [];
    assert DataOf([] + [first]) == [];
    assert DataOf(block) == [e.data];
    assert TypeOf([] + [first]) == e.name;
    assert TypeOf(block) == e.name;
    assert Join([e.data]) == e.data;
  }

  /** One frame decodes to its event, exactly when type and dump leave six bytes of the limit for the longer field
      name. */
  lemma DecodeFrame(s: string, e: Event, limit: nat)
    requires Boundary(s) && Printable(e)
    ensures Boundary(s + Frame(e)) && Interpret(s + Frame(e)) == Interpret(s) + [e]
    ensures Fits(s + Frame(e), limit) <==> Fits(s, limit) && |e.name| + |e.data| + 6 <= limit
  {
    hide Fits, Load, Lines, Tail, Text, OpenBlock, Interpret, TypeOf, DataOf, DataBuffer, Dispatch, Field, Value,
      IsLine;
    var first, second := "event: " + e.name, "data: " + e.data;
    FrameFields(e);
    FrameDispatch(e, first, second);
    EmptyBuffers();
    LoadOf(s);
    TypeLine(s, first, limit);
    var s1 := s + first;
    InterpretOf(s, s1);
    EndLine(s1, limit);
    var s2 := s1 + "\n";
    LoadOf(s2);
    TypeLine(s2, second, limit);
    var s3 := s2 + second;
    InterpretOf(s2, s3);
    EndLine(s3, limit);
    var s4 := s3 + "\n";
    EndBlock(s4, limit);
    assert s + Frame(e) == s4 + "\n";
    assert Tail(s1) == first && Tail(s3) == second;
  }

  lemma InterpretOf(s: string, t: string)
    requires Text(s) == Text(t)
    ensures Interpret(s) == Interpret(t)
  {
  }

  lemma EmptyBoundary(limit: nat)
    ensures Boundary([]) && Interpret([]) == [] && Fits([], limit)
  {
  }

  /** Round trip, with the exact size condition: the concatenation of the frames of some printable events means
      exactly these events, and a decoder takes all of it if and only if each type and dump together stay six
      bytes under the limit. */
  lemma {:induction false} RoundTrip(events: seq<Event>, limit: nat)
    requires forall e :: e in events ==> Printable(e)
    ensures Boundary(Frames(events)) && Interpret(Frames(events)) == events
    ensures Fits(Frames(events), limit) <==> forall e :: e in events ==> |e.name| + |e.data| + 6 <= limit
  {
    hide Fits, Boundary, Interpret, Printable, Frame;
    if events == [] {
      EmptyBoundary(limit);
    } else {
      var before, last := events[..|events| - 1], events[|events| - 1];
      RoundTrip(before, limit);
      DecodeFrame(Frames(before), last, limit);
      assert events == before + [last];
    }
  }
}
