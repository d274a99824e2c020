/** What the lines of an event stream mean, from the printer's side: fields with and without the space behind the
    colon, comments and unknown fields, with any of the three line ends. */
module SseFields {
  import opened Sse

  /** A field as it stands on its line; a comment has no name. */
  datatype Field = Field(name: string, value: string, spaced: bool)

  function Line(f: Field): string {
    f.name + (if f.spaced then ": " else ":") + f.value
  }

  /** A field that can be told apart on its line. */
  predicate Plain(f: Field) {
    ':' !in f.name && IsLine(f.name) && IsLine(f.value) && (f.spaced || f.value == [] || f.value[0] != ' ')
  }

  /** The type and the data that some fields give an event. */
  function Named(fields: seq<Field>): string {
    if fields == [] then []
    else if fields[|fields| - 1].name == "event" then fields[|fields| - 1].value
    else Named(fields[..|fields| - 1])
  }

  function Given(fields: seq<Field>): seq<string> {
    if fields == [] then []
    else
      var last := fields[|fields| - 1];
      Given(fields[..|fields| - 1]) + if last.name == "data" then [last.value] else []
  }

  /** The values on a line each, without a last line feed. */
  function Stacked(values: seq<string>): string
    requires values != []
  {
    if |values| == 1 then values[0] else values[0] + "\n" + Stacked(values[1..])
  }

  function LinesOf(fields: seq<Field>): (lines: seq<string>)
    ensures |lines| == |fields| && forall i :: 0 <= i < |fields| ==> lines[i] == Line(fields[i])
  {
    seq(|fields|, i requires 0 <= i < |fields| => Line(fields[i]))
  }

  function Printed(lines: seq<string>, end: string): string {
    if lines == [] then [] else lines[0] + end + Printed(lines[1..], end)
  }

  // ---- One line ----

  lemma {:induction false} ColonAfter(name: string, x: string)
    requires ':' !in name
    ensures FirstColon(name) == |name| && FirstColon(name + ":" + x) == |name|
  {
    if name != [] {
      assert (name + ":" + x)[1..] == name[1..] + ":" + x;
      ColonAfter(name[1..], x);
    }
  }

  /** The value begins behind the colon, or behind the one space that may follow it; without a colon it is empty. */
  lemma LineMeans(name: string, x: string)
    requires ':' !in name
    ensures Sse.Field(name) == name && Value(name) == []
    ensures Sse.Field(name + ":" + x) == name && Sse.Field(name + ": " + x) == name
    ensures Value(name + ": " + x) == x
    ensures x == [] || x[0] != ' ' ==> Value(name + ":" + x) == x
  {
    ColonAfter(name, x);
    ColonAfter(name, " " + x);
    assert name + ": " + x == name + ":" + (" " + x);
    assert (name + ":" + (" " + x))[|name| + 2..] == x && (name + ":" + x)[|name| + 1..] == x;
  }

  lemma FieldMeans(f: Field)
    requires Plain(f)
    ensures Sse.Field(Line(f)) == f.name && Value(Line(f)) == f.value && Line(f) != [] && IsLine(Line(f))
  {
    LineMeans(f.name, f.value);
  }

  // ---- One block ----

  lemma {:induction false} BlockMeans(fields: seq<Field>)
    requires forall f :: f in fields ==> Plain(f)
    ensures TypeOf(LinesOf(fields)) == Named(fields) && DataOf(LinesOf(fields)) == Given(fields)
  {
    hide Line, Plain;
    if fields != [] {
      var before, last := fields[..|fields| - 1], fields[|fields| - 1];
      BlockMeans(before);
      assert LinesOf(fields)[..|fields| - 1] == LinesOf(before);
      FieldMeans(last);
    }
  }

  /** A line ends at the first of the three line ends, and the rest begins behind it. */
  lemma OneLine(x: string, end: string, s: string)
    requires IsLine(x) && (end == "\n" || end == "\r\n" || (end == "\r" && (s == [] || s[0] != '\n')))
    ensures Lines(x + end + s) == [x] + Lines(s)
  {
    hide Lines;
    var t := x + end + s;
    assert t == x + (end + s);
    FirstEndAppend(x, end + s);
    assert FirstEnd(x) == |x| && FirstEnd(end + s) == 0;
    assert t[|x|] == end[0] && t[..|x|] == x && Behind(t, |x|) == s;
    SplitFirst(t, |x|);
  }

  lemma {:induction false} PrintedLines(lines: seq<string>, end: string)
    requires end == "\n" || end == "\r\n" || end == "\r"
    requires forall line :: line in lines ==> IsLine(line)
    ensures Lines(Printed(lines, end)) == lines
  {
    hide Lines;
    if lines == [] {
      NoLines();
    } else {
      var rest := Printed(lines[1..], end);
      assert lines[0] in lines && forall line :: line in lines[1..] ==> line in lines;
      PrintedLines(lines[1..], end);
      assert [lines[0]] + lines[1..] == lines;
      assert end == "\r" && rest != [] ==> rest[0] != '\n' by {
        assert lines[1..] != [] ==> lines[1] in lines;
      }
      OneLine(lines[0], end, rest);
    }
  }

  lemma NoLines()
    ensures Lines([]) == []
  {
  }

  lemma {:induction false} OneBlock(lines: seq<string>)
    requires forall line :: line in lines ==> line != []
    ensures Events(lines + [[]]) == Dispatch(lines)
  {
    hide Dispatch;
    var all := lines + [[]];
    BlankLast(lines);
    assert all[..|lines|] == lines && all[|lines| + 1..] == [];
    assert Events([]) == [];
  }

  lemma {:induction false} BlankLast(lines: seq<string>)
    requires forall line :: line in lines ==> line != []
    ensures FirstBlank(lines + [[]]) == |lines|
  {
    if lines != [] {
      assert (lines + [[]])[1..] == lines[1..] + [[]];
      assert lines[0] in lines && forall line :: line in lines[1..] ==> line in lines;
      BlankLast(lines[1..]);
    }
  }

  /** Fields in any number, each on its line and with a blank line behind them, are one event: its type is the last
      one named or else "message", its data are the data values joined by line feeds; comments and other fields
      count for nothing, and without a data field there is no event. */
  lemma FieldsDecode(fields: seq<Field>, end: string)
    requires end == "\n" || end == "\r\n" || end == "\r"
    requires (forall f :: f in fields ==> Plain(f)) && (fields != [] ==> !(ByteOrderMark <= Line(fields[0])))
    ensures Interpret(Printed(LinesOf(fields) + [[]], end)) ==
      if Given(fields) == [] then []
      else [Event(if Named(fields) == [] then "message" else Named(fields), Stacked(Given(fields)))]
  {
    if Given(fields) != [] {
      StackedIsJoin(Given(fields));
    }
    hide Lines, Events, Plain, Line, Join;
    var lines := LinesOf(fields);
    forall line | line in lines
      ensures line != [] && IsLine(line)
    {
      var i :| 0 <= i < |lines| && lines[i] == line;
      FieldMeans(fields[i]);
    }
    PrintedLines(lines + [[]], end);
    assert Text(Printed(lines + [[]], end)) == lines + [[]];
    OneBlock(lines);
    BlockMeans(fields);
  }

  lemma {:induction false} StackedIsJoin(values: seq<string>)
    requires values != []
    ensures Stacked(values) == Join(values)
  {
    if |values| > 1 {
      var front, last := values[..|values| - 1], values[|values| - 1];
      StackedSnoc(front, last);
      StackedIsJoin(front);
      assert front + [last] == values;
    }
  }

  lemma {:induction false} StackedSnoc(values: seq<string>, last: string)
    requires values != []
    ensures Stacked(values + [last]) == Stacked(values) + "\n" + last
  {
    if |values| > 1 {
      assert (values + [last])[1..] == values[1..] + [last];
      StackedSnoc(values[1..], last);
    } else {
      assert (values + [last])[1..] == [last];
    }
  }

  // ---- The byte order mark ----

  /** A leading byte order mark changes nothing. */
  lemma MarkIgnored(s: string)
    requires !(ByteOrderMark <= s) && Lines(s) != []
    ensures Interpret(ByteOrderMark + s) == Interpret(s)
  {
    hide Events, Lines, Tail, WithoutMark, FirstEnd;
    var n, t := FirstEnd(s), ByteOrderMark + s;
    SplitFirst(s, n);
    MarkedEnd(s);
    SplitFirst(t, 3 + n);
    MarkedLine(s, n);
    assert Text(t) == Text(s);
  }

  lemma MarkedEnd(s: string)
    ensures FirstEnd(ByteOrderMark + s) == 3 + FirstEnd(s)
  {
    hide FirstEnd;
    MarkIsLine();
    FirstEndAppend(ByteOrderMark, s);
  }

  lemma MarkedLine(s: string, n: nat)
    requires n < |s| && !(ByteOrderMark <= s)
    ensures var t := ByteOrderMark + s;
      && Behind(t, 3 + n) == Behind(s, n)
      && WithoutMark(t[..3 + n]) == s[..n] == WithoutMark(s[..n])
  {
    var t := ByteOrderMark + s;
    assert t[..3 + n] == ByteOrderMark + s[..n] && t[3..][n..] == s[n..];
    assert t[3 + n + 1..] == s[n + 1..];
    assert n + 1 < |s| ==> t[3 + n + 1] == s[n + 1] && t[3 + n + 2..] == s[n + 2..];
  }

  lemma MarkIsLine()
    ensures FirstEnd(ByteOrderMark) == 3
  {
  }
}
