/** Turning a neutral transcript into the message list of the Anthropic API.
    Models prepareRequest in src/ai/providers/anthropic/AnthropicProvider.cpp. */
module Transcript {
  import opened Wrappers
  import opened JsonValue

  datatype Role = User | Assistant

  datatype Content =
    | Text(text: string)
    | ToolCall(id: string, name: string, input: Json)
    | ToolResult(callId: string, output: string, isError: bool)
    | Reasoning(thought: string, provider: string, continuation: string)

  datatype Message = Message(role: Role, content: seq<Content>)

  // ---- The transcript as one stream of blocks, and its maximal runs of one role ----

  datatype Item = Item(role: Role, content: Content)

  function Items(role: Role, content: seq<Content>): (items: seq<Item>)
    ensures |items| == |content|
    ensures forall i :: 0 <= i < |content| ==> items[i] == Item(role, content[i])
  {
    if content == [] then [] else Items(role, content[..|content| - 1]) + [Item(role, content[|content| - 1])]
  }

  function Flat(messages: seq<Message>): seq<Item> {
    if messages == [] then []
    else Flat(messages[..|messages| - 1]) + Items(messages[|messages| - 1].role, messages[|messages| - 1].content)
  }

  datatype Run = Run(role: Role, content: seq<Content>)

  function Extend(runs: seq<Run>, item: Item): seq<Run> {
    if runs != [] && runs[|runs| - 1].role == item.role then
      runs[..|runs| - 1] + [Run(item.role, runs[|runs| - 1].content + [item.content])]
    else
      runs + [Run(item.role, [item.content])]
  }

  function Runs(items: seq<Item>): seq<Run> {
    if items == [] then [] else Extend(Runs(items[..|items| - 1]), items[|items| - 1])
  }

  function FlatRuns(runs: seq<Run>): seq<Item> {
    if runs == [] then []
    else FlatRuns(runs[..|runs| - 1]) + Items(runs[|runs| - 1].role, runs[|runs| - 1].content)
  }

  ghost predicate Alternating(runs: seq<Run>) {
    && (forall i :: 0 <= i < |runs| ==> runs[i].content != [])
    && (forall i :: 0 < i < |runs| ==> runs[i].role != runs[i - 1].role)
  }

  lemma RunsSnoc(items: seq<Item>, item: Item)
    ensures Runs(items + [item]) == Extend(Runs(items), item)
  {
    assert (items + [item])[..|items|] == items;
  }

  lemma FlatRunsSnoc(runs: seq<Run>, run: Run)
    ensures FlatRuns(runs + [run]) == FlatRuns(runs) + Items(run.role, run.content)
  {
    assert (runs + [run])[..|runs|] == runs;
  }

  lemma ItemsSnoc(role: Role, content: seq<Content>, c: Content)
    ensures Items(role, content + [c]) == Items(role, content) + [Item(role, c)]
  {
    assert (content + [c])[..|content|] == content;
  }

  lemma ExtendKeeps(runs: seq<Run>, item: Item)
    requires Alternating(runs)
    ensures var t := Extend(runs, item);
      && Alternating(t) && FlatRuns(t) == FlatRuns(runs) + [item]
      && t != [] && t[|t| - 1].role == item.role && (runs != [] ==> t[0].role == runs[0].role)
  {
    hide FlatRuns, Items;
    if runs != [] && runs[|runs| - 1].role == item.role {
      var before, last := runs[..|runs| - 1], runs[|runs| - 1];
      assert runs == before + [last];
      FlatRunsSnoc(before, last);
      FlatRunsSnoc(before, Run(item.role, last.content + [item.content]));
      ItemsSnoc(item.role, last.content, item.content);
    } else {
      FlatRunsSnoc(runs, Run(item.role, [item.content]));
    }
  }

  /** Merging neighbours alternates the roles, keeps every block and keeps their order. */
  lemma {:induction false} MergeKeepsBlocks(items: seq<Item>)
    ensures Alternating(Runs(items)) && FlatRuns(Runs(items)) == items
    ensures Runs(items) == [] <==> items == []
    ensures items != [] ==> Runs(items)[|Runs(items)| - 1].role == items[|items| - 1].role
    ensures items != [] ==> Runs(items)[0].role == items[0].role
  {
    hide Runs, Alternating, Extend;
    if items == [] {
      NoRuns();
    } else {
      var before, item := items[..|items| - 1], items[|items| - 1];
      assert items == before + [item];
      MergeKeepsBlocks(before);
      RunsSnoc(before, item);
      ExtendKeeps(Runs(before), item);
      if before == [] {
        NoRuns();
        FirstRun(item);
      }
    }
  }

  lemma NoRuns()
    ensures Runs([]) == [] && Alternating([]) && FlatRuns([]) == []
  {
  }

  lemma FirstRun(item: Item)
    ensures Extend([], item) == [Run(item.role, [item.content])]
  {
  }

  /** There is only one way to split a stream of blocks into alternating messages. */
  lemma {:induction false} MergeIsUnique(runs: seq<Run>)
    requires Alternating(runs)
    ensures Runs(FlatRuns(runs)) == runs
    decreases |FlatRuns(runs)|
  {
    hide FlatRuns, Items, Runs;
    if runs == [] {
      NoRuns();
    } else {
      var before, last := runs[..|runs| - 1], runs[|runs| - 1];
      var shorter, c := last.content[..|last.content| - 1], last.content[|last.content| - 1];
      assert last.content == shorter + [c] && runs == before + [last];
      FlatRunsSnoc(before, last);
      ItemsSnoc(last.role, shorter, c);
      var rest := if shorter == [] then before else before + [Run(last.role, shorter)];
      if shorter != [] {
        FlatRunsSnoc(before, Run(last.role, shorter));
      }
      assert FlatRuns(runs) == FlatRuns(rest) + [Item(last.role, c)];
      MergeIsUnique(rest);
      RunsSnoc(FlatRuns(rest), Item(last.role, c));
    }
  }

  // ---- Tool calls and their results ----

  function Calls(content: seq<Content>): seq<string> {
    if content == [] then []
    else Calls(content[..|content| - 1]) +
         if content[|content| - 1].ToolCall? then [content[|content| - 1].id] else []
  }

  function Results(content: seq<Content>): seq<string> {
    if content == [] then []
    else Results(content[..|content| - 1]) +
         if content[|content| - 1].ToolResult? then [content[|content| - 1].callId] else []
  }

  function Contents(items: seq<Item>): seq<Content> {
    seq(|items|, i requires 0 <= i < |items| => items[i].content)
  }

  ghost predicate NoDuplicates<T>(s: seq<T>) {
    forall i, j :: 0 <= i < j < |s| ==> s[i] != s[j]
  }

  function Members<T>(s: seq<T>): set<T> {
    set x | x in s
  }

  /** The tool results of a message come before everything else in it. */
  ghost predicate ResultsLead(content: seq<Content>) {
    forall i, j :: 0 <= i < j < |content| && content[j].ToolResult? ==> content[i].ToolResult?
  }

  function CallsBefore(runs: seq<Run>, i: nat): seq<string>
    requires i < |runs|
  {
    if i == 0 then [] else Calls(runs[i - 1].content)
  }

  /** The results in message i answer the calls of the message before it, one to one, and lead the message. */
  ghost predicate Answered(runs: seq<Run>, i: nat)
    requires i < |runs|
  {
    var answers := Results(runs[i].content);
    ResultsLead(runs[i].content) && NoDuplicates(answers) && Members(answers) == Members(CallsBefore(runs, i))
  }

  /** A conversation the API accepts. */
  ghost predicate WellPaired(runs: seq<Run>) {
    && runs != [] && runs[0].role.User? && runs[|runs| - 1].role.User?
    && forall i :: 0 <= i < |runs| && runs[i].role.User? ==> Answered(runs, i)
  }

  /** What the code tracks: the calls not answered yet, and every call made. */
  datatype Scan = Scan(pending: set<string>, calls: set<string>)

  function Pairing(before: Scan, last: Option<Role>, item: Item): Option<Scan> {
    if last == Some(User) && item.role.Assistant? && before.pending != {} then None
    else match item.content
      case Text(_) => if item.role.User? && before.pending != {} then None else Some(before)
      case ToolCall(id, _, _) =>
        if id in before.calls then None else Some(Scan(before.pending + {id}, before.calls + {id}))
      case ToolResult(id, _, _) =>
        if id in before.pending then Some(before.(pending := before.pending - {id})) else None
      case Reasoning(_, _, _) => Some(before)
  }

  function LastRole(items: seq<Item>): Option<Role> {
    if items == [] then None else Some(items[|items| - 1].role)
  }

  function Scanned(items: seq<Item>): Option<Scan> {
    if items == [] then Some(Scan({}, {}))
    else
      var before := Scanned(items[..|items| - 1]);
      if before.None? then None
      else Pairing(before.value, LastRole(items[..|items| - 1]), items[|items| - 1])
  }

  /** Calls and reasoning belong to the assistant, results to the user. */
  predicate RoleFits(item: Item) {
    match item.content
    case Text(_) => true
    case ToolCall(_, _, _) => item.role.Assistant?
    case ToolResult(_, _, _) => item.role.User?
    case Reasoning(_, _, _) => item.role.Assistant?
  }

  /** A conversation that could still become well paired: only the last message may lack results. */
  ghost predicate Partial(runs: seq<Run>) {
    && (forall i :: 0 <= i < |runs| - 1 && runs[i].role.User? ==> Answered(runs, i))
    && (runs != [] && runs[|runs| - 1].role.User? ==> PartlyAnswered(runs))
  }

  predicate HasOther(content: seq<Content>) {
    exists c :: c in content && !c.ToolResult?
  }

  ghost predicate PartlyAnswered(runs: seq<Run>)
    requires runs != []
  {
    var content := runs[|runs| - 1].content;
    var answers, calls := Members(Results(content)), Members(CallsBefore(runs, |runs| - 1));
    && ResultsLead(content) && NoDuplicates(Results(content)) && answers <= calls
    && (HasOther(content) ==> answers == calls)
  }

  function Open(runs: seq<Run>): set<string> {
    if runs == [] then {}
    else if runs[|runs| - 1].role.Assistant? then Members(Calls(runs[|runs| - 1].content))
    else Members(CallsBefore(runs, |runs| - 1)) - Members(Results(runs[|runs| - 1].content))
  }

  lemma SnocCalls(content: seq<Content>, c: Content)
    ensures Calls(content + [c]) == Calls(content) + if c.ToolCall? then [c.id] else []
    ensures Results(content + [c]) == Results(content) + if c.ToolResult? then [c.callId] else []
  {
    assert (content + [c])[..|content|] == content;
  }

  lemma SnocMembers<T>(s: seq<T>, x: T)
    ensures Members(s + [x]) == Members(s) + {x}
    ensures NoDuplicates(s + [x]) <==> NoDuplicates(s) && x !in Members(s)
  {
    var t := s + [x];
    assert forall i :: 0 <= i < |s| ==> t[i] == s[i];
    assert t[|s|] == x;
    if NoDuplicates(s) && x !in Members(s) {
      assert forall i :: 0 <= i < |s| ==> s[i] in s;
    }
    if NoDuplicates(t) {
      forall i | 0 <= i < |s|
        ensures s[i] != x
      {
        assert t[i] != t[|s|];
      }
      assert forall i, j :: 0 <= i < j < |s| ==> t[i] != t[j];
    }
  }

  lemma LeadSnoc(content: seq<Content>, c: Content)
    ensures ResultsLead(content + [c]) <==>
              ResultsLead(content) && (c.ToolResult? ==> !HasOther(content))
    ensures HasOther(content + [c]) <==> HasOther(content) || !c.ToolResult?
  {
    var t := content + [c];
    assert forall i :: 0 <= i < |content| ==> t[i] == content[i];
    assert t[|content|] == c;
    if HasOther(content) {
      var d :| d in content && !d.ToolResult?;
      assert d in t;
    }
    if ResultsLead(t) {
      assert forall i :: 0 <= i < |content| && c.ToolResult? ==> t[|content|].ToolResult? && t[i].ToolResult?;
      assert forall i, j :: 0 <= i < j < |content| && t[j].ToolResult? ==> t[i].ToolResult?;
    }
  }

  /** The test of one block against the calls still pending. */
  predicate Fits(pending: set<string>, last: Option<Role>, item: Item) {
    && (last == Some(User) && item.role.Assistant? ==> pending == {})
    && (item.content.Text? && item.role.User? ==> pending == {})
    && (item.content.ToolResult? ==> item.content.callId in pending)
  }

  function Left(pending: set<string>, c: Content): set<string> {
    if c.ToolCall? then pending + {c.id}
    else if c.ToolResult? then pending - {c.callId}
    else pending
  }

  function LastRun(runs: seq<Run>): Option<Role> {
    if runs == [] then None else Some(runs[|runs| - 1].role)
  }

  /** A user message that starts: its first block is a result of the message before, or nothing was called there. */
  lemma UserBegins(runs: seq<Run>, c: Content)
    requires LastRun(runs) != Some(User) && RoleFits(Item(User, c))
    ensures var t := runs + [Run(User, [c])];
      && (Partial(t) <==> Partial(runs) && Fits(Open(runs), LastRun(runs), Item(User, c)))
      && Open(t) == Left(Open(runs), c)
  {
    hide Answered, Calls;
    var t := runs + [Run(User, [c])];
    assert [] + [c] == [c];
    SnocCalls([], c);
    assert Members(Results([c])) == if c.ToolResult? then {c.callId} else {};
    assert Members(CallsBefore(t, |runs|)) == Open(runs);
    AnsweredPrefix(runs, t);
    assert c in [c];
  }

  lemma UserExtends(runs: seq<Run>, c: Content)
    requires LastRun(runs) == Some(User) && RoleFits(Item(User, c))
    ensures var last := runs[|runs| - 1];
      && var t := runs[..|runs| - 1] + [Run(User, last.content + [c])];
      && (Partial(t) <==> Partial(runs) && Fits(Open(runs), LastRun(runs), Item(User, c)))
      && Open(t) == Left(Open(runs), c)
  {
    hide Answered, PartlyAnswered, Calls, Results;
    var last, before := runs[|runs| - 1], runs[..|runs| - 1];
    var t := before + [Run(User, last.content + [c])];
    SnocCalls(last.content, c);
    assert runs == before + [last];
    AnsweredPrefix(before, t);
    AnsweredPrefix(before, runs);
    assert CallsBefore(t, |before|) == CallsBefore(runs, |before|);
    PartlyAnsweredSnoc(runs, t, c);
  }

  lemma PartlyAnsweredSnoc(runs: seq<Run>, t: seq<Run>, c: Content)
    requires LastRun(runs) == Some(User) && RoleFits(Item(User, c)) && |t| == |runs|
    requires t[|t| - 1] == Run(User, runs[|runs| - 1].content + [c])
    requires CallsBefore(t, |t| - 1) == CallsBefore(runs, |runs| - 1)
    ensures PartlyAnswered(t) <==> PartlyAnswered(runs) && Fits(Open(runs), LastRun(runs), Item(User, c))
    ensures Open(t) == Left(Open(runs), c)
  {
    hide Calls, Results, ResultsLead, NoDuplicates, HasOther, CallsBefore, Members;
    var content := runs[|runs| - 1].content;
    SnocCalls(content, c);
    LeadSnoc(content, c);
    var answers, calls := Members(Results(content)), Members(CallsBefore(runs, |runs| - 1));
    if c.ToolResult? {
      SnocMembers(Results(content), c.callId);
      assert Members(Results(content + [c])) == answers + {c.callId};
      assert Open(t) == calls - (answers + {c.callId}) == Open(runs) - {c.callId};
    } else {
      assert Results(content + [c]) == Results(content);
      if answers <= calls {
        OpenIsEmpty(answers, calls);
      }
    }
  }

  lemma OpenIsEmpty(answers: set<string>, calls: set<string>)
    requires answers <= calls
    ensures calls - answers == {} <==> answers == calls
  {
    if calls - answers == {} {
      forall x | x in calls
        ensures x in answers
      {
        assert x !in calls - answers;
      }
    }
  }

  /** A user message is complete when no call is left open. */
  lemma ClosedIsAnswered(runs: seq<Run>)
    requires LastRun(runs) == Some(User)
    ensures Answered(runs, |runs| - 1) <==> PartlyAnswered(runs) && Open(runs) == {}
  {
    hide NoDuplicates, ResultsLead, HasOther, CallsBefore, Members, Results;
    var answers, calls := Members(Results(runs[|runs| - 1].content)), Members(CallsBefore(runs, |runs| - 1));
    if answers <= calls {
      OpenIsEmpty(answers, calls);
    }
  }

  lemma AssistantBegins(runs: seq<Run>, c: Content)
    requires LastRun(runs) != Some(Assistant) && RoleFits(Item(Assistant, c))
    ensures var t := runs + [Run(Assistant, [c])];
      && (Partial(t) <==> Partial(runs) && Fits(Open(runs), LastRun(runs), Item(Assistant, c)))
      && (Open(runs) == {} ==> Open(t) == Left(Open(runs), c))
  {
    hide NoDuplicates, ResultsLead, HasOther, CallsBefore, PartlyAnswered, Answered;
    var t := runs + [Run(Assistant, [c])];
    assert [] + [c] == [c];
    SnocCalls([], c);
    AnsweredPrefix(runs, t);
    if runs != [] {
      assert runs[|runs| - 1].role.User?;
      ClosedIsAnswered(runs);
    }
  }

  lemma AssistantExtends(runs: seq<Run>, c: Content)
    requires LastRun(runs) == Some(Assistant) && RoleFits(Item(Assistant, c))
    ensures var last := runs[|runs| - 1];
      && var t := runs[..|runs| - 1] + [Run(Assistant, last.content + [c])];
      && (Partial(t) <==> Partial(runs) && Fits(Open(runs), LastRun(runs), Item(Assistant, c)))
      && Open(t) == Left(Open(runs), c)
  {
    hide Answered, Calls, NoDuplicates, PartlyAnswered, CallsBefore, Members, Results;
    var last, before := runs[|runs| - 1], runs[..|runs| - 1];
    var t := before + [Run(Assistant, last.content + [c])];
    SnocCalls(last.content, c);
    if c.ToolCall? {
      SnocMembers(Calls(last.content), c.id);
    } else {
      assert Calls(last.content + [c]) == Calls(last.content);
    }
    assert runs == before + [last];
    AnsweredPrefix(before, t);
    AnsweredPrefix(before, runs);
    assert Partial(t) <==> Partial(runs);
  }

  lemma AnsweredPrefix(runs: seq<Run>, t: seq<Run>)
    requires runs <= t
    ensures forall i :: 0 <= i < |runs| ==> (Answered(t, i) <==> Answered(runs, i))
  {
    forall i | 0 <= i < |runs|
      ensures Answered(t, i) <==> Answered(runs, i)
    {
      assert CallsBefore(t, i) == CallsBefore(runs, i);
    }
  }

  /** The running set of pending calls decides exactly the declarative pairing of the merged messages. */
  lemma {:induction false} ScanDecides(items: seq<Item>)
    requires forall item :: item in items ==> RoleFits(item)
    ensures Scanned(items).Some? <==> NoDuplicates(Calls(Contents(items))) && Partial(Runs(items))
    ensures Scanned(items).Some? ==>
      Scanned(items).value == Scan(Open(Runs(items)), Members(Calls(Contents(items))))
  {
    hide Runs, Extend, Partial, Open, Calls, NoDuplicates, Members, Contents, Pairing;
    if items == [] {
      NothingScanned();
    } else {
      var before, item := items[..|items| - 1], items[|items| - 1];
      assert items == before + [item];
      ScanDecides(before);
      MergeKeepsBlocks(before);
      CallsStep(before, item);
      RunsSnoc(before, item);
      PartialStep(Runs(before), item);
      PairingFits(Scan(Open(Runs(before)), Members(Calls(Contents(before)))), LastRole(before), item);
    }
  }

  lemma NothingScanned()
    ensures Runs([]) == [] && Partial([]) && Open([]) == {} && NoDuplicates(Calls(Contents([])))
    ensures Members(Calls(Contents([]))) == {}
  {
  }

  lemma PairingFits(before: Scan, last: Option<Role>, item: Item)
    requires RoleFits(item)
    ensures Pairing(before, last, item).Some? <==>
              Fits(before.pending, last, item) && (item.content.ToolCall? ==> item.content.id !in before.calls)
    ensures Pairing(before, last, item).Some? ==>
              Pairing(before, last, item).value ==
                Scan(Left(before.pending, item.content),
                     before.calls + if item.content.ToolCall? then {item.content.id} else {})
  {
  }

  lemma PartialStep(runs: seq<Run>, item: Item)
    requires RoleFits(item)
    ensures Partial(Extend(runs, item)) <==> Partial(runs) && Fits(Open(runs), LastRun(runs), item)
    ensures Fits(Open(runs), LastRun(runs), item) ==> Open(Extend(runs, item)) == Left(Open(runs), item.content)
  {
    hide Partial, Open, Left;
    if item.role.User? {
      if LastRun(runs) == Some(User) {
        UserExtends(runs, item.content);
      } else {
        UserBegins(runs, item.content);
      }
    } else if LastRun(runs) == Some(Assistant) {
      AssistantExtends(runs, item.content);
    } else {
      AssistantBegins(runs, item.content);
      NothingScanned();
    }
  }

  lemma CallsStep(before: seq<Item>, item: Item)
    ensures var calls, calls' := Calls(Contents(before)), Calls(Contents(before + [item]));
      && (item.content.ToolCall? ==>
            && Members(calls') == Members(calls) + {item.content.id}
            && (NoDuplicates(calls') <==> NoDuplicates(calls) && item.content.id !in Members(calls)))
      && (!item.content.ToolCall? ==> calls' == calls)
  {
    assert Contents(before + [item]) == Contents(before) + [item.content];
    SnocCalls(Contents(before), item.content);
    if item.content.ToolCall? {
      SnocMembers(Calls(Contents(before)), item.content.id);
    }
  }

  /** A stream the scan takes has only prefixes the scan takes. */
  lemma {:induction false} ScannedPrefix(items: seq<Item>, more: seq<Item>)
    requires Scanned(items + more).Some?
    ensures Scanned(items).Some?
  {
    hide Pairing;
    if more == [] {
      assert items + more == items;
    } else {
      assert (items + more)[..|items + more| - 1] == items + more[..|more| - 1];
      ScannedPrefix(items, more[..|more| - 1]);
    }
  }

  lemma ScannedSnoc(items: seq<Item>, item: Item)
    ensures Scanned(items + [item]) ==
      if Scanned(items).None? then None else Pairing(Scanned(items).value, LastRole(items), item)
  {
    hide Pairing;
    assert (items + [item])[..|items|] == items;
  }

  function Merge(runs: seq<Run>, message: Message): seq<Run> {
    if runs != [] && runs[|runs| - 1].role == message.role then
      runs[..|runs| - 1] + [Run(message.role, runs[|runs| - 1].content + message.content)]
    else
      runs + [Run(message.role, message.content)]
  }

  /** Appending a whole message to the stream merges it into the last run, or starts one. */
  lemma {:induction false} RunsMerge(items: seq<Item>, message: Message)
    requires message.content != []
    ensures Runs(items + Items(message.role, message.content)) == Merge(Runs(items), message)
    decreases |message.content|
  {
    hide Runs, Items;
    var content, role := message.content, message.role;
    var shorter, c := content[..|content| - 1], content[|content| - 1];
    assert content == shorter + [c];
    ItemsSnoc(role, shorter, c);
    if shorter == [] {
      assert items + Items(role, content) == items + [Item(role, c)];
      RunsSnoc(items, Item(role, c));
    } else {
      RunsMerge(items, Message(role, shorter));
      assert items + Items(role, content) == items + Items(role, shorter) + [Item(role, c)];
      RunsSnoc(items + Items(role, shorter), Item(role, c));
      var runs := Runs(items);
      if runs != [] && runs[|runs| - 1].role == role {
        var last := runs[|runs| - 1].content;
        assert last + shorter + [c] == last + content;
      }
    }
  }

  /** What the last checks add: the conversation ends with a user message and no call is open. */
  lemma ClosedIsPaired(runs: seq<Run>)
    ensures WellPaired(runs) <==>
              && Partial(runs) && Open(runs) == {}
              && runs != [] && runs[0].role.User? && runs[|runs| - 1].role.User?
  {
    hide Open, PartlyAnswered, Answered;
    if LastRun(runs) == Some(User) {
      ClosedIsAnswered(runs);
    }
  }
}
