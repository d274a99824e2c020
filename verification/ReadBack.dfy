/** Reading a prepared request back: nothing the transcript says is lost or changed on the wire, and everything on the
    wire is what the API demands of it. */
module ReadBack {
  import opened Wrappers
  import opened JsonValue
  import opened Transcript
  import opened ToolNames
  import opened PrepareRequest

  // ---- The decoder ----

  /** What one block says, in the application's own terms. */
  datatype Meaning =
    | Says(text: string)
    | Calls(id: string, name: string, input: Json)
    | Returns(callId: string, output: string, isError: bool)
    | Thinks(value: Json)

  datatype Told = Told(role: Role, meaning: Meaning)

  /** A wire name is read back through the aliases. */
  function Decoded(block: Block, aliases: map<string, string>): Meaning {
    match block
    case TextBlock(text) => Says(text)
    case ToolUse(id, wire, input) => Calls(id, if wire in aliases then aliases[wire] else [], input)
    case ToolOutput(callId, output, isError) => Returns(callId, output, isError)
    case Thinking(value) => Thinks(value)
  }

  function DecodedAll(role: Role, blocks: seq<Block>, aliases: map<string, string>): (told: seq<Told>)
    ensures |told| == |blocks|
    ensures forall i :: 0 <= i < |blocks| ==> told[i] == Told(role, Decoded(blocks[i], aliases))
  {
    seq(|blocks|, i requires 0 <= i < |blocks| => Told(role, Decoded(blocks[i], aliases)))
  }

  function Read(messages: seq<WireMessage>, aliases: map<string, string>): seq<Told> {
    if messages == [] then []
    else
      var last := messages[|messages| - 1];
      Read(messages[..|messages| - 1], aliases) + DecodedAll(last.role, last.content, aliases)
  }

  /** The transcript's own content says the same. */
  ghost predicate Same(told: Told, item: Item, parse: string -> Option<Json>) {
    && told.role == item.role
    && match item.content
       case Text(text) => told.meaning == Says(text)
       case ToolCall(id, name, input) => told.meaning == Calls(id, name, input)
       case ToolResult(callId, output, isError) => told.meaning == Returns(callId, output, isError)
       case Reasoning(_, _, continuation) => told.meaning.Thinks? && parse(continuation) == Some(told.meaning.value)
  }

  ghost predicate AllSame(told: seq<Told>, items: seq<Item>, parse: string -> Option<Json>) {
    |told| == |items| && forall i :: 0 <= i < |items| ==> Same(told[i], items[i], parse)
  }

  // ---- Every name has one alias ----

  /** The aliases of some names, mapped back. */
  ghost function AliasesOf(used: set<string>): (aliases: map<string, string>)
    requires Unambiguous(used)
    ensures Inverse(aliases, used)
  {
    map w | w in set n | n in used :: Wire(n) :: NameOf(used, w)
  }

  ghost function NameOf(used: set<string>, wire: string): (name: string)
    requires exists n :: n in used && Wire(n) == wire
    ensures name in used && Wire(name) == wire
  {
    var n :| n in used && Wire(n) == wire;
    n
  }

  lemma AliasesExist(used: set<string>)
    requires Unambiguous(used)
    ensures exists aliases :: Inverse(aliases, used)
  {
    hide Wire;
    assert Inverse(AliasesOf(used), used);
  }

  // ---- The round trip ----

  lemma BlockReadsBack(item: Item, used: set<string>, aliases: map<string, string>, configuration: Configuration,
                       parse: string -> Option<Json>)
    requires PrepareRequest.BlockFits(item, configuration, parse) && Inverse(aliases, used)
    requires item.content.ToolCall? ==> item.content.name in used
    ensures Same(Told(item.role, Decoded(Encoded(item.content, parse), aliases)), item, parse)
  {
    hide Wire;
  }

  lemma {:induction false} RunsReadBack(runs: seq<Run>, used: set<string>, aliases: map<string, string>,
                                        configuration: Configuration, parse: string -> Option<Json>)
    requires BlocksFit(FlatRuns(runs), configuration, parse) && Inverse(aliases, used)
    requires CalledNames(FlatRuns(runs)) <= used
    ensures AllSame(Read(EncodedRuns(runs, parse), aliases), FlatRuns(runs), parse)
  {
    hide Items, Encoded, PrepareRequest.BlockFits, Inverse, Decoded, Same;
    if runs != [] {
      var before, last := runs[..|runs| - 1], runs[|runs| - 1];
      var items, messages := Items(last.role, last.content), EncodedRuns(runs, parse);
      var prior := FlatRuns(before);
      assert messages[..|runs| - 1] == EncodedRuns(before, parse);
      assert FlatRuns(runs) == prior + items;
      PartsFit(prior, items, configuration, parse);
      RunsReadBack(before, used, aliases, configuration, parse);
      forall i | 0 <= i < |items|
        ensures Same(DecodedAll(last.role, messages[|runs| - 1].content, aliases)[i], items[i], parse)
      {
        assert BlocksFit(items, configuration, parse) && items[i] in items;
        BlockReadsBack(items[i], used, aliases, configuration, parse);
      }
    }
  }

  lemma PartsFit(prior: seq<Item>, items: seq<Item>, configuration: Configuration, parse: string -> Option<Json>)
    requires BlocksFit(prior + items, configuration, parse)
    ensures BlocksFit(prior, configuration, parse) && BlocksFit(items, configuration, parse)
    ensures CalledNames(prior) <= CalledNames(prior + items) && CalledNames(items) <= CalledNames(prior + items)
  {
    hide PrepareRequest.BlockFits;
    forall i | 0 <= i < |items|
      ensures PrepareRequest.BlockFits(items[i], configuration, parse)
    {
      assert (prior + items)[|prior| + i] == items[i];
    }
    forall i | 0 <= i < |prior|
      ensures PrepareRequest.BlockFits(prior[i], configuration, parse)
    {
      assert (prior + items)[i] == prior[i];
    }
  }

  /** The names of the tools a request declares and of those its transcript calls. */
  function UsedNames(request: Request): set<string> {
    Members(Names(request.tools)) + CalledNames(Flat(request.messages))
  }

  /** Round trip: from the messages of any accepted request, and the aliases of the names it uses, a reader recovers
      every block of the transcript, in order and under its role: each text, each call with its id, name and input,
      each result with its call, output and error flag, and the parsed value of each continuation. Such aliases
      exist, and the prepared tool names are a part of them. */
  lemma RequestReadsBack(request: Request, configuration: Configuration, parse: string -> Option<Json>)
    requires Acceptable(request, configuration, parse)
    ensures exists aliases :: Inverse(aliases, UsedNames(request))
    ensures forall aliases :: Inverse(aliases, UsedNames(request)) ==>
              AllSame(Read(EncodedRuns(Runs(Flat(request.messages)), parse), aliases), Flat(request.messages), parse)
    ensures forall aliases, toolNames, w ::
              Inverse(aliases, UsedNames(request)) && Inverse(toolNames, Members(Names(request.tools))) ==>
                w in toolNames ==> w in aliases && aliases[w] == toolNames[w]
  {
    hide Wire, Inverse, Runs, Flat, Read, EncodedRuns, AllSame, BlocksFit, WellPaired, OptionsFit, ToolFits, Names;
    var items, declared, used := Flat(request.messages), Members(Names(request.tools)), UsedNames(request);
    AliasesExist(used);
    MergeKeepsBlocks(items);
    forall aliases | Inverse(aliases, used)
      ensures AllSame(Read(EncodedRuns(Runs(items), parse), aliases), items, parse)
    {
      RunsReadBack(Runs(items), used, aliases, configuration, parse);
    }
    forall aliases, toolNames, w | Inverse(aliases, used) && Inverse(toolNames, declared) && w in toolNames
      ensures w in aliases && aliases[w] == toolNames[w]
    {
      SameNames(toolNames, declared, aliases, used);
    }
  }

  lemma SameNames(toolNames: map<string, string>, declared: set<string>, aliases: map<string, string>,
                  used: set<string>)
    requires Inverse(toolNames, declared) && Inverse(aliases, used) && declared <= used
    ensures forall w :: w in toolNames ==> w in aliases && aliases[w] == toolNames[w]
  {
    hide Wire;
  }

  // ---- What the API demands ----

  /** A block as the API takes it from this role. */
  ghost predicate Valid(role: Role, block: Block, budget: nat) {
    match block
    case TextBlock(text) => text != []
    case ToolUse(id, wire, input) => role.Assistant? && id != [] && ValidName(wire) && input.Object?
    case ToolOutput(_, _, _) => role.User?
    case Thinking(value) =>
      && role.Assistant? && budget != 0
      && ((TextAt(value, "type") == Some("thinking") && TextAt(value, "thinking").Some? &&
           TextAt(value, "signature").Some? && TextAt(value, "signature") != Some("")) ||
          (TextAt(value, "type") == Some("redacted_thinking") && TextAt(value, "data").Some?))
  }

  lemma BlockIsValid(item: Item, configuration: Configuration, parse: string -> Option<Json>)
    requires PrepareRequest.BlockFits(item, configuration, parse)
    ensures Valid(item.role, Encoded(item.content, parse), configuration.thinkingBudgetTokens)
  {
    hide Wire, ValidName;
    if item.content.ToolCall? {
      WireIsLegal(item.content.name);
    }
  }

  lemma {:induction false} RunsAreValid(runs: seq<Run>, configuration: Configuration, parse: string -> Option<Json>)
    requires BlocksFit(FlatRuns(runs), configuration, parse)
    ensures var messages := EncodedRuns(runs, parse);
      forall i, j :: 0 <= i < |messages| && 0 <= j < |messages[i].content| ==>
        Valid(messages[i].role, messages[i].content[j], configuration.thinkingBudgetTokens)
  {
    hide Items, Encoded, PrepareRequest.BlockFits, Valid;
    if runs != [] {
      var before, last := runs[..|runs| - 1], runs[|runs| - 1];
      var items := Items(last.role, last.content);
      PartsFit(FlatRuns(before), items, configuration, parse);
      RunsAreValid(before, configuration, parse);
      assert EncodedRuns(runs, parse)[..|runs| - 1] == EncodedRuns(before, parse);
      forall j | 0 <= j < |items|
        ensures Valid(last.role, EncodedAll(last.content, parse)[j], configuration.thinkingBudgetTokens)
      {
        BlockIsValid(items[j], configuration, parse);
      }
    }
  }

  /** What is sent keeps the API's rules: a listed model, a positive limit, a thinking budget from 1024 to below the
      limit and never together with forced tool use, tools with object schemas under legal names, and every block
      complete and in the right role; thinking goes back signed, or redacted with its data. */
  lemma SentIsValid(request: Request, configuration: Configuration, parse: string -> Option<Json>)
    requires Acceptable(request, configuration, parse)
    ensures var messages, tools := EncodedRuns(Runs(Flat(request.messages)), parse), EncodedTools(request.tools);
      var maximum, budget := if request.maximumOutputTokens != 0 then request.maximumOutputTokens
                             else configuration.maximumOutputTokens, configuration.thinkingBudgetTokens;
      && request.model != [] && request.model in configuration.models && maximum > 0
      && (budget == 0 || (1024 <= budget < maximum && !request.toolChoice.Required?))
      && (request.toolChoice.Required? ==> tools != [])
      && (forall i :: 0 <= i < |tools| ==>
            ValidName(tools[i].name) && At(tools[i].inputSchema, "type") == Some(String("object")))
      && (forall i, j :: 0 <= i < |messages| && 0 <= j < |messages[i].content| ==>
            Valid(messages[i].role, messages[i].content[j], budget))
  {
    hide Runs, Flat, EncodedRuns, BlocksFit, WellPaired, Unambiguous, NoDuplicates, Transcript.Calls, Contents, Wire,
      ValidName, Valid;
    var items := Flat(request.messages);
    MergeKeepsBlocks(items);
    RunsAreValid(Runs(items), configuration, parse);
    forall i | 0 <= i < |request.tools|
      ensures ValidName(Wire(request.tools[i].name))
    {
      WireIsLegal(request.tools[i].name);
    }
  }

  // ---- Conversations without tools ----

  /** A conversation of texts alone, without tools, is taken exactly when it begins and ends with the user, no message
      and no text is empty, and the options keep the rules. */
  lemma TextsAreTaken(request: Request, configuration: Configuration, parse: string -> Option<Json>)
    requires request.tools == [] && !request.toolChoice.Required?
    requires forall item :: item in Flat(request.messages) ==> item.content.Text?
    ensures var maximum, budget := if request.maximumOutputTokens != 0 then request.maximumOutputTokens
                                   else configuration.maximumOutputTokens, configuration.thinkingBudgetTokens;
      Acceptable(request, configuration, parse) <==>
      && request.model != [] && request.model in configuration.models && maximum > 0
      && (budget == 0 || 1024 <= budget < maximum)
      && request.messages != [] && request.messages[0].role.User?
      && request.messages[|request.messages| - 1].role.User?
      && (forall i :: 0 <= i < |request.messages| ==> request.messages[i].content != [])
      && (forall item :: item in Flat(request.messages) ==> item.content.text != [])
  {
    hide Runs, Flat, WellPaired, Wire;
    var items := Flat(request.messages);
    NoTools();
    if forall i :: 0 <= i < |request.messages| ==> request.messages[i].content != [] {
      Ends(request.messages);
      TextsPaired(items);
    }
    assert CalledNames(items) == {};
    TextsCallNothing(Contents(items));
  }

  lemma {:induction false} TextsCallNothing(content: seq<Content>)
    requires forall c :: c in content ==> c.Text?
    ensures Transcript.Calls(content) == [] && Results(content) == []
  {
    if content != [] {
      assert content[|content| - 1] in content;
      TextsCallNothing(content[..|content| - 1]);
    }
  }

  /** The first and last roles of a transcript are those of its messages. */
  lemma {:induction false} Ends(messages: seq<Message>)
    requires forall i :: 0 <= i < |messages| ==> messages[i].content != []
    ensures messages == [] <==> Flat(messages) == []
    ensures messages != [] ==> var items := Flat(messages);
      items[0].role == messages[0].role && items[|items| - 1].role == messages[|messages| - 1].role
  {
    if messages != [] {
      Ends(messages[..|messages| - 1]);
    }
  }

  lemma TextsPaired(items: seq<Item>)
    requires forall item :: item in items ==> item.content.Text?
    ensures WellPaired(Runs(items)) <==> items != [] && items[0].role.User? && items[|items| - 1].role.User?
  {
    hide Runs, Answered, FlatRuns;
    MergeKeepsBlocks(items);
    var runs := Runs(items);
    forall i | 0 <= i < |runs|
      ensures Answered(runs, i)
    {
      NothingToAnswer(runs, i);
    }
  }

  lemma NothingToAnswer(runs: seq<Run>, i: nat)
    requires i < |runs| && forall item :: item in FlatRuns(runs) ==> item.content.Text?
    ensures Answered(runs, i)
  {
    hide FlatRuns, Transcript.Calls, Results;
    TextRun(runs, i);
    TextsCallNothing(runs[i].content);
    assert forall j :: 0 <= j < |runs[i].content| ==> runs[i].content[j] in runs[i].content;
    if i > 0 {
      TextRun(runs, i - 1);
      TextsCallNothing(runs[i - 1].content);
    }
  }

  lemma {:induction false} TextRun(runs: seq<Run>, i: nat)
    requires i < |runs| && forall item :: item in FlatRuns(runs) ==> item.content.Text?
    ensures forall c :: c in runs[i].content ==> c.Text?
  {
    hide Items;
    var before, last := runs[..|runs| - 1], runs[|runs| - 1];
    if i < |before| {
      assert forall item :: item in FlatRuns(before) ==> item in FlatRuns(runs);
      TextRun(before, i);
    } else {
      forall c | c in last.content
        ensures c.Text?
      {
        var j :| 0 <= j < |last.content| && last.content[j] == c;
        assert Items(last.role, last.content)[j] in FlatRuns(runs);
      }
    }
  }
}
