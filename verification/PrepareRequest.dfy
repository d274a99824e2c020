/** The whole of prepareRequest in src/ai/providers/anthropic/AnthropicProvider.cpp: its checks, its loops and the
    request body it builds. Json::parse is the parameter `parse`, which gives None where the original throws. */
module PrepareRequest {
  import opened Wrappers
  import opened JsonValue
  import opened Transcript
  import opened ToolNames

  datatype ToolChoice = Auto | Never | Required

  datatype Tool = Tool(name: string, description: string, inputSchema: Json)

  datatype Request = Request(
    model: string, instructions: string, messages: seq<Message>, tools: seq<Tool>,
    toolChoice: ToolChoice, parallelTools: bool, maximumOutputTokens: nat)

  datatype Configuration = Configuration(models: seq<string>, maximumOutputTokens: nat, thinkingBudgetTokens: nat)

  datatype Block =
    | TextBlock(text: string)
    | ToolUse(id: string, name: string, input: Json)
    | ToolOutput(callId: string, output: string, isError: bool)
    | Thinking(value: Json)

  datatype WireMessage = WireMessage(role: Role, content: seq<Block>)

  datatype WireTool = WireTool(name: string, description: string, inputSchema: Json)

  datatype WireChoice = WireChoice(kind: string, disableParallel: Option<bool>)

  datatype Prepared = Prepared(
    model: string, maximum: nat, system: Option<string>, messages: seq<WireMessage>, tools: seq<WireTool>,
    choice: Option<WireChoice>, budget: Option<nat>, toolNames: map<string, string>)

  // ---- What a caller has to provide ----

  function Maximum(request: Request, configuration: Configuration): nat {
    if request.maximumOutputTokens == 0 then configuration.maximumOutputTokens else request.maximumOutputTokens
  }

  predicate OptionsFit(request: Request, configuration: Configuration) {
    && request.model != [] && request.model in configuration.models
    && Maximum(request, configuration) > 0
    && (configuration.thinkingBudgetTokens != 0 ==>
          1024 <= configuration.thinkingBudgetTokens < Maximum(request, configuration) && !request.toolChoice.Required?)
  }

  function Names(tools: seq<Tool>): (names: seq<string>)
    ensures |names| == |tools| && forall i :: 0 <= i < |tools| ==> names[i] == tools[i].name
  {
    seq(|tools|, i requires 0 <= i < |tools| => tools[i].name)
  }

  predicate ToolFits(tool: Tool) {
    tool.name != [] && tool.inputSchema.Object? && TextOr(tool.inputSchema, "type") == Some("object")
  }

  /** A reasoning block must come back unmodified and signed, or redacted with its data. */
  predicate Continues(thought: string, value: Option<Json>) {
    && value.Some?
    && var kind := TextOr(value.value, "type");
    if kind == Some("thinking") then
      && At(value.value, "thinking") == Some(String(thought))
      && TextAt(value.value, "signature").Some? && TextAt(value.value, "signature") != Some("")
    else
      kind == Some("redacted_thinking") && TextAt(value.value, "data").Some?
  }

  predicate BlockFits(item: Item, configuration: Configuration, parse: string -> Option<Json>) {
    && RoleFits(item)
    && match item.content
       case Text(text) => text != []
       case ToolCall(id, name, input) => id != [] && name != [] && input.Object?
       case ToolResult(_, _, _) => true
       case Reasoning(thought, provider, continuation) =>
         provider == "anthropic" && configuration.thinkingBudgetTokens != 0 && Continues(thought, parse(continuation))
  }

  ghost predicate BlocksFit(items: seq<Item>, configuration: Configuration, parse: string -> Option<Json>) {
    forall i :: 0 <= i < |items| ==> BlockFits(items[i], configuration, parse)
  }

  function CalledNames(items: seq<Item>): set<string> {
    set item | item in items && item.content.ToolCall? :: item.content.name
  }

  /** The requests prepareRequest takes. */
  ghost predicate Acceptable(request: Request, configuration: Configuration, parse: string -> Option<Json>) {
    var items := Flat(request.messages);
    && OptionsFit(request, configuration)
    && (request.toolChoice.Required? ==> request.tools != [])
    && NoDuplicates(Names(request.tools)) && (forall i :: 0 <= i < |request.tools| ==> ToolFits(request.tools[i]))
    && (forall i :: 0 <= i < |request.messages| ==> request.messages[i].content != [])
    && BlocksFit(items, configuration, parse)
    && Unambiguous(Members(Names(request.tools)) + CalledNames(items))
    && NoDuplicates(Calls(Contents(items)))
    && WellPaired(Runs(items))
  }

  // ---- What the API receives ----

  function Encoded(c: Content, parse: string -> Option<Json>): Block {
    match c
    case Text(text) => TextBlock(text)
    case ToolCall(id, name, input) => ToolUse(id, Wire(name), input)
    case ToolResult(callId, output, isError) => ToolOutput(callId, output, isError)
    case Reasoning(_, _, continuation) =>
      Thinking(if parse(continuation).Some? then parse(continuation).value else Null)
  }

  function EncodedAll(content: seq<Content>, parse: string -> Option<Json>): (blocks: seq<Block>)
    ensures |blocks| == |content| && forall i :: 0 <= i < |content| ==> blocks[i] == Encoded(content[i], parse)
  {
    seq(|content|, i requires 0 <= i < |content| => Encoded(content[i], parse))
  }

  function EncodedRuns(runs: seq<Run>, parse: string -> Option<Json>): (messages: seq<WireMessage>)
    ensures |messages| == |runs|
    ensures forall i :: 0 <= i < |runs| ==>
                          messages[i] == WireMessage(runs[i].role, EncodedAll(runs[i].content, parse))
  {
    seq(|runs|, i requires 0 <= i < |runs| => WireMessage(runs[i].role, EncodedAll(runs[i].content, parse)))
  }

  function EncodedTools(tools: seq<Tool>): (wired: seq<WireTool>)
    ensures |wired| == |tools|
    ensures forall i :: 0 <= i < |tools| ==>
                          wired[i] == WireTool(Wire(tools[i].name), tools[i].description, tools[i].inputSchema)
  {
    seq(|tools|, i requires 0 <= i < |tools| =>
      WireTool(Wire(tools[i].name), tools[i].description, tools[i].inputSchema))
  }

  /** The aliases of exactly these names, mapped back. */
  ghost predicate Inverse(toolNames: map<string, string>, declared: set<string>) {
    && (forall n :: n in declared ==> Wire(n) in toolNames && toolNames[Wire(n)] == n)
    && (forall w :: w in toolNames ==> toolNames[w] in declared && w == Wire(toolNames[w]))
  }

  /** How the API is told the tool choice; whether calls may be parallel matters only where there may be any. */
  ghost predicate Expresses(choice: WireChoice, toolChoice: ToolChoice, parallelTools: bool) {
    && (choice.kind == "none" <==> toolChoice.Never?) && (choice.kind == "any" <==> toolChoice.Required?)
    && (choice.kind == "auto" <==> toolChoice.Auto?)
    && (choice.disableParallel.None? <==> toolChoice.Never?)
    && (choice.disableParallel.Some? ==> choice.disableParallel.value == !parallelTools)
  }

  // ---- The loops ----

  lemma SmallerUnambiguous(small: set<string>, large: set<string>)
    requires small <= large && Unambiguous(large)
    ensures Unambiguous(small)
  {
  }

  ghost predicate ToolsFit(tools: seq<Tool>) {
    && NoDuplicates(Names(tools)) && (forall i :: 0 <= i < |tools| ==> ToolFits(tools[i]))
    && Unambiguous(Members(Names(tools)))
  }

  lemma ToolsSnoc(tools: seq<Tool>, tool: Tool)
    requires ToolsFit(tools)
    ensures ToolsFit(tools + [tool]) <==>
              && tool.name !in Members(Names(tools)) && ToolFits(tool)
              && Unambiguous(Members(Names(tools)) + {tool.name})
    ensures Members(Names(tools + [tool])) == Members(Names(tools)) + {tool.name}
    ensures EncodedTools(tools + [tool]) ==
            EncodedTools(tools) + [WireTool(Wire(tool.name), tool.description, tool.inputSchema)]
  {
    hide ToolFits, Unambiguous, Wire, Members, NoDuplicates;
    var all := tools + [tool];
    assert Names(all) == Names(tools) + [tool.name];
    SnocMembers(Names(tools), tool.name);
    assert all[|tools|] == tool && forall i :: 0 <= i < |tools| ==> all[i] == tools[i];
  }

  lemma ToolsPrefix(tools: seq<Tool>, n: nat)
    requires n <= |tools| && ToolsFit(tools)
    ensures ToolsFit(tools[..n])
  {
    hide ToolFits, Wire;
    var some := tools[..n];
    assert forall i :: 0 <= i < n ==> Names(some)[i] == Names(tools)[i];
    SmallerUnambiguous(Members(Names(some)), Members(Names(tools)));
  }

  lemma NoTools()
    ensures ToolsFit([]) && Names([]) == [] && EncodedTools([]) == [] && Table(map[], map[])
    ensures Members(Names([])) == {}
  {
  }

  method PrepareTools(tools: seq<Tool>)
    returns (wired: Option<seq<WireTool>>, declarations: set<string>, names: map<string, string>,
             toolNames: map<string, string>)
    ensures wired.Some? <==> ToolsFit(tools)
    ensures wired.Some? ==>
      && wired.value == EncodedTools(tools) && declarations == names.Keys == Members(Names(tools))
      && Table(names, toolNames)
  {
    hide Unambiguous, Wire, Table, ToolsFit, Members, Names, EncodedTools, TextOr;
    var result: seq<WireTool> := [];
    declarations, names, toolNames := {}, map[], map[];
    NoTools();
    for i := 0 to |tools|
      invariant ToolsFit(tools[..i]) && Table(names, toolNames)
      invariant result == EncodedTools(tools[..i]) && declarations == names.Keys == Members(Names(tools[..i]))
    {
      var tool := tools[i];
      assert tools[..i + 1] == tools[..i] + [tool];
      ToolsSnoc(tools[..i], tool);
      if ToolsFit(tools) {
        ToolsPrefix(tools, i + 1);
      }
      if tool.name in declarations {
        return None, declarations, names, toolNames;
      }
      declarations := declarations + {tool.name};
      if !(tool.inputSchema.Object? && TextOr(tool.inputSchema, "type") == Some("object")) {
        return None, declarations, names, toolNames;
      }
      var alias;
      alias, names, toolNames := Alias(tool.name, names, toolNames);
      if alias.None? {
        return None, declarations, names, toolNames;
      }
      result := result + [WireTool(alias.value, tool.description, tool.inputSchema)];
    }
    assert tools[..|tools|] == tools;
    wired := Some(result);
  }

  lemma PairingWithinMessage(before: Scan, last: Option<Role>, item: Item)
    requires last == Some(User) && item.role.Assistant? ==> before.pending == {}
    ensures Pairing(before, last, item) == Pairing(before, Some(item.role), item)
  {
  }

  /** One block of a message: it is checked against its role, the calls and the names so far. */
  method PrepareBlock(role: Role, part: Content, configuration: Configuration, parse: string -> Option<Json>,
                      ordinaryUserContent: bool, pending: set<string>, calls: set<string>,
                      names: map<string, string>, toolNames: map<string, string>)
    returns (block: Option<Block>, ordinaryUserContent': bool, pending': set<string>, calls': set<string>,
             names': map<string, string>, toolNames': map<string, string>)
    requires Table(names, toolNames)
    requires ordinaryUserContent ==> role.User? && pending == {}
    ensures var item := Item(role, part);
      && var scan := Pairing(Scan(pending, calls), Some(role), item);
      && (block.Some? <==>
            && BlockFits(item, configuration, parse) && scan.Some?
            && Unambiguous(names.Keys + CalledNames([item])))
      && (block.Some? ==>
            && block.value == Encoded(part, parse) && scan.value == Scan(pending', calls')
            && (ordinaryUserContent' ==> role.User? && pending' == {})
            && Table(names', toolNames') && names'.Keys == names.Keys + CalledNames([item]))
  {
    hide Unambiguous, Wire, Table, At, TextAt, TextOr;
    block, ordinaryUserContent', pending', calls' := None, ordinaryUserContent, pending, calls;
    names', toolNames' := names, toolNames;
    TableUnambiguous(names, toolNames);
    assert !part.ToolCall? ==> names.Keys + CalledNames([Item(role, part)]) == names.Keys;
    match part
    case Text(text) =>
      if role.User? {
        if pending != {} {
          return;
        }
        ordinaryUserContent' := true;
      }
      if text == [] {
        return;
      }
      block := Some(TextBlock(text));
    case ToolCall(id, name, input) =>
      assert CalledNames([Item(role, part)]) == {name} by {
        assert Item(role, part) in [Item(role, part)];
      }
      if !(role.Assistant? && id != [] && input.Object?) {
        return;
      }
      if id in calls {
        return;
      }
      calls' := calls + {id};
      pending' := pending + {id};
      var alias;
      alias, names', toolNames' := Alias(name, names, toolNames);
      if alias.None? {
        return;
      }
      block := Some(ToolUse(id, alias.value, input));
    case ToolResult(callId, output, isError) =>
      if !(role.User? && !ordinaryUserContent) {
        return;
      }
      if callId !in pending {
        return;
      }
      pending' := pending - {callId};
      block := Some(ToolOutput(callId, output, isError));
    case Reasoning(thought, provider, continuation) =>
      if !(role.Assistant? && provider == "anthropic" && configuration.thinkingBudgetTokens != 0) {
        return;
      }
      var value := parse(continuation);
      if value.None? {
        return;
      }
      var kind := TextOr(value.value, "type");
      if kind == Some("thinking") {
        if At(value.value, "thinking") != Some(String(thought)) {
          return;
        }
        var signature := TextAt(value.value, "signature");
        if signature.None? || signature.value == [] {
          return;
        }
      } else if kind != Some("redacted_thinking") || TextAt(value.value, "data").None? {
        return;
      }
      block := Some(Thinking(value.value));
  }

  lemma CalledNamesSnoc(items: seq<Item>, item: Item)
    ensures CalledNames(items + [item]) == CalledNames(items) + CalledNames([item])
  {
  }

  lemma CalledNamesPrefix(items: seq<Item>, more: seq<Item>)
    ensures CalledNames(items) <= CalledNames(items + more)
  {
    assert forall item :: item in items ==> item in items + more;
  }

  /** A message is refused exactly when one of its blocks is, given what came before. */
  ghost predicate MessageFits(before: seq<Item>, message: Message, names: set<string>,
                              configuration: Configuration, parse: string -> Option<Json>)
  {
    var items := Items(message.role, message.content);
    && BlocksFit(items, configuration, parse) && Scanned(before + items).Some?
    && Unambiguous(names + CalledNames(items))
  }

  lemma MessagePrefix(before: seq<Item>, message: Message, n: nat, names: set<string>,
                      configuration: Configuration, parse: string -> Option<Json>)
    requires n <= |message.content| && MessageFits(before, message, names, configuration, parse)
    ensures MessageFits(before, Message(message.role, message.content[..n]), names, configuration, parse)
  {
    hide Scanned, BlockFits, Wire, Items;
    var items, head := Items(message.role, message.content), Items(message.role, message.content[..n]);
    var tail := items[n..];
    assert items == head + tail;
    assert before + items == (before + head) + tail;
    ScannedPrefix(before + head, tail);
    CalledNamesPrefix(head, tail);
    SmallerUnambiguous(names + CalledNames(head), names + CalledNames(items));
  }

  /** A message fits when it did so far and its next block fits behind it. */
  lemma MessageSnoc(before: seq<Item>, role: Role, content: seq<Content>, c: Content, names: set<string>,
                    configuration: Configuration, parse: string -> Option<Json>)
    requires MessageFits(before, Message(role, content), names, configuration, parse)
    requires LastRole(before) == Some(User) && role.Assistant? ==>
      Scanned(before).Some? && Scanned(before).value.pending == {}
    ensures var items, item := Items(role, content), Item(role, c);
      && var scan := Pairing(Scanned(before + items).value, Some(role), item);
      && (MessageFits(before, Message(role, content + [c]), names, configuration, parse) <==>
            && BlockFits(item, configuration, parse) && scan.Some?
            && Unambiguous(names + CalledNames(items) + CalledNames([item])))
      && Scanned(before + Items(role, content + [c])) == scan
      && CalledNames(Items(role, content + [c])) == CalledNames(items) + CalledNames([item])
  {
    hide Scanned, Pairing, BlockFits, Wire, Items, Unambiguous, BlocksFit, CalledNames;
    var items, item := Items(role, content), Item(role, c);
    ItemsSnoc(role, content, c);
    assert before + (items + [item]) == (before + items) + [item];
    ScannedSnoc(before + items, item);
    assert items == [] ==> before + items == before;
    PairingWithinMessage(Scanned(before + items).value, LastRole(before + items), item);
    CalledNamesSnoc(items, item);
    assert names + CalledNames(items + [item]) == names + CalledNames(items) + CalledNames([item]);
    BlocksFitJoin(items, [item], configuration, parse);
    OneBlockFits(item, configuration, parse);
  }

  lemma OneBlockFits(item: Item, configuration: Configuration, parse: string -> Option<Json>)
    ensures BlocksFit([item], configuration, parse) <==> BlockFits(item, configuration, parse)
  {
    hide BlockFits;
    assert [item][0] == item;
  }

  lemma NoBlocks(before: seq<Item>, role: Role, names: map<string, string>, toolNames: map<string, string>,
                 configuration: Configuration, parse: string -> Option<Json>)
    requires Table(names, toolNames) && Scanned(before).Some?
    ensures MessageFits(before, Message(role, []), names.Keys, configuration, parse)
    ensures before + Items(role, []) == before && names.Keys == names.Keys + CalledNames(Items(role, []))
  {
    hide Wire, Scanned;
    TableUnambiguous(names, toolNames);
    assert before + Items(role, []) == before && names.Keys == names.Keys + CalledNames(Items(role, []));
  }

  method PrepareMessage(message: Message, configuration: Configuration, parse: string -> Option<Json>,
                        pending: set<string>, calls: set<string>, names: map<string, string>,
                        toolNames: map<string, string>, ghost before: seq<Item>)
    returns (blocks: Option<seq<Block>>, pending': set<string>, calls': set<string>,
             names': map<string, string>, toolNames': map<string, string>)
    requires Table(names, toolNames) && Scanned(before) == Some(Scan(pending, calls))
    requires LastRole(before) == Some(User) && message.role.Assistant? ==> pending == {}
    ensures blocks.Some? <==> MessageFits(before, message, names.Keys, configuration, parse)
    ensures blocks.Some? ==> var items := Items(message.role, message.content);
      && blocks.value == EncodedAll(message.content, parse)
      && Scanned(before + items) == Some(Scan(pending', calls'))
      && Table(names', toolNames') && names'.Keys == names.Keys + CalledNames(items)
  {
    hide Scanned, Pairing, BlockFits, Wire, Items, Unambiguous, Table, Encoded, MessageFits, CalledNames, LastRole;
    var role, content := message.role, message.content;
    var result: seq<Block> := [];
    var ordinaryUserContent := false;
    pending', calls', names', toolNames' := pending, calls, names, toolNames;
    NoBlocks(before, role, names, toolNames, configuration, parse);
    for i := 0 to |content|
      invariant ordinaryUserContent ==> role.User? && pending' == {}
      invariant result == EncodedAll(content[..i], parse)
      invariant MessageFits(before, Message(role, content[..i]), names.Keys, configuration, parse)
      invariant Scanned(before + Items(role, content[..i])) == Some(Scan(pending', calls'))
      invariant Table(names', toolNames') && names'.Keys == names.Keys + CalledNames(Items(role, content[..i]))
    {
      assert content[..i + 1] == content[..i] + [content[i]];
      MessageSnoc(before, role, content[..i], content[i], names.Keys, configuration, parse);
      var block;
      block, ordinaryUserContent, pending', calls', names', toolNames' :=
        PrepareBlock(role, content[i], configuration, parse, ordinaryUserContent, pending', calls', names', toolNames');
      if block.None? {
        if MessageFits(before, message, names.Keys, configuration, parse) {
          MessagePrefix(before, message, i + 1, names.Keys, configuration, parse);
        }
        return None, pending', calls', names', toolNames';
      }
      result := result + [block.value];
    }
    assert content[..|content|] == content;
    blocks := Some(result);
  }

  /** The transcript part of what a caller has to provide. */
  ghost predicate ConversationFits(messages: seq<Message>, declared: set<string>, configuration: Configuration,
                                   parse: string -> Option<Json>)
  {
    var items := Flat(messages);
    && (forall i :: 0 <= i < |messages| ==> messages[i].content != [])
    && BlocksFit(items, configuration, parse) && Scanned(items).Some?
    && Unambiguous(declared + CalledNames(items))
  }

  lemma FlatSnoc(messages: seq<Message>, message: Message)
    ensures Flat(messages + [message]) == Flat(messages) + Items(message.role, message.content)
  {
    assert (messages + [message])[..|messages|] == messages;
  }

  /** A conversation fits when it did so far and the next message fits behind it. */
  lemma ConversationSnoc(messages: seq<Message>, message: Message, declared: set<string>,
                         configuration: Configuration, parse: string -> Option<Json>)
    requires ConversationFits(messages, declared, configuration, parse)
    ensures ConversationFits(messages + [message], declared, configuration, parse) <==>
              && message.content != []
              && MessageFits(Flat(messages), message, declared + CalledNames(Flat(messages)), configuration, parse)
    ensures CalledNames(Flat(messages + [message])) ==
            CalledNames(Flat(messages)) + CalledNames(Items(message.role, message.content))
  {
    hide Flat, Items, Scanned, BlockFits, Wire, Unambiguous;
    var before, items, all := Flat(messages), Items(message.role, message.content), messages + [message];
    FlatSnoc(messages, message);
    CalledNamesJoin(before, items);
    assert declared + CalledNames(before + items) == declared + CalledNames(before) + CalledNames(items);
    assert BlocksFit(before + items, configuration, parse) <==>
      BlocksFit(before, configuration, parse) && BlocksFit(items, configuration, parse)
    by {
      BlocksFitJoin(before, items, configuration, parse);
    }
    assert all[|messages|] == message;
    assert forall i :: 0 <= i < |messages| ==> all[i] == messages[i];
  }

  lemma BlocksFitJoin(a: seq<Item>, b: seq<Item>, configuration: Configuration, parse: string -> Option<Json>)
    ensures BlocksFit(a + b, configuration, parse) <==>
              BlocksFit(a, configuration, parse) && BlocksFit(b, configuration, parse)
  {
    hide BlockFits;
    if BlocksFit(a + b, configuration, parse) {
      forall i | 0 <= i < |a|
        ensures BlockFits(a[i], configuration, parse)
      {
        assert (a + b)[i] == a[i];
      }
      forall i | 0 <= i < |b|
        ensures BlockFits(b[i], configuration, parse)
      {
        assert (a + b)[|a| + i] == b[i];
      }
    }
  }

  lemma CalledNamesJoin(a: seq<Item>, b: seq<Item>)
    ensures CalledNames(a + b) == CalledNames(a) + CalledNames(b)
  {
  }

  /** No prefix of a fitting conversation is refused. */
  lemma {:induction false} ConversationPrefix(messages: seq<Message>, n: nat, declared: set<string>,
                                              configuration: Configuration, parse: string -> Option<Json>)
    requires n <= |messages| && ConversationFits(messages, declared, configuration, parse)
    ensures ConversationFits(messages[..n], declared, configuration, parse)
    decreases |messages|
  {
    hide Flat, Items, Scanned, BlockFits, Wire;
    if n == |messages| {
      assert messages[..n] == messages;
    } else {
      var before, message := messages[..|messages| - 1], messages[|messages| - 1];
      assert messages == before + [message] && before[..n] == messages[..n];
      FlatSnoc(before, message);
      var items := Items(message.role, message.content);
      BlocksFitJoin(Flat(before), items, configuration, parse);
      ScannedPrefix(Flat(before), items);
      CalledNamesJoin(Flat(before), items);
      SmallerUnambiguous(declared + CalledNames(Flat(before)), declared + CalledNames(Flat(before) + items));
      ConversationPrefix(before, n, declared, configuration, parse);
    }
  }

  function MergedWire(messages: seq<WireMessage>, role: Role, blocks: seq<Block>): seq<WireMessage> {
    if messages != [] && messages[|messages| - 1].role == role then
      messages[..|messages| - 1] + [WireMessage(role, messages[|messages| - 1].content + blocks)]
    else
      messages + [WireMessage(role, blocks)]
  }

  lemma EncodedMerge(runs: seq<Run>, message: Message, parse: string -> Option<Json>)
    ensures EncodedRuns(Merge(runs, message), parse) ==
            MergedWire(EncodedRuns(runs, parse), message.role, EncodedAll(message.content, parse))
  {
    hide Encoded;
    if runs != [] && runs[|runs| - 1].role == message.role {
      var last := runs[|runs| - 1].content;
      assert EncodedAll(last + message.content, parse) ==
             EncodedAll(last, parse) + EncodedAll(message.content, parse);
    }
  }

  /** A message of the same role as the last one continues it, block by block. */
  method Append(messages: seq<WireMessage>, role: Role, blocks: seq<Block>) returns (merged: seq<WireMessage>)
    ensures merged == MergedWire(messages, role, blocks)
  {
    if messages != [] && messages[|messages| - 1].role == role {
      merged := messages;
      var last := |messages| - 1;
      for i := 0 to |blocks|
        invariant |merged| == |messages| && merged[..last] == messages[..last]
        invariant merged[last] == WireMessage(role, messages[last].content + blocks[..i])
      {
        merged := merged[last := WireMessage(role, merged[last].content + [blocks[i]])];
      }
      assert blocks[..|blocks|] == blocks && merged == merged[..last] + [merged[last]];
    } else {
      merged := messages + [WireMessage(role, blocks)];
    }
  }

  method PrepareMessages(messages: seq<Message>, configuration: Configuration, parse: string -> Option<Json>,
                         declaredNames: map<string, string>, declaredToolNames: map<string, string>)
    returns (wired: Option<seq<WireMessage>>, pending: set<string>, toolNames: map<string, string>,
             ghost names: map<string, string>)
    requires Table(declaredNames, declaredToolNames)
    ensures wired.Some? <==> ConversationFits(messages, declaredNames.Keys, configuration, parse)
    ensures wired.Some? ==> var items := Flat(messages);
      && wired.value == EncodedRuns(Runs(items), parse) && Scanned(items).value.pending == pending
      && Table(names, toolNames) && names.Keys == declaredNames.Keys + CalledNames(items)
  {
    hide Scanned, Pairing, Wire, Items, Unambiguous, Table, Runs, Extend, Flat, EncodedRuns, EncodedAll, MessageFits,
      ConversationFits, MergedWire, Merge;
    var result: seq<WireMessage> := [];
    var calls: set<string> := {};
    var table := declaredNames;
    pending, toolNames := {}, declaredToolNames;
    NoMessages(declaredNames, declaredToolNames, configuration, parse);
    for i := 0 to |messages|
      invariant ConversationFits(messages[..i], declaredNames.Keys, configuration, parse)
      invariant result == EncodedRuns(Runs(Flat(messages[..i])), parse)
      invariant Scanned(Flat(messages[..i])) == Some(Scan(pending, calls))
      invariant Table(table, toolNames)
      invariant table.Keys == declaredNames.Keys + CalledNames(Flat(messages[..i]))
    {
      var message := messages[i];
      ghost var items := Flat(messages[..i]);
      assert messages[..i + 1] == messages[..i] + [message];
      FlatSnoc(messages[..i], message);
      ConversationSnoc(messages[..i], message, declaredNames.Keys, configuration, parse);
      MergeKeepsBlocks(items);
      if message.content == [] {
        Refused(messages, i, declaredNames.Keys, configuration, parse);
        return None, pending, toolNames, table;
      }
      if result != [] && result[|result| - 1].role.User? && message.role.Assistant? {
        if pending != {} {
          BlockedAssistant(items, message, table.Keys, configuration, parse);
          Refused(messages, i, declaredNames.Keys, configuration, parse);
          return None, pending, toolNames, table;
        }
      }
      var blocks;
      blocks, pending, calls, table, toolNames :=
        PrepareMessage(message, configuration, parse, pending, calls, table, toolNames, items);
      if blocks.None? {
        Refused(messages, i, declaredNames.Keys, configuration, parse);
        return None, pending, toolNames, table;
      }
      RunsMerge(items, message);
      EncodedMerge(Runs(items), message, parse);
      result := Append(result, message.role, blocks.value);
    }
    assert messages[..|messages|] == messages;
    wired, names := Some(result), table;
  }

  lemma Refused(messages: seq<Message>, i: nat, declared: set<string>, configuration: Configuration,
                parse: string -> Option<Json>)
    requires i < |messages| && !ConversationFits(messages[..i + 1], declared, configuration, parse)
    ensures !ConversationFits(messages, declared, configuration, parse)
  {
    if ConversationFits(messages, declared, configuration, parse) {
      ConversationPrefix(messages, i + 1, declared, configuration, parse);
    }
  }

  lemma NoMessages(names: map<string, string>, toolNames: map<string, string>, configuration: Configuration,
                   parse: string -> Option<Json>)
    requires Table(names, toolNames)
    ensures ConversationFits([], names.Keys, configuration, parse) && CalledNames(Flat([])) == {}
    ensures Scanned(Flat([])) == Some(Scan({}, {})) && EncodedRuns(Runs(Flat([])), parse) == []
  {
    hide Wire;
    TableUnambiguous(names, toolNames);
    assert names.Keys + CalledNames(Flat([])) == names.Keys;
  }

  /** An assistant message cannot follow while results are missing. */
  lemma BlockedAssistant(before: seq<Item>, message: Message, names: set<string>, configuration: Configuration,
                         parse: string -> Option<Json>)
    requires message.content != [] && message.role.Assistant? && LastRole(before) == Some(User)
    requires Scanned(before).Some? && Scanned(before).value.pending != {}
    ensures !MessageFits(before, message, names, configuration, parse)
  {
    hide Items, BlockFits, Unambiguous;
    var items := Items(message.role, message.content);
    ScannedSnoc(before, items[0]);
    assert before + items == (before + [items[0]]) + items[1..];
    if Scanned(before + items).Some? {
      ScannedPrefix(before + [items[0]], items[1..]);
    }
  }

  // ---- The whole operation ----

  /** A request is taken exactly when its options fit and its conversation is well paired; nothing else is checked,
      and nothing of the transcript is lost on the way. */
  method Prepare(request: Request, configuration: Configuration, parse: string -> Option<Json>)
    returns (r: Option<Prepared>)
    ensures r.Some? <==> Acceptable(request, configuration, parse)
    ensures r.Some? ==> var p := r.value;
      && p.messages == EncodedRuns(Runs(Flat(request.messages)), parse)
      && p.tools == EncodedTools(request.tools)
      && Inverse(p.toolNames, Members(Names(request.tools)))
      && p.model == request.model
      && p.maximum == (if request.maximumOutputTokens != 0 then request.maximumOutputTokens
                       else configuration.maximumOutputTokens)
      && p.system == (if request.instructions == [] then None else Some(request.instructions))
      && (p.choice.None? <==> request.tools == [])
      && (p.choice.Some? ==> Expresses(p.choice.value, request.toolChoice, request.parallelTools))
      && p.budget == if configuration.thinkingBudgetTokens == 0 then None else Some(configuration.thinkingBudgetTokens)
  {
    hide Scanned, Wire, Items, Unambiguous, Table, Runs, Flat, EncodedAll, WellPaired, NoDuplicates,
      BlocksFit, ToolFits, Members, Contents, Calls, Partial, Open, Inverse;
    if request.model == [] || request.model !in configuration.models {
      return None;
    }
    var maximum := if request.maximumOutputTokens == 0 then configuration.maximumOutputTokens
                   else request.maximumOutputTokens;
    var budget := configuration.thinkingBudgetTokens;
    if maximum == 0 || (budget != 0 && (budget < 1024 || budget >= maximum || request.toolChoice.Required?)) {
      return None;
    }
    var tools, declarations, names, toolNames := PrepareTools(request.tools);
    ghost var items := Flat(request.messages);
    ghost var declared := Members(Names(request.tools));
    if tools.None? {
      if Unambiguous(declared + CalledNames(items)) {
        SmallerUnambiguous(declared, declared + CalledNames(items));
      }
      return None;
    }
    var messages, pending;
    ghost var used;
    messages, pending, toolNames, used := PrepareMessages(request.messages, configuration, parse, names, toolNames);
    if messages.None? {
      ConversationPaired(request.messages, declared, configuration, parse);
      return None;
    }
    ConversationPaired(request.messages, declared, configuration, parse);
    if messages.value == [] || !messages.value[0].role.User? {
      return None;
    }
    if !messages.value[|messages.value| - 1].role.User? || pending != {} {
      return None;
    }
    if tools.value == [] && request.toolChoice.Required? {
      return None;
    }
    var choice := None;
    if tools.value != [] {
      var wired := WireChoice(
        if request.toolChoice.Never? then "none" else if request.toolChoice.Required? then "any" else "auto",
        if request.toolChoice.Never? then None else Some(!request.parallelTools));
      assert Expresses(wired, request.toolChoice, request.parallelTools);
      choice := Some(wired);
    }
    KeepDeclared(used, toolNames, declarations);
    toolNames := map w | w in toolNames && toolNames[w] in declarations :: toolNames[w];
    r := Some(Prepared(
      request.model, maximum,
      if request.instructions == [] then None else Some(request.instructions),
      messages.value, tools.value, choice, if budget == 0 then None else Some(budget), toolNames));
  }

  lemma KeepDeclared(names: map<string, string>, toolNames: map<string, string>, declared: set<string>)
    requires Table(names, toolNames) && declared <= names.Keys
    ensures Inverse(map w | w in toolNames && toolNames[w] in declared :: toolNames[w], declared)
  {
    hide Wire;
  }

  /** The conversation checks and the last checks together are exactly the declarative pairing. */
  lemma ConversationPaired(messages: seq<Message>, declared: set<string>, configuration: Configuration,
                           parse: string -> Option<Json>)
    ensures var items := Flat(messages);
      && var runs := Runs(items);
      && (&& (forall i :: 0 <= i < |messages| ==> messages[i].content != [])
          && BlocksFit(items, configuration, parse) && Unambiguous(declared + CalledNames(items))
          && NoDuplicates(Calls(Contents(items))) && WellPaired(runs)
          <==>
          && ConversationFits(messages, declared, configuration, parse)
          && runs != [] && runs[0].role.User? && runs[|runs| - 1].role.User?
          && Scanned(items).value.pending == {})
  {
    hide Scanned, Flat, Items, Unambiguous, Runs, Contents, Calls, NoDuplicates, Partial, Open, Answered, WellPaired;
    var items := Flat(messages);
    if BlocksFit(items, configuration, parse) {
      forall item | item in items
        ensures RoleFits(item)
      {
        var i :| 0 <= i < |items| && items[i] == item;
        assert BlockFits(items[i], configuration, parse);
      }
      ScanDecides(items);
      ClosedIsPaired(Runs(items));
    }
  }

  // ---- What the API can rely on ----

  function UseIds(blocks: seq<Block>): seq<string> {
    if blocks == [] then []
    else UseIds(blocks[..|blocks| - 1]) + if blocks[|blocks| - 1].ToolUse? then [blocks[|blocks| - 1].id] else []
  }

  function OutputIds(blocks: seq<Block>): seq<string> {
    if blocks == [] then []
    else OutputIds(blocks[..|blocks| - 1]) +
         if blocks[|blocks| - 1].ToolOutput? then [blocks[|blocks| - 1].callId] else []
  }

  function AllBlocks(messages: seq<WireMessage>): seq<Block> {
    if messages == [] then [] else AllBlocks(messages[..|messages| - 1]) + messages[|messages| - 1].content
  }

  /** The results at the head of a reply name every call, each once, and there are no others. */
  ghost predicate Answers(calls: seq<Block>, reply: seq<Block>) {
    && NoDuplicates(OutputIds(reply)) && Members(OutputIds(reply)) == Members(UseIds(calls))
    && forall i, j :: 0 <= i < j < |reply| && reply[j].ToolOutput? ==> reply[i].ToolOutput?
  }

  ghost predicate Conversation(messages: seq<WireMessage>) {
    && messages != [] && messages[0].role.User? && messages[|messages| - 1].role.User?
    && (forall i :: 0 <= i < |messages| ==> messages[i].content != [])
    && (forall i :: 0 <= i < |messages| - 1 ==> messages[i].role != messages[i + 1].role)
    && Answers([], messages[0].content)
    && (forall i :: 0 <= i < |messages| - 1 && messages[i].role.Assistant? ==>
          Answers(messages[i].content, messages[i + 1].content))
  }

  lemma {:induction false} EncodedIds(content: seq<Content>, parse: string -> Option<Json>)
    ensures UseIds(EncodedAll(content, parse)) == Calls(content)
    ensures OutputIds(EncodedAll(content, parse)) == Results(content)
  {
    if content != [] {
      var before := content[..|content| - 1];
      EncodedIds(before, parse);
      assert EncodedAll(content, parse)[..|content| - 1] == EncodedAll(before, parse);
    }
  }

  lemma {:induction false} EncodedBlocks(runs: seq<Run>, parse: string -> Option<Json>)
    ensures AllBlocks(EncodedRuns(runs, parse)) == EncodedAll(Contents(FlatRuns(runs)), parse)
  {
    hide Encoded, Items;
    if runs != [] {
      var before := runs[..|runs| - 1];
      EncodedBlocks(before, parse);
      assert EncodedRuns(runs, parse)[..|runs| - 1] == EncodedRuns(before, parse);
      assert Contents(FlatRuns(runs)) == Contents(FlatRuns(before)) + runs[|runs| - 1].content;
    }
  }

  lemma RunAnswers(runs: seq<Run>, i: nat, parse: string -> Option<Json>)
    requires i < |runs| && Answered(runs, i)
    ensures var messages := EncodedRuns(runs, parse);
      Answers(if i == 0 then [] else messages[i - 1].content, messages[i].content)
  {
    hide Encoded, Members, NoDuplicates, Calls, Results, UseIds, OutputIds;
    EncodedIds(runs[i].content, parse);
    LeadEncoded(runs[i].content, parse);
    if i > 0 {
      EncodedIds(runs[i - 1].content, parse);
    } else {
      NoIds();
    }
  }

  lemma NoIds()
    ensures UseIds([]) == [] && OutputIds([]) == []
  {
  }

  lemma PairedConversation(runs: seq<Run>, parse: string -> Option<Json>)
    requires WellPaired(runs) && Alternating(runs)
    ensures Conversation(EncodedRuns(runs, parse))
  {
    hide Encoded, Answered, Answers;
    var messages := EncodedRuns(runs, parse);
    RunAnswers(runs, 0, parse);
    forall i | 0 <= i < |messages| - 1 && messages[i].role.Assistant?
      ensures Answers(messages[i].content, messages[i + 1].content)
    {
      assert runs[i + 1].role.User?;
      RunAnswers(runs, i + 1, parse);
    }
    forall i | 0 <= i < |messages| - 1
      ensures messages[i].role != messages[i + 1].role
    {
      assert runs[i + 1].role != runs[i].role;
    }
    assert forall i :: 0 <= i < |messages| ==> runs[i].content != [] && |messages[i].content| == |runs[i].content|;
  }

  /** What a taken request becomes: a strictly alternating conversation from user to user in which every assistant
      message's calls are answered one to one at the head of the very next message, with all blocks of the
      transcript in their order and no call id used twice. */
  lemma AcceptedConversation(request: Request, configuration: Configuration, parse: string -> Option<Json>)
    requires Acceptable(request, configuration, parse)
    ensures var messages := EncodedRuns(Runs(Flat(request.messages)), parse);
      && Conversation(messages)
      && AllBlocks(messages) == EncodedAll(Contents(Flat(request.messages)), parse)
      && NoDuplicates(UseIds(AllBlocks(messages)))
  {
    hide Runs, Flat, Encoded, Contents, OptionsFit, ToolFits, BlocksFit, Unambiguous, Members, NoDuplicates, Calls,
      Conversation, WellPaired, Alternating, EncodedRuns, EncodedAll, UseIds, AllBlocks;
    var items := Flat(request.messages);
    MergeKeepsBlocks(items);
    EncodedBlocks(Runs(items), parse);
    EncodedIds(Contents(items), parse);
    PairedConversation(Runs(items), parse);
  }

  lemma LeadEncoded(content: seq<Content>, parse: string -> Option<Json>)
    ensures forall i :: 0 <= i < |content| ==> (EncodedAll(content, parse)[i].ToolOutput? <==> content[i].ToolResult?)
  {
  }
}
