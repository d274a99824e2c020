/** A well-formed response stream is delivered completely: every block with its deltas, then the usage and the stop
    reason. Also what becomes of tool names and of signed thinking on the way back. */
module StreamDelivery {
  import opened Wrappers
  import opened JsonValue
  import opened Transcript
  import opened StreamState
  import T = ToolNames
  import P = PrepareRequest
  import L = StreamLanguage

  /** One block of a response, as the API streams it. */
  datatype Part =
    | TextPart(start: string, deltas: seq<string>)
    | ToolPart(id: string, wire: string, input: Json, deltas: seq<string>)
    | ThinkingPart(start: string, deltas: seq<string>, signature: string)

  datatype Response = Response(id: string, usage: Json, parts: seq<Part>, stopReason: string, lastUsage: Json)

  // ---- The JSON of the stream ----

  function Record(kind: string, members: map<string, Json>): Json {
    Object(members["type" := String(kind)])
  }

  function BlockRecord(kind: string, index: nat, members: map<string, Json>): Json {
    Record(kind, members["index" := Integer(index)])
  }

  /** A block after some deltas; its first form is the one without any. */
  function BlockAfter(part: Part, text: string): Block {
    match part
    case TextPart(start, _) => Block(Record("text", map["text" := String(start + text)]), [])
    case ToolPart(id, wire, input, _) =>
      Block(Record("tool_use", map["id" := String(id), "name" := String(wire), "input" := input]), text)
    case ThinkingPart(start, _, _) => Block(Record("thinking", map["thinking" := String(start + text)]), [])
  }

  function StartValue(part: Part, index: nat): Json {
    BlockRecord("content_block_start", index, map["content_block" := BlockAfter(part, []).value])
  }

  function DeltaValue(part: Part, index: nat, x: string): Json {
    var delta := match part
      case TextPart(_, _) => Record("text_delta", map["text" := String(x)])
      case ToolPart(_, _, _, _) => Record("input_json_delta", map["partial_json" := String(x)])
      case ThinkingPart(_, _, _) => Record("thinking_delta", map["thinking" := String(x)]);
    BlockRecord("content_block_delta", index, map["delta" := delta])
  }

  function DeltaValues(part: Part, index: nat, deltas: seq<string>): seq<Json> {
    if deltas == [] then []
    else DeltaValues(part, index, deltas[..|deltas| - 1]) + [DeltaValue(part, index, deltas[|deltas| - 1])]
  }

  function SignatureValue(index: nat, signature: string): Json {
    BlockRecord("content_block_delta", index,
                map["delta" := Record("signature_delta", map["signature" := String(signature)])])
  }

  function StopValue(index: nat): Json {
    BlockRecord("content_block_stop", index, map[])
  }

  function PartValues(part: Part, index: nat): seq<Json> {
    [StartValue(part, index)] + DeltaValues(part, index, part.deltas)
    + (if part.ThinkingPart? then [SignatureValue(index, part.signature)] else [])
    + [StopValue(index)]
  }

  function AllPartValues(parts: seq<Part>): seq<Json> {
    if parts == [] then [] else AllPartValues(parts[..|parts| - 1]) + PartValues(parts[|parts| - 1], |parts| - 1)
  }

  function MessageStart(r: Response): Json {
    Record("message_start",
           map["message" := Object(map["role" := String("assistant"), "content" := Array([]),
                                       "id" := String(r.id), "usage" := r.usage])])
  }

  function MessageDelta(r: Response): Json {
    Record("message_delta", map["delta" := Object(map["stop_reason" := String(r.stopReason)]), "usage" := r.lastUsage])
  }

  function ResponseValues(r: Response): seq<Json> {
    [MessageStart(r)] + AllPartValues(r.parts) + [MessageDelta(r)] + [Record("message_stop", map[])]
  }

  // ---- What the receiver should get ----

  function Concat(deltas: seq<string>): string {
    if deltas == [] then [] else Concat(deltas[..|deltas| - 1]) + deltas[|deltas| - 1]
  }

  function FirstContent(part: Part, toolNames: map<string, string>, world: World): Content {
    match part
    case TextPart(start, _) => Text(start)
    case ToolPart(id, wire, input, _) => ToolCall(id, if wire in toolNames then toolNames[wire] else [], input)
    case ThinkingPart(start, _, _) => Reasoning(start, "anthropic", world.dump(BlockAfter(part, []).value))
  }

  function LastContent(part: Part, toolNames: map<string, string>, world: World): Content {
    var text := Concat(part.deltas);
    match part
    case TextPart(start, _) => Text(start + text)
    case ToolPart(id, wire, input, _) =>
      ToolCall(id, if wire in toolNames then toolNames[wire] else [],
               if text == [] || world.parse(text).None? then input else world.parse(text).value)
    case ThinkingPart(start, _, signature) =>
      Reasoning(start + text, "anthropic",
                world.dump(Record("thinking",
                                  map["thinking" := String(start + text), "signature" := String(signature)])))
  }

  function DeltaEvent(part: Part, index: nat, x: string): Event {
    match part
    case TextPart(_, _) => TextDelta(index, x)
    case ToolPart(_, _, _, _) => ToolInputDelta(index, x)
    case ThinkingPart(_, _, _) => ReasoningDelta(index, x)
  }

  function DeltaEvents(part: Part, index: nat, deltas: seq<string>): seq<Event> {
    if deltas == [] then []
    else DeltaEvents(part, index, deltas[..|deltas| - 1]) + [DeltaEvent(part, index, deltas[|deltas| - 1])]
  }

  function PartEvents(part: Part, index: nat, toolNames: map<string, string>, world: World): seq<Event> {
    [BlockStarted(index, FirstContent(part, toolNames, world))] + DeltaEvents(part, index, part.deltas)
    + [BlockFinished(index, LastContent(part, toolNames, world))]
  }

  function AllPartEvents(parts: seq<Part>, toolNames: map<string, string>, world: World): seq<Event> {
    if parts == [] then []
    else
      AllPartEvents(parts[..|parts| - 1], toolNames, world)
      + PartEvents(parts[|parts| - 1], |parts| - 1, toolNames, world)
  }

  function CallIdsOf(parts: seq<Part>): set<string> {
    set part | part in parts && part.ToolPart? :: part.id
  }

  // ---- What makes a response well formed ----

  predicate PartFits(part: Part, toolNames: map<string, string>, thinkingEnabled: bool, world: World) {
    match part
    case TextPart(_, _) => true
    case ToolPart(id, wire, input, deltas) =>
      && id != [] && wire in toolNames && input.Object?
      && (Concat(deltas) != [] ==> world.parse(Concat(deltas)).Some? && world.parse(Concat(deltas)).value.Object?)
    case ThinkingPart(_, _, signature) => thinkingEnabled && signature != []
  }

  ghost predicate PartsFit(parts: seq<Part>, toolNames: map<string, string>, thinkingEnabled: bool, world: World) {
    && (forall i :: 0 <= i < |parts| ==> PartFits(parts[i], toolNames, thinkingEnabled, world))
    && (forall i, j :: 0 <= i < j < |parts| && parts[i].ToolPart? && parts[j].ToolPart? ==> parts[i].id != parts[j].id)
  }

  /** A receiver that neither cancels nor throws. */
  ghost predicate Patient(world: World) {
    forall log :: !world.react(log).cancels && !world.react(log).throws
  }

  // ---- Feeding values ----

  function Feed(s: State, values: seq<Json>, world: World): Outcome {
    if values == [] then Done(s)
    else
      var before := Feed(s, values[..|values| - 1], world);
      var kind := TextAt(values[|values| - 1], "type");
      if before.thrown || kind.None? then Throw(before.state)
      else Parse(before.state, values[|values| - 1], kind.value, world)
  }

  lemma FeedSnoc(s: State, values: seq<Json>, value: Json, world: World)
    requires !Feed(s, values, world).thrown && TextAt(value, "type").Some?
    ensures Feed(s, values + [value], world) ==
            Parse(Feed(s, values, world).state, value, TextAt(value, "type").value, world)
  {
    hide Parse;
    assert (values + [value])[..|values|] == values;
  }

  lemma {:induction false} FeedJoin(s: State, a: seq<Json>, b: seq<Json>, world: World)
    requires !Feed(s, a, world).thrown
    ensures Feed(s, a + b, world) == Feed(Feed(s, a, world).state, b, world)
  {
    hide Parse;
    if b == [] {
      assert a + b == a;
    } else {
      assert (a + b)[..|a + b| - 1] == a + b[..|b| - 1];
      FeedJoin(s, a, b[..|b| - 1], world);
    }
  }

  lemma PatientEmit(s: State, e: Event, world: World)
    requires Patient(world) && !s.terminal
    ensures Emit(s, e, world) == Done(s.(log := s.log + [e]))
    ensures Deliver(s, e, world) == Done(s.(log := s.log + [e]))
  {
  }

  /** The state in which a block is open and has received some deltas. */
  function Opened(s: State, part: Part, text: string, events: seq<Event>): State {
    s.(blocks := map[s.nextIndex := BlockAfter(part, text)], nextIndex := s.nextIndex + 1,
       callIds := s.callIds + CallIdsOf([part]), log := s.log + events)
  }

  ghost predicate Ready(s: State) {
    s.started && !s.terminal && s.stop.None? && s.blocks == map[]
  }

  lemma StartFed(s: State, part: Part, world: World)
    requires Patient(world) && Ready(s) && PartFits(part, s.toolNames, s.thinkingEnabled, world)
    requires part.ToolPart? ==> part.id !in s.callIds
    ensures Feed(s, [StartValue(part, s.nextIndex)], world) ==
            Done(Opened(s, part, [], [BlockStarted(s.nextIndex, FirstContent(part, s.toolNames, world))]))
  {
    hide Emit, ContentOf, BlockFits, NewCall, CallIdsOf, BlockAfter, StartValue, FirstContent, Feed, PartFits, Count,
      At, TextAt;
    var event, content := StartValue(part, s.nextIndex), FirstContent(part, s.toolNames, world);
    StartFields(part, s.nextIndex);
    FeedOne(s, event, world);
    StartFits(part, s.toolNames, s.thinkingEnabled, s.callIds, world);
    var t := s.(blocks := map[s.nextIndex := BlockAfter(part, [])], nextIndex := s.nextIndex + 1,
                callIds := s.callIds + CallIdsOf([part]));
    assert s.blocks[s.nextIndex := BlockAfter(part, [])] == map[s.nextIndex := BlockAfter(part, [])];
    PatientEmit(t, BlockStarted(s.nextIndex, content), world);
  }

  lemma StartFields(part: Part, index: nat)
    ensures var event := StartValue(part, index);
      && TextAt(event, "type") == Some("content_block_start") && Has(event, "index")
      && Count(event, "index", 0) == Some(index) && At(event, "content_block") == Some(BlockAfter(part, []).value)
    ensures BlockAfter(part, []) == Block(BlockAfter(part, []).value, [])
  {
    hide BlockAfter;
    Unsettled(part);
  }

  lemma Unsettled(part: Part)
    ensures BlockAfter(part, []).input == []
  {
  }

  lemma StartFits(part: Part, toolNames: map<string, string>, thinkingEnabled: bool, callIds: set<string>, world: World)
    requires PartFits(part, toolNames, thinkingEnabled, world) && (part.ToolPart? ==> part.id !in callIds)
    ensures BlockFits(BlockAfter(part, []).value, thinkingEnabled, callIds)
    ensures NewCall(BlockAfter(part, []).value) == CallIdsOf([part])
    ensures ContentOf(BlockAfter(part, []).value, toolNames, world) == Some(FirstContent(part, toolNames, world))
  {
    StartContent(part, toolNames, world);
    assert part in [part];
  }

  lemma StartContent(part: Part, toolNames: map<string, string>, world: World)
    requires part.ToolPart? ==> part.wire in toolNames
    ensures ContentOf(BlockAfter(part, []).value, toolNames, world) == Some(FirstContent(part, toolNames, world))
  {
    if !part.ToolPart? {
      assert part.start + [] == part.start;
    }
  }

  lemma FeedOne(s: State, value: Json, world: World)
    requires TextAt(value, "type").Some?
    ensures Feed(s, [value], world) == Parse(s, value, TextAt(value, "type").value, world)
  {
    hide Parse;
    FeedSnoc(s, [], value, world);
    assert [] + [value] == [value];
  }

  lemma DeltaFields(part: Part, index: nat, x: string)
    ensures var event := DeltaValue(part, index, x);
      && TextAt(event, "type") == Some("content_block_delta") && Has(event, "index")
      && Count(event, "index", 0) == Some(index) && At(event, "delta").Some?
      && var delta := At(event, "delta").value;
      match part
      case TextPart(_, _) => TextAt(delta, "type") == Some("text_delta") && TextAt(delta, "text") == Some(x)
      case ToolPart(_, _, _, _) =>
        TextAt(delta, "type") == Some("input_json_delta") && TextAt(delta, "partial_json") == Some(x)
      case ThinkingPart(_, _, _) =>
        TextAt(delta, "type") == Some("thinking_delta") && TextAt(delta, "thinking") == Some(x)
  {
  }

  lemma BlockGrows(part: Part, text: string, x: string)
    ensures var block, grown := BlockAfter(part, text), BlockAfter(part, text + x);
      match part
      case TextPart(_, _) =>
        && TextAt(block.value, "type") == Some("text")
        && Append(block.value, "text", x, false) == Some(grown.value) && grown.input == block.input
      case ToolPart(_, _, _, _) =>
        TextAt(block.value, "type") == Some("tool_use") && grown == block.(input := block.input + x)
      case ThinkingPart(_, _, _) =>
        && TextAt(block.value, "type") == Some("thinking")
        && Append(block.value, "thinking", x, true) == Some(grown.value) && grown.input == block.input
  {
    if !part.ToolPart? {
      assert part.start + (text + x) == part.start + text + x;
      var key := if part.TextPart? then "text" else "thinking";
      var members := BlockAfter(part, text).value.members;
      assert members[key := String(part.start + text + x)] == BlockAfter(part, text + x).value.members;
    }
  }

  lemma DeltaFed(s: State, part: Part, text: string, events: seq<Event>, x: string, world: World)
    requires Patient(world) && Ready(s)
    ensures Feed(Opened(s, part, text, events), [DeltaValue(part, s.nextIndex, x)], world) ==
            Done(Opened(s, part, text + x, events + [DeltaEvent(part, s.nextIndex, x)]))
  {
    hide Emit, CallIdsOf, BlockAfter, DeltaValue, Feed, Count, At, TextAt, Append;
    var t, event := Opened(s, part, text, events), DeltaValue(part, s.nextIndex, x);
    var grown := BlockAfter(part, text + x);
    DeltaFields(part, s.nextIndex, x);
    BlockGrows(part, text, x);
    FeedOne(t, event, world);
    assert t.blocks[s.nextIndex := grown] == map[s.nextIndex := grown];
    PatientEmit(t.(blocks := map[s.nextIndex := grown]), DeltaEvent(part, s.nextIndex, x), world);
    assert s.log + events + [DeltaEvent(part, s.nextIndex, x)] == s.log + (events + [DeltaEvent(part, s.nextIndex, x)]);
  }

  lemma {:induction false} DeltasFed(s: State, part: Part, events: seq<Event>, deltas: seq<string>, world: World)
    requires Patient(world) && Ready(s)
    ensures Feed(Opened(s, part, [], events), DeltaValues(part, s.nextIndex, deltas), world) ==
            Done(Opened(s, part, Concat(deltas), events + DeltaEvents(part, s.nextIndex, deltas)))
  {
    hide Patient, Opened, DeltaValue, DeltaEvent, Parse, Ready;
    if deltas == [] {
      assert events + [] == events;
    } else {
      var before, x := deltas[..|deltas| - 1], deltas[|deltas| - 1];
      DeltasFed(s, part, events, before, world);
      FeedJoin(Opened(s, part, [], events), DeltaValues(part, s.nextIndex, before), [DeltaValue(part, s.nextIndex, x)],
               world);
      DeltaFed(s, part, Concat(before), events + DeltaEvents(part, s.nextIndex, before), x, world);
      assert events + DeltaEvents(part, s.nextIndex, before) + [DeltaEvent(part, s.nextIndex, x)] ==
             events + DeltaEvents(part, s.nextIndex, deltas);
    }
  }

  /** The block as it is when content_block_stop arrives: thinking has its signature. */
  function Whole(part: Part): Block {
    var block := BlockAfter(part, Concat(part.deltas));
    match part
    case ThinkingPart(start, deltas, signature) =>
      Block(Record("thinking", map["thinking" := String(start + Concat(deltas)), "signature" := String(signature)]), [])
    case _ => block
  }

  /** The state in which a block has received everything but its stop. */
  function Complete(s: State, part: Part, events: seq<Event>): State {
    s.(blocks := map[s.nextIndex := Whole(part)], nextIndex := s.nextIndex + 1,
       callIds := s.callIds + CallIdsOf([part]), log := s.log + events)
  }

  lemma SignatureFields(index: nat, signature: string)
    ensures var event := SignatureValue(index, signature);
      && TextAt(event, "type") == Some("content_block_delta") && Has(event, "index")
      && Count(event, "index", 0) == Some(index) && At(event, "delta").Some?
      && TextAt(At(event, "delta").value, "type") == Some("signature_delta")
      && TextAt(At(event, "delta").value, "signature") == Some(signature)
  {
  }

  lemma Signing(part: Part)
    requires part.ThinkingPart?
    ensures var block := BlockAfter(part, Concat(part.deltas));
      && TextAt(block.value, "type") == Some("thinking")
      && Append(block.value, "signature", part.signature, true) == Some(Whole(part).value)
      && block.input == Whole(part).input
  {
    hide Concat;
    var members := BlockAfter(part, Concat(part.deltas)).value.members;
    assert [] + part.signature == part.signature;
    assert members["signature" := String(part.signature)] == Whole(part).value.members;
  }

  lemma SignatureFed(s: State, part: Part, events: seq<Event>, world: World)
    requires Ready(s) && part.ThinkingPart?
    ensures Feed(Opened(s, part, Concat(part.deltas), events), [SignatureValue(s.nextIndex, part.signature)], world) ==
            Done(Complete(s, part, events))
  {
    hide CallIdsOf, BlockAfter, SignatureValue, Feed, Count, At, TextAt, Append, Whole, Concat;
    var t, event := Opened(s, part, Concat(part.deltas), events), SignatureValue(s.nextIndex, part.signature);
    SignatureFields(s.nextIndex, part.signature);
    Signing(part);
    FeedOne(t, event, world);
    assert t.blocks[s.nextIndex := Whole(part)] == map[s.nextIndex := Whole(part)];
  }

  lemma Settling(part: Part, toolNames: map<string, string>, thinkingEnabled: bool, world: World)
    requires PartFits(part, toolNames, thinkingEnabled, world)
    ensures Settled(Whole(part), world).Some?
    ensures ContentOf(Settled(Whole(part), world).value, toolNames, world) == Some(LastContent(part, toolNames, world))
  {
    hide Concat;
  }

  lemma StopFields(index: nat)
    ensures var event := StopValue(index);
      && TextAt(event, "type") == Some("content_block_stop") && Has(event, "index")
      && Count(event, "index", 0) == Some(index)
  {
  }

  lemma StopFed(s: State, part: Part, events: seq<Event>, world: World)
    requires Patient(world) && Ready(s) && PartFits(part, s.toolNames, s.thinkingEnabled, world)
    ensures Feed(Complete(s, part, events), [StopValue(s.nextIndex)], world) ==
            Done(s.(nextIndex := s.nextIndex + 1, callIds := s.callIds + CallIdsOf([part]),
                    log := s.log + events + [BlockFinished(s.nextIndex, LastContent(part, s.toolNames, world))]))
  {
    hide CallIdsOf, StopValue, Feed, Count, Whole, Settled, ContentOf, LastContent, Emit, PartFits, TextAt;
    var t := Complete(s, part, events);
    StopFields(s.nextIndex);
    Settling(part, s.toolNames, s.thinkingEnabled, world);
    FeedOne(t, StopValue(s.nextIndex), world);
    assert t.blocks - {s.nextIndex} == map[];
    PatientEmit(t.(blocks := map[]), BlockFinished(s.nextIndex, LastContent(part, s.toolNames, world)), world);
  }

  /** One block, from its start to its stop. */
  lemma PartFed(s: State, part: Part, world: World)
    requires Patient(world) && Ready(s) && PartFits(part, s.toolNames, s.thinkingEnabled, world)
    requires part.ToolPart? ==> part.id !in s.callIds
    ensures Feed(s, PartValues(part, s.nextIndex), world) ==
            Done(s.(nextIndex := s.nextIndex + 1, callIds := s.callIds + CallIdsOf([part]),
                    log := s.log + PartEvents(part, s.nextIndex, s.toolNames, world)))
  {
    hide CallIdsOf, StartValue, StopValue, Feed, Whole, LastContent, FirstContent, BlockAfter, PartFits, Patient,
      DeltaValues, DeltaEvents, SignatureValue, Concat, Opened, Complete, Ready;
    var n := s.nextIndex;
    var first, middle := [StartValue(part, n)], DeltaValues(part, n, part.deltas);
    var signature, last := if part.ThinkingPart? then [SignatureValue(n, part.signature)] else [], [StopValue(n)];
    var events0 := [BlockStarted(n, FirstContent(part, s.toolNames, world))];
    var events1 := events0 + DeltaEvents(part, n, part.deltas);
    StartFed(s, part, world);
    FeedJoin(s, first, middle, world);
    DeltasFed(s, part, events0, part.deltas, world);
    FeedJoin(s, first + middle, signature, world);
    var t := Opened(s, part, Concat(part.deltas), events1);
    if part.ThinkingPart? {
      SignatureFed(s, part, events1, world);
    } else {
      NothingFed(s, part, events1, world);
    }
    FeedJoin(s, first + middle + signature, last, world);
    StopFed(s, part, events1, world);
    assert s.log + events1 + [BlockFinished(n, LastContent(part, s.toolNames, world))] ==
           s.log + PartEvents(part, n, s.toolNames, world);
  }

  lemma NothingFed(s: State, part: Part, events: seq<Event>, world: World)
    requires !part.ThinkingPart?
    ensures Feed(Opened(s, part, Concat(part.deltas), events), [], world) == Done(Complete(s, part, events))
  {
    hide CallIdsOf, BlockAfter;
  }

  /** All blocks, one after the other. */
  lemma {:induction false} AllPartsFed(s: State, parts: seq<Part>, world: World)
    requires Patient(world) && Ready(s) && s.nextIndex == 0 && s.callIds == {}
    requires PartsFit(parts, s.toolNames, s.thinkingEnabled, world)
    ensures Feed(s, AllPartValues(parts), world) ==
            Done(s.(nextIndex := |parts|, callIds := CallIdsOf(parts),
                    log := s.log + AllPartEvents(parts, s.toolNames, world)))
  {
    hide Feed, PartValues, PartEvents, PartFits, PartsFit, Patient, CallIdsOf;
    if parts == [] {
      FeedNothing(s, world);
    } else {
      var before, part := parts[..|parts| - 1], parts[|parts| - 1];
      PartsSnoc(parts, s.toolNames, s.thinkingEnabled, world);
      AllPartsFed(s, before, world);
      var t := s.(nextIndex := |before|, callIds := CallIdsOf(before),
                  log := s.log + AllPartEvents(before, s.toolNames, world));
      FeedJoin(s, AllPartValues(before), PartValues(part, |before|), world);
      PartFed(t, part, world);
    }
  }

  lemma PartsSnoc(parts: seq<Part>, toolNames: map<string, string>, thinkingEnabled: bool, world: World)
    requires parts != [] && PartsFit(parts, toolNames, thinkingEnabled, world)
    ensures var before, part := parts[..|parts| - 1], parts[|parts| - 1];
      && PartsFit(before, toolNames, thinkingEnabled, world) && PartFits(part, toolNames, thinkingEnabled, world)
      && (part.ToolPart? ==> part.id !in CallIdsOf(before))
      && CallIdsOf(parts) == CallIdsOf(before) + CallIdsOf([part])
  {
    hide PartFits;
    var before, part := parts[..|parts| - 1], parts[|parts| - 1];
    assert parts == before + [part];
    if part.ToolPart? {
      forall other | other in before && other.ToolPart?
        ensures other.id != part.id
      {
        var i :| 0 <= i < |before| && before[i] == other;
        assert parts[i].id != parts[|before|].id;
      }
    }
  }

  lemma FeedNothing(s: State, world: World)
    ensures Feed(s, [], world) == Done(s) && CallIdsOf([]) == {}
  {
  }

  ghost predicate ResponseFits(r: Response, toolNames: map<string, string>, thinkingEnabled: bool, world: World) {
    && r.id != [] && PartsFit(r.parts, toolNames, thinkingEnabled, world) && StopReasonOf(r.stopReason).Some?
    && Counts(r.usage, Usage(0, 0, 0, 0)).Some?
    && Counts(r.lastUsage, Counts(r.usage, Usage(0, 0, 0, 0)).value).Some?
  }

  function Expected(r: Response, toolNames: map<string, string>, world: World): seq<Event> {
    var counts := Counts(r.usage, Usage(0, 0, 0, 0));
    var first := if counts.Some? then counts.value else Usage(0, 0, 0, 0);
    var last := Counts(r.lastUsage, first);
    [Started(r.id), Used(first)] + AllPartEvents(r.parts, toolNames, world)
    + [Used(if last.Some? then last.value else first)]
    + if StopReasonOf(r.stopReason).Some? then [Completed(StopReasonOf(r.stopReason).value)] else []
  }

  lemma MessageStartFields(r: Response)
    ensures var event := MessageStart(r);
      && TextAt(event, "type") == Some("message_start") && At(event, "message").Some?
      && var message := At(event, "message").value;
      && TextAt(message, "role") == Some("assistant") && At(message, "content") == Some(Array([]))
      && TextAt(message, "id") == Some(r.id) && At(message, "usage") == Some(r.usage)
  {
  }

  lemma MessageStartFed(s: State, r: Response, world: World)
    requires Patient(world) && !s.terminal && !s.started && r.id != [] && Counts(r.usage, Usage(0, 0, 0, 0)).Some?
    ensures var u := Counts(r.usage, Usage(0, 0, 0, 0)).value;
      Feed(s, [MessageStart(r)], world) ==
        Done(s.(started := true, usage := u, log := s.log + [Started(r.id), Used(u)]))
  {
    hide Feed, Counts, Emit, At, TextAt, MessageStart;
    MessageStartFields(r);
    FeedOne(s, MessageStart(r), world);
    var u := Counts(r.usage, Usage(0, 0, 0, 0)).value;
    var t := s.(started := true);
    PatientEmit(t, Started(r.id), world);
    PatientEmit(t.(log := t.log + [Started(r.id)], usage := u), Used(u), world);
    assert s.log + [Started(r.id)] + [Used(u)] == s.log + [Started(r.id), Used(u)];
  }

  lemma MessageDeltaFields(r: Response)
    ensures var event := MessageDelta(r);
      && TextAt(event, "type") == Some("message_delta") && At(event, "delta").Some?
      && Has(event, "usage") && event.members["usage"] == r.lastUsage
      && var delta := At(event, "delta").value;
      && Has(delta, "stop_reason") && !delta.members["stop_reason"].Null?
      && TextAt(delta, "stop_reason") == Some(r.stopReason)
  {
  }

  lemma MessageDeltaFed(s: State, r: Response, world: World)
    requires Patient(world) && Ready(s) && StopReasonOf(r.stopReason).Some? && Counts(r.lastUsage, s.usage).Some?
    ensures var u := Counts(r.lastUsage, s.usage).value;
      Feed(s, [MessageDelta(r)], world) ==
      Done(s.(stop := StopReasonOf(r.stopReason), usage := u, log := s.log + [Used(u)]))
  {
    hide Feed, Counts, Emit, At, TextAt, MessageDelta, StopReasonOf, Has;
    MessageDeltaFields(r);
    FeedOne(s, MessageDelta(r), world);
    var u := Counts(r.lastUsage, s.usage).value;
    PatientEmit(s.(stop := StopReasonOf(r.stopReason), usage := u), Used(u), world);
  }

  lemma MessageStopFed(s: State, world: World)
    requires Patient(world) && s.started && !s.terminal && s.stop.Some? && s.blocks == map[]
    ensures Feed(s, [Record("message_stop", map[])], world) ==
            Done(s.(terminal := true, log := s.log + [Completed(s.stop.value)]))
  {
    hide Feed;
    FeedOne(s, Record("message_stop", map[]), world);
  }

  lemma ResponseFed(r: Response, toolNames: map<string, string>, thinkingEnabled: bool, world: World)
    requires Patient(world) && ResponseFits(r, toolNames, thinkingEnabled, world)
    ensures var outcome := Feed(Initial(toolNames, thinkingEnabled), ResponseValues(r), world);
      && !outcome.thrown && outcome.state.terminal && !outcome.state.cancelled
      && outcome.state.log == Expected(r, toolNames, world)
    ensures var values := ResponseValues(r);
      var before := Feed(Initial(toolNames, thinkingEnabled), values[..|values| - 1], world);
      !before.thrown && !before.state.terminal
  {
    hide Feed, Counts, MessageStart, MessageDelta, StopReasonOf, Patient, PartsFit, AllPartValues, AllPartEvents,
      Record;
    var s := Initial(toolNames, thinkingEnabled);
    var last := [Record("message_stop", map[])];
    MessageStartFed(s, r, world);
    var s1 := Feed(s, [MessageStart(r)], world).state;
    AllPartsFed(s1, r.parts, world);
    FeedJoin(s, [MessageStart(r)], AllPartValues(r.parts), world);
    var s2 := Feed(s1, AllPartValues(r.parts), world).state;
    MessageDeltaFed(s2, r, world);
    FeedJoin(s, [MessageStart(r)] + AllPartValues(r.parts), [MessageDelta(r)], world);
    var s3 := Feed(s2, [MessageDelta(r)], world).state;
    assert ResponseValues(r)[..|ResponseValues(r)| - 1] ==
      [MessageStart(r)] + AllPartValues(r.parts) + [MessageDelta(r)];
    MessageStopFed(s3, world);
    FeedJoin(s, [MessageStart(r)] + AllPartValues(r.parts) + [MessageDelta(r)], last, world);
  }

  // ---- From bytes to values ----

  /** The server-sent events that carry these values. */
  function Inputs(data: seq<string>, values: seq<Json>): seq<L.Input>
    requires |data| == |values|
  {
    if data == [] then []
    else
      var kind := TextAt(values[|values| - 1], "type");
      Inputs(data[..|data| - 1], values[..|values| - 1])
      + [L.Arrived(if kind.Some? then kind.value else [], data[|data| - 1])]
  }

  function Size(data: seq<string>): nat {
    if data == [] then 0 else Size(data[..|data| - 1]) + |data[|data| - 1]|
  }

  ghost predicate Carries(data: seq<string>, values: seq<Json>, world: World) {
    |data| == |values| && forall i :: 0 <= i < |data| ==> world.parse(data[i]) == Some(values[i])
  }

  /** Feeding the values and handling the bytes that carry them come to the same, as long as the stream is live and
      within the byte limit. */
  lemma {:induction false} HandledAsFed(s: State, bytes: nat, data: seq<string>, values: seq<Json>, world: World)
    requires Carries(data, values, world) && !Feed(s, values, world).thrown
    requires forall n :: 0 <= n < |values| ==> !Feed(s, values[..n], world).state.terminal
    requires bytes + Size(data) <= BYTE_LIMIT
    ensures L.Run(Stream(s, bytes), Inputs(data, values), world) ==
            Stream(Feed(s, values, world).state, bytes + Size(data))
  {
    hide Parse, TextAt;
    if data != [] {
      var data', values' := data[..|data| - 1], values[..|values| - 1];
      assert forall n :: 0 <= n < |values'| ==> values'[..n] == values[..n];
      HandledAsFed(s, bytes, data', values', world);
      var inputs := Inputs(data, values);
      assert inputs[..|inputs| - 1] == Inputs(data', values');
    }
  }

  lemma {:induction false} LiveThroughout(s: State, values: seq<Json>, n: nat, world: World)
    requires n <= |values| && !Feed(s, values, world).thrown && !Feed(s, values, world).state.terminal
    ensures !Feed(s, values[..n], world).state.terminal
  {
    hide Parse;
    if n == |values| {
      assert values[..n] == values;
    } else {
      var before := values[..|values| - 1];
      assert values[..n] == before[..n];
      LiveThroughout(s, before, n, world);
    }
  }

  /** Completeness: any response the API streams in good order reaches a patient receiver whole, in order, with
      nothing added; the stream then has ended. */
  lemma ResponseDelivered(r: Response, data: seq<string>, toolNames: map<string, string>, thinkingEnabled: bool,
                          world: World)
    requires Patient(world) && ResponseFits(r, toolNames, thinkingEnabled, world)
    requires Carries(data, ResponseValues(r), world) && Size(data) <= BYTE_LIMIT
    ensures var t := L.Run(Stream(Initial(toolNames, thinkingEnabled), 0), Inputs(data, ResponseValues(r)),
                           world).state;
      t.terminal && !t.cancelled && t.log == Expected(r, toolNames, world)
  {
    hide Feed, Patient, Carries, Inputs, ResponseFits, Expected, AllPartValues, MessageStart, MessageDelta, Record;
    var s, values := Initial(toolNames, thinkingEnabled), ResponseValues(r);
    ResponseFed(r, toolNames, thinkingEnabled, world);
    forall n | 0 <= n < |values|
      ensures !Feed(s, values[..n], world).state.terminal
    {
      LiveThroughout(s, values[..|values| - 1], n, world);
      assert values[..|values| - 1][..n] == values[..n];
    }
    HandledAsFed(s, 0, data, values, world);
  }

  // ---- Names and thinking on the way back ----

  /** A streamed tool call with the alias of a declared tool comes back under its own name, and any other name is
      refused. */
  lemma AliasDecodes(value: Json, declared: set<string>, toolNames: map<string, string>, world: World)
    requires P.Inverse(toolNames, declared) && TextAt(value, "type") == Some("tool_use")
    requires TextAt(value, "id").Some? && At(value, "input").Some?
    ensures var wire, content := TextAt(value, "name"), ContentOf(value, toolNames, world);
      && (content.Some? <==> wire.Some? && exists n :: n in declared && wire.value == T.Wire(n))
      && (content.Some? ==> content.value.name in declared && wire.value == T.Wire(content.value.name))
      && forall n :: n in declared && wire == Some(T.Wire(n)) ==> content.value.name == n
  {
    hide T.Wire;
  }

  /** Finished reasoning can be replayed: a redacted block always, a thinking block exactly when the API ever gave it
      a thinking member; a block that only ever got its signature finishes, and is then refused as input. */
  lemma ThinkingReturns(block: Block, first: Content, text: string, toolNames: map<string, string>, world: World)
    requires L.Holds(block, first, text, toolNames, world) && first.Reasoning? && Settled(block, world).Some?
    requires world.parse(world.dump(block.value)) == Some(block.value)
    ensures var content := ContentOf(Settled(block, world).value, toolNames, world);
      && content.Some? && content.value.Reasoning?
      && (P.Continues(content.value.thought, world.parse(content.value.continuation)) <==>
            TextAt(block.value, "type") == Some("redacted_thinking") || Has(block.value, "thinking"))
  {
  }

  /** A thinking block that never got a thinking member, before and after its signature. */
  function Unspoken(signature: string): Json {
    Record("thinking", if signature == [] then map[] else map["signature" := String(signature)])
  }

  function UnspokenStart(index: nat): Json {
    BlockRecord("content_block_start", index, map["content_block" := Unspoken([])])
  }

  function UnspokenValues(r: Response, signature: string): seq<Json> {
    [MessageStart(r)] + [UnspokenStart(0)] + [SignatureValue(0, signature)] + [StopValue(0)] + [MessageDelta(r)]
    + [Record("message_stop", map[])]
  }

  function UnspokenContent(signature: string, world: World): Content {
    Reasoning("", "anthropic", world.dump(Unspoken(signature)))
  }

  lemma UnspokenFields(index: nat, signature: string, toolNames: map<string, string>, world: World)
    requires signature != []
    ensures var event := UnspokenStart(index);
      && TextAt(event, "type") == Some("content_block_start") && Has(event, "index")
      && Count(event, "index", 0) == Some(index) && At(event, "content_block") == Some(Unspoken([]))
    ensures StreamState.BlockFits(Unspoken([]), true, {}) && NewCall(Unspoken([])) == {}
    ensures TextAt(Unspoken([]), "type") == Some("thinking")
    ensures Append(Unspoken([]), "signature", signature, true) == Some(Unspoken(signature))
    ensures Settled(Block(Unspoken(signature), []), world) == Some(Unspoken(signature))
    ensures ContentOf(Unspoken([]), toolNames, world) == Some(UnspokenContent([], world))
    ensures ContentOf(Unspoken(signature), toolNames, world) == Some(UnspokenContent(signature, world))
    ensures !P.Continues("", Some(Unspoken(signature)))
  {
    assert [] + signature == signature;
    assert Unspoken([]).members["signature" := String(signature)] == Unspoken(signature).members;
  }

  /** The state in which such a block is open. */
  function UnspokenOpened(s: State, value: Json, world: World): State {
    s.(blocks := map[0 := Block(value, [])], nextIndex := 1,
       log := s.log + [BlockStarted(0, UnspokenContent([], world))])
  }

  lemma UnspokenStarted(s: State, signature: string, world: World)
    requires Patient(world) && Ready(s) && s.nextIndex == 0 && s.callIds == {} && s.thinkingEnabled && signature != []
    ensures Feed(s, [UnspokenStart(0)], world) == Done(UnspokenOpened(s, Unspoken([]), world))
  {
    hide Emit, ContentOf, BlockFits, NewCall, Unspoken, UnspokenStart, UnspokenContent, Feed, Count, At, TextAt;
    UnspokenFields(0, signature, s.toolNames, world);
    FeedOne(s, UnspokenStart(0), world);
    var block := Block(Unspoken([]), []);
    assert s.blocks[0 := block] == map[0 := block] && s.callIds + {} == s.callIds;
    PatientEmit(s.(blocks := map[0 := block], nextIndex := 1), BlockStarted(0, UnspokenContent([], world)), world);
  }

  lemma UnspokenSigned(s: State, signature: string, world: World)
    requires Ready(s) && signature != []
    ensures Feed(UnspokenOpened(s, Unspoken([]), world), [SignatureValue(0, signature)], world) ==
            Done(UnspokenOpened(s, Unspoken(signature), world))
  {
    hide Unspoken, UnspokenContent, SignatureValue, Feed, Count, At, TextAt, Append;
    UnspokenFields(0, signature, s.toolNames, world);
    SignatureFields(0, signature);
    var t, block := UnspokenOpened(s, Unspoken([]), world), Block(Unspoken(signature), []);
    FeedOne(t, SignatureValue(0, signature), world);
    assert t.blocks[0 := block] == map[0 := block];
  }

  lemma UnspokenStopped(s: State, signature: string, world: World)
    requires Patient(world) && Ready(s) && signature != []
    ensures Feed(UnspokenOpened(s, Unspoken(signature), world), [StopValue(0)], world) ==
            Done(s.(nextIndex := 1, log := s.log + [BlockStarted(0, UnspokenContent([], world)),
                                                    BlockFinished(0, UnspokenContent(signature, world))]))
  {
    hide Unspoken, UnspokenContent, StopValue, Feed, Count, Settled, ContentOf, Emit, TextAt;
    var t, finished := UnspokenOpened(s, Unspoken(signature), world), UnspokenContent(signature, world);
    UnspokenFields(0, signature, s.toolNames, world);
    StopFields(0);
    FeedOne(t, StopValue(0), world);
    assert t.blocks - {0} == map[];
    PatientEmit(t.(blocks := map[]), BlockFinished(0, finished), world);
    assert t.log + [BlockFinished(0, finished)] ==
           s.log + [BlockStarted(0, UnspokenContent([], world)), BlockFinished(0, finished)];
  }

  /** What the receiver gets of such a response. */
  function UnspokenLog(r: Response, signature: string, world: World): seq<Event>
    requires ResponseFits(r, map[], true, world)
  {
    var first := Counts(r.usage, Usage(0, 0, 0, 0)).value;
    [Started(r.id), Used(first), BlockStarted(0, UnspokenContent([], world)),
     BlockFinished(0, UnspokenContent(signature, world)), Used(Counts(r.lastUsage, first).value),
     Completed(StopReasonOf(r.stopReason).value)]
  }

  lemma UnspokenFed(r: Response, signature: string, toolNames: map<string, string>, world: World)
    requires Patient(world) && ResponseFits(r, map[], true, world) && signature != []
    ensures var outcome := Feed(Initial(toolNames, true), UnspokenValues(r, signature), world);
      && !outcome.thrown && outcome.state.terminal && !outcome.state.cancelled
      && outcome.state.log == UnspokenLog(r, signature, world)
    ensures var values := UnspokenValues(r, signature);
      var before := Feed(Initial(toolNames, true), values[..|values| - 1], world);
      !before.thrown && !before.state.terminal
  {
    hide Feed, Counts, MessageStart, MessageDelta, StopReasonOf, Patient, PartsFit, UnspokenStart, SignatureValue,
      StopValue, UnspokenContent, Record;
    var s, values := Initial(toolNames, true), UnspokenValues(r, signature);
    var opening := [MessageStart(r)] + [UnspokenStart(0)];
    MessageStartFed(s, r, world);
    var s1 := Feed(s, [MessageStart(r)], world).state;
    UnspokenStarted(s1, signature, world);
    FeedJoin(s, [MessageStart(r)], [UnspokenStart(0)], world);
    UnspokenSigned(s1, signature, world);
    FeedJoin(s, opening, [SignatureValue(0, signature)], world);
    UnspokenStopped(s1, signature, world);
    FeedJoin(s, opening + [SignatureValue(0, signature)], [StopValue(0)], world);
    var s2 := Feed(s, opening + [SignatureValue(0, signature)] + [StopValue(0)], world).state;
    MessageDeltaFed(s2, r, world);
    FeedJoin(s, opening + [SignatureValue(0, signature)] + [StopValue(0)], [MessageDelta(r)], world);
    var before := opening + [SignatureValue(0, signature)] + [StopValue(0)] + [MessageDelta(r)];
    assert values[..|values| - 1] == before;
    MessageStopFed(Feed(s, before, world).state, world);
    FeedJoin(s, before, [Record("message_stop", map[])], world);
  }

  ghost predicate GivesBack(request: P.Request, content: Content) {
    exists item :: item in Flat(request.messages) && item.content == content
  }

  /** A request that gives this content back is refused. */
  lemma UnspokenRefused(request: P.Request, configuration: P.Configuration, signature: string, world: World)
    requires signature != [] && world.parse(world.dump(Unspoken(signature))) == Some(Unspoken(signature))
    requires GivesBack(request, UnspokenContent(signature, world))
    ensures !P.Acceptable(request, configuration, world.parse)
  {
    hide P.OptionsFit, P.ToolFits, T.Unambiguous, NoDuplicates, WellPaired, P.Continues, Unspoken;
    UnspokenFields(0, signature, map[], world);
    var items := Flat(request.messages);
    var item :| item in items && item.content == UnspokenContent(signature, world);
    var i :| 0 <= i < |items| && items[i] == item;
    assert !P.BlockFits(items[i], configuration, world.parse);
  }

  /** The other half, shown on whole runs: a response whose only block is such a thinking block arrives and completes
      without an error, and no request whose transcript holds the reasoning it delivered is taken. */
  lemma UnspokenThinking(r: Response, signature: string, data: seq<string>, toolNames: map<string, string>,
                         world: World)
    requires Patient(world) && ResponseFits(r, map[], true, world) && signature != []
    requires Carries(data, UnspokenValues(r, signature), world) && Size(data) <= BYTE_LIMIT
    requires world.parse(world.dump(Unspoken(signature))) == Some(Unspoken(signature))
    ensures var s := L.Run(Stream(Initial(toolNames, true), 0), Inputs(data, UnspokenValues(r, signature)),
                           world).state;
      s.terminal && !s.cancelled && s.log == UnspokenLog(r, signature, world)
    ensures forall request, configuration :: GivesBack(request, UnspokenContent(signature, world)) ==>
      !P.Acceptable(request, configuration, world.parse)
  {
    hide Feed, Patient, Carries, Inputs, ResponseFits, UnspokenLog, MessageStart, MessageDelta, Record, Unspoken,
      UnspokenStart, SignatureValue, StopValue, GivesBack, P.Acceptable;
    var s, values := Initial(toolNames, true), UnspokenValues(r, signature);
    UnspokenFed(r, signature, toolNames, world);
    forall n | 0 <= n < |values|
      ensures !Feed(s, values[..n], world).state.terminal
    {
      LiveThroughout(s, values[..|values| - 1], n, world);
      assert values[..|values| - 1][..n] == values[..n];
    }
    HandledAsFed(s, 0, data, values, world);
    forall request, configuration | GivesBack(request, UnspokenContent(signature, world))
      ensures !P.Acceptable(request, configuration, world.parse)
    {
      UnspokenRefused(request, configuration, signature, world);
    }
  }
}
