/** What every single event does to a live stream with a patient receiver, told by the members of the event and the
    fields of the stream alone: exactly when it is taken, what the receiver hears of it, and how the stream fails
    otherwise. And what the receiver is told of a whole response. */
module StreamVerdicts {
  import opened Wrappers
  import opened JsonValue
  import opened Transcript
  import opened StreamState
  import opened StreamDelivery
  import L = StreamLanguage

  // ---- Token counts and stop reasons ----

  /** The count a member gives: its own number, or the earlier count where it is absent. */
  ghost predicate Counted(usage: Json, key: string, prior: nat, n: nat) {
    if usage.Object? && key in usage.members then usage.members[key] == Integer(n) else n == prior
  }

  ghost predicate Tallies(usage: Json, prior: Usage, u: Usage) {
    && Counted(usage, "input_tokens", prior.input, u.input)
    && Counted(usage, "output_tokens", prior.output, u.output)
    && Counted(usage, "cache_read_input_tokens", prior.cacheRead, u.cacheRead)
    && Counted(usage, "cache_creation_input_tokens", prior.cacheWrite, u.cacheWrite)
  }

  const CountNames :=
    {"input_tokens", "output_tokens", "cache_read_input_tokens", "cache_creation_input_tokens"}

  /** Every count that is there is a number from zero on. */
  ghost predicate Countable(usage: Json) {
    usage.Object? ==>
      forall key :: key in CountNames && key in usage.members ==>
        usage.members[key].Integer? && usage.members[key].number >= 0
  }

  lemma CountsTally(usage: Json, prior: Usage)
    ensures Counts(usage, prior).Some? <==> Countable(usage)
    ensures forall u :: Counts(usage, prior) == Some(u) <==> Tallies(usage, prior, u)
  {
  }

  /** How the API spells a stop reason. */
  predicate Spells(text: string, reason: StopReason) {
    match reason
    case EndTurn => text == "end_turn"
    case ToolUse => text == "tool_use"
    case OutputLimit => text == "max_tokens" || text == "model_context_window_exceeded"
    case StopSequence => text == "stop_sequence"
    case Refusal => text == "refusal"
    case Pause => text == "pause_turn"
  }

  lemma ReasonsSpelled(text: string)
    ensures forall reason :: StopReasonOf(text) == Some(reason) <==> Spells(text, reason)
  {
  }

  // ---- One event ----

  /** The stream ended with this event. */
  ghost predicate EndsWith(s: State, t: State, e: Event) {
    t == s.(terminal := true, blocks := map[], log := t.log) && t.log == s.log + [e]
  }

  /** An event that cannot be read, is mislabelled, or is one too many bytes ends the stream as invalid; so does one
      that is read and refused. Any other does what the stream makes of it, and an ended stream hears nothing. */
  lemma HandleVerdict(s: Stream, name: string, data: string, world: World)
    requires Patient(world)
    ensures var h, value := Handle(s, name, data, world), world.parse(data);
      var fits := s.bytes + |data| <= BYTE_LIMIT;
      && (s.state.terminal ==> h.stream == s)
      && (!s.state.terminal ==>
            h.stream.bytes == if fits then s.bytes + |data| else s.bytes)
      && (!s.state.terminal && (!fits || value.None? || TextAt(value.value, "type") != Some(name)) ==>
            EndsWith(s.state, h.stream.state, Error("invalid_stream", false)))
      && (!s.state.terminal && fits && value.Some? && TextAt(value.value, "type") == Some(name) ==>
            var r := Parse(s.state, value.value, name, world);
            if r.thrown && !r.state.terminal then EndsWith(r.state, h.stream.state, Error("invalid_stream", false))
            else h.stream.state == r.state)
      && !h.thrown
  {
    hide Parse, TextAt;
  }

  /** A stream that ends early says so, and that trying again may help. */
  lemma FinishVerdict(s: State, world: World)
    requires Patient(world)
    ensures var r := Finish(s, world);
      if s.terminal then r.state == s else EndsWith(s, r.state, Error("incomplete_stream", true))
  {
  }

  /** An error of the API is passed on under its own name; only these three may be retried. */
  lemma ErrorVerdict(s: State, event: Json, world: World)
    requires Patient(world) && !s.terminal
    ensures var r := Parse(s, event, "error", world);
      if Has(event, "error") && TextAt(event.members["error"], "type").Some?
         && TextAt(event.members["error"], "message").Some?
      then
        var code := TextAt(event.members["error"], "type").value;
        && !r.thrown
        && EndsWith(s, r.state, Error(code, code in {"overloaded_error", "rate_limit_error", "api_error"}))
      else r == Throw(s)
  {
    hide JsonValue.Text;
  }

  /** Pings and events of unknown types do nothing, unless they claim to be about a block without naming it. */
  lemma AncillaryVerdict(s: State, event: Json, kind: string, world: World)
    requires kind !in {"error", "message_start", "content_block_start", "content_block_delta", "content_block_stop",
                       "message_delta", "message_stop"}
    ensures Parse(s, event, kind, world) ==
      if CONTENT_BLOCK <= kind && !(event.Object? && "index" in event.members) then Throw(s) else Done(s)
  {
  }

  /** message_start is taken once, from the assistant, without content, under an id. */
  ghost predicate Opens(s: State, event: Json) {
    && !s.started && Has(event, "message")
    && var message := event.members["message"];
    && TextAt(message, "role") == Some("assistant") && At(message, "content") == Some(Array([]))
    && TextAt(message, "id").Some? && TextAt(message, "id").value != []
  }

  lemma MessageStartVerdict(s: State, event: Json, world: World)
    requires Patient(world) && !s.terminal
    ensures var r := Parse(s, event, "message_start", world);
      if !Opens(s, event) then r == Throw(s)
      else
        var message := event.members["message"];
        var told := s.(started := true, log := s.log + [Started(TextAt(message, "id").value)]);
        if Has(message, "usage") && Countable(message.members["usage"]) then
          && r == Done(told.(usage := r.state.usage, log := told.log + [Used(r.state.usage)]))
          && Tallies(message.members["usage"], Usage(0, 0, 0, 0), r.state.usage)
        else r == Throw(told)
  {
    hide Counts, JsonValue.Text, Tallies, Countable, Emit;
    if Opens(s, event) {
      var message := event.members["message"];
      var t := s.(started := true);
      PatientEmit(t, Started(TextAt(message, "id").value), world);
      if Has(message, "usage") {
        CountsTally(message.members["usage"], Usage(0, 0, 0, 0));
        var counts := Counts(message.members["usage"], Usage(0, 0, 0, 0));
        if counts.Some? {
          var told := t.(log := t.log + [Started(TextAt(message, "id").value)], usage := counts.value);
          PatientEmit(told, Used(counts.value), world);
        }
      }
    }
  }

  /** The first form of a block, and what it means to the receiver. */
  ghost predicate Presents(value: Json, s: State, content: Content, world: World) {
    match content
    case Text(text) => TextAt(value, "type") == Some("text") && TextAt(value, "text") == Some(text)
    case ToolCall(id, name, input) =>
      && TextAt(value, "type") == Some("tool_use")
      && TextAt(value, "id") == Some(id) && id != [] && id !in s.callIds
      && At(value, "input") == Some(input) && input.Object?
      && TextAt(value, "name").Some? && TextAt(value, "name").value in s.toolNames
      && s.toolNames[TextAt(value, "name").value] == name
    case Reasoning(thought, provider, continuation) =>
      && s.thinkingEnabled && provider == "anthropic" && continuation == world.dump(value)
      && (TextAt(value, "type") == Some("thinking") ||
          (TextAt(value, "type") == Some("redacted_thinking") && TextAt(value, "data").Some?))
      && TextOr(value, "thinking") == Some(thought)
    case ToolResult(_, _, _) => false
  }

  /** A block is started between blocks, before the stop reason, under the next number, and only in a form that means
      something; the receiver hears what it means. */
  lemma BlockStartVerdict(s: State, event: Json, world: World)
    requires Patient(world) && !s.terminal
    ensures var r := Parse(s, event, "content_block_start", world);
      if !r.thrown then
        && s.started && s.stop.None? && s.blocks == map[]
        && At(event, "index") == Some(Integer(s.nextIndex)) && At(event, "content_block").Some?
        && var value := At(event, "content_block").value;
        exists content :: Presents(value, s, content, world) &&
          r.state == s.(nextIndex := s.nextIndex + 1, blocks := map[s.nextIndex := Block(value, [])],
                        callIds := if content.ToolCall? then s.callIds + {content.id} else s.callIds,
                        log := s.log + [BlockStarted(s.nextIndex, content)])
      else
        && r.state.log == s.log && r.state.blocks == s.blocks && !r.state.terminal
        && !(&& s.started && s.stop.None? && s.blocks == map[]
             && At(event, "index") == Some(Integer(s.nextIndex)) && At(event, "content_block").Some?
             && exists content :: Presents(At(event, "content_block").value, s, content, world))
  {
    hide Emit, ContentOf, BlockFits, NewCall, Presents, TextAt;
    if Has(event, "index") && Has(event, "content_block") {
      var value := event.members["content_block"];
      PresentedIsTaken(s, value, world);
      var content := ContentOf(value, s.toolNames, world);
      if content.Some? {
        assert s.blocks == map[] ==> s.blocks[s.nextIndex := Block(value, [])] == map[s.nextIndex := Block(value, [])];
        var t := s.(nextIndex := s.nextIndex + 1, callIds := s.callIds + NewCall(value),
                    blocks := map[s.nextIndex := Block(value, [])]);
        PatientEmit(t, BlockStarted(s.nextIndex, content.value), world);
      }
    }
  }

  lemma PresentedIsTaken(s: State, value: Json, world: World)
    ensures var content := ContentOf(value, s.toolNames, world);
      && (forall c :: Presents(value, s, c, world) <==>
            BlockFits(value, s.thinkingEnabled, s.callIds) && content == Some(c))
      && (content.Some? ==> NewCall(value) == if content.value.ToolCall? then {content.value.id} else {})
  {
  }

  /** How an open block takes a delta: what it becomes, and what the receiver hears. A signature is taken silently. */
  ghost predicate Takes(block: Block, delta: Json, index: nat, changed: Block, heard: seq<Event>) {
    || (TextAt(delta, "type") == Some("text_delta") && TakesText(block, delta, index, changed, heard))
    || (TextAt(delta, "type") == Some("input_json_delta") && TakesInput(block, delta, index, changed, heard))
    || (TextAt(delta, "type") == Some("thinking_delta") && TakesThinking(block, delta, index, changed, heard))
    || (TextAt(delta, "type") == Some("signature_delta") && TakesSignature(block, delta, changed, heard))
  }

  ghost predicate TakesText(block: Block, delta: Json, index: nat, changed: Block, heard: seq<Event>) {
    && TextAt(block.value, "type") == Some("text") && TextAt(delta, "text").Some?
    && AddsText(block, "text", TextAt(block.value, "text"), TextAt(delta, "text").value, changed)
    && heard == [TextDelta(index, TextAt(delta, "text").value)]
  }

  ghost predicate TakesInput(block: Block, delta: Json, index: nat, changed: Block, heard: seq<Event>) {
    && TextAt(block.value, "type") == Some("tool_use") && TextAt(delta, "partial_json").Some?
    && changed == Block(block.value, block.input + TextAt(delta, "partial_json").value)
    && heard == [ToolInputDelta(index, TextAt(delta, "partial_json").value)]
  }

  ghost predicate TakesThinking(block: Block, delta: Json, index: nat, changed: Block, heard: seq<Event>) {
    && TextAt(block.value, "type") == Some("thinking") && TextAt(delta, "thinking").Some?
    && AddsText(block, "thinking", TextOr(block.value, "thinking"), TextAt(delta, "thinking").value, changed)
    && heard == [ReasoningDelta(index, TextAt(delta, "thinking").value)]
  }

  ghost predicate TakesSignature(block: Block, delta: Json, changed: Block, heard: seq<Event>) {
    && TextAt(block.value, "type") == Some("thinking") && TextAt(delta, "signature").Some?
    && AddsText(block, "signature", TextOr(block.value, "signature"), TextAt(delta, "signature").value, changed)
    && heard == []
  }

  /** The member grows by the text, and nothing else of the block changes. */
  ghost predicate AddsText(block: Block, key: string, prior: Option<string>, x: string, changed: Block) {
    && prior.Some? && block.value.Object? && changed.value.Object? && changed.input == block.input
    && changed.value.members == block.value.members[key := String(prior.value + x)]
  }

  lemma BlockDeltaVerdict(s: State, event: Json, index: nat, world: World)
    requires Patient(world) && !s.terminal && At(event, "index") == Some(Integer(index))
    ensures var r := Parse(s, event, "content_block_delta", world);
      if !r.thrown then
        && index in s.blocks && At(event, "delta").Some?
        && exists changed, heard :: Takes(s.blocks[index], At(event, "delta").value, index, changed, heard) &&
             r.state == s.(blocks := s.blocks[index := changed], log := s.log + heard)
      else
        && r == Throw(s)
        && !(index in s.blocks && At(event, "delta").Some? &&
             exists changed, heard :: Takes(s.blocks[index], At(event, "delta").value, index, changed, heard))
  {
    hide Emit, Append, TextAt, TextOr, Takes, ChangeText, ChangeInput, ChangeThinking;
    if index in s.blocks && Has(event, "delta") {
      var delta := event.members["delta"];
      var kind := TextAt(delta, "type");
      if kind == Some("text_delta") {
        TextTaken(s, index, delta, world);
      } else if kind == Some("input_json_delta") {
        InputTaken(s, index, delta, world);
      } else if kind == Some("thinking_delta") {
        ThinkingTaken(s, index, delta, world);
      } else if kind == Some("signature_delta") {
        SignatureTaken(s, index, delta, world);
      } else {
        assert forall changed, heard :: !Takes(s.blocks[index], delta, index, changed, heard) by {
          OnlyTheseTaken(s.blocks[index], delta, index);
        }
      }
    }
  }

  lemma OnlyTheseTaken(block: Block, delta: Json, index: nat)
    requires TextAt(delta, "type") !in
      {Some("text_delta"), Some("input_json_delta"), Some("thinking_delta"), Some("signature_delta")}
    ensures forall changed, heard :: !Takes(block, delta, index, changed, heard)
  {
    hide TextAt, TakesText, TakesInput, TakesThinking, TakesSignature;
  }

  /** What a delta handler did: it took the delta, or refused it because it could not be taken. */
  ghost predicate TakesOrThrows(s: State, index: nat, delta: Json, r: Outcome)
    requires index in s.blocks
  {
    if r.thrown then r == Throw(s) && !exists changed, heard :: Takes(s.blocks[index], delta, index, changed, heard)
    else
      exists changed, heard :: Takes(s.blocks[index], delta, index, changed, heard) &&
        r.state == s.(blocks := s.blocks[index := changed], log := s.log + heard)
  }

  lemma AppendAdds(block: Block, key: string, x: string, absent: bool)
    ensures var value := Append(block.value, key, x, absent);
      var prior := if absent then TextOr(block.value, key) else TextAt(block.value, key);
      forall changed :: AddsText(block, key, prior, x, changed) <==>
        value.Some? && changed == block.(value := value.value)
  {
    hide TextAt, TextOr;
  }

  lemma TextTaken(s: State, index: nat, delta: Json, world: World)
    requires Patient(world) && !s.terminal && index in s.blocks && TextAt(delta, "type") == Some("text_delta")
    ensures TakesOrThrows(s, index, delta, ChangeText(s, index, delta, world))
  {
    hide TakesInput, TakesThinking, TakesSignature, Emit, TextAt, TextOr, AddsText, Append;
    var block, text := s.blocks[index], TextAt(delta, "text");
    if TextAt(block.value, "type") == Some("text") && text.Some? {
      AppendAdds(block, "text", text.value, false);
      var value := Append(block.value, "text", text.value, false);
      if value.Some? {
        var changed := block.(value := value.value);
        PatientEmit(s.(blocks := s.blocks[index := changed]), TextDelta(index, text.value), world);
        assert Takes(block, delta, index, changed, [TextDelta(index, text.value)]);
      }
    }
  }

  lemma InputTaken(s: State, index: nat, delta: Json, world: World)
    requires Patient(world) && !s.terminal && index in s.blocks && TextAt(delta, "type") == Some("input_json_delta")
    ensures TakesOrThrows(s, index, delta, ChangeInput(s, index, delta, world))
  {
    hide TakesText, TakesThinking, TakesSignature, Emit, TextAt;
    var block, text := s.blocks[index], TextAt(delta, "partial_json");
    if TextAt(block.value, "type") == Some("tool_use") && text.Some? {
      var changed := Block(block.value, block.input + text.value);
      PatientEmit(s.(blocks := s.blocks[index := changed]), ToolInputDelta(index, text.value), world);
      assert Takes(block, delta, index, changed, [ToolInputDelta(index, text.value)]);
    }
  }

  lemma ThinkingTaken(s: State, index: nat, delta: Json, world: World)
    requires Patient(world) && !s.terminal && index in s.blocks && TextAt(delta, "type") == Some("thinking_delta")
    ensures TakesOrThrows(s, index, delta, ChangeThinking(s, index, delta, "thinking", world))
  {
    hide TakesText, TakesInput, TakesSignature, Emit, TextAt, TextOr, AddsText, Append;
    var block, text := s.blocks[index], TextAt(delta, "thinking");
    if TextAt(block.value, "type") == Some("thinking") && text.Some? {
      AppendAdds(block, "thinking", text.value, true);
      var value := Append(block.value, "thinking", text.value, true);
      if value.Some? {
        var changed := block.(value := value.value);
        PatientEmit(s.(blocks := s.blocks[index := changed]), ReasoningDelta(index, text.value), world);
        assert Takes(block, delta, index, changed, [ReasoningDelta(index, text.value)]);
      }
    }
  }

  lemma SignatureTaken(s: State, index: nat, delta: Json, world: World)
    requires Patient(world) && !s.terminal && index in s.blocks && TextAt(delta, "type") == Some("signature_delta")
    ensures TakesOrThrows(s, index, delta, ChangeThinking(s, index, delta, "signature", world))
  {
    hide TakesText, TakesInput, TakesThinking, Emit, TextAt, TextOr, AddsText, Append;
    var block, text := s.blocks[index], TextAt(delta, "signature");
    if TextAt(block.value, "type") == Some("thinking") && text.Some? {
      AppendAdds(block, "signature", text.value, true);
      var value := Append(block.value, "signature", text.value, true);
      if value.Some? {
        assert s.log + [] == s.log;
        assert Takes(block, delta, index, block.(value := value.value), []);
      }
    }
  }

  /** What a finished block means: text as it has grown; a call with the input its deltas spell, which must be an
      object, or else its first one; reasoning, which must be signed unless it is redacted. */
  ghost predicate Means(block: Block, toolNames: map<string, string>, content: Content, world: World) {
    var kind := TextAt(block.value, "type");
    match content
    case Text(text) => kind == Some("text") && TextAt(block.value, "text") == Some(text)
    case ToolCall(id, name, input) =>
      && kind == Some("tool_use") && TextAt(block.value, "id") == Some(id)
      && TextAt(block.value, "name").Some? && TextAt(block.value, "name").value in toolNames
      && toolNames[TextAt(block.value, "name").value] == name
      && if block.input == [] then At(block.value, "input") == Some(input)
         else world.parse(block.input) == Some(input) && input.Object?
    case Reasoning(thought, provider, continuation) =>
      && kind.Some? && kind.value !in {"text", "tool_use"} && TextOr(block.value, "thinking") == Some(thought)
      && (kind == Some("thinking") ==>
            TextOr(block.value, "signature").Some? && TextOr(block.value, "signature") != Some(""))
      && provider == "anthropic" && continuation == world.dump(block.value)
    case ToolResult(_, _, _) => false
  }

  /** The stop of an open block closes it, and the receiver hears exactly what it means; a block that means nothing
      fails the stream. */
  lemma BlockStopVerdict(s: State, event: Json, index: nat, world: World)
    requires Patient(world) && !s.terminal && At(event, "index") == Some(Integer(index))
    requires index in s.blocks && s.blocks[index].input != [] ==>
      TextAt(s.blocks[index].value, "type") == Some("tool_use")
    ensures var r := Parse(s, event, "content_block_stop", world);
      if !r.thrown then
        && index in s.blocks
        && exists content :: Means(s.blocks[index], s.toolNames, content, world) &&
             r.state == s.(blocks := s.blocks - {index}, log := s.log + [BlockFinished(index, content)])
      else
        && r.state == s.(blocks := s.blocks - {index})
        && !(index in s.blocks && exists content :: Means(s.blocks[index], s.toolNames, content, world))
  {
    hide Emit, Means, Settled, ContentOf;
    assert index !in s.blocks ==> s.blocks - {index} == s.blocks;
    if index in s.blocks {
      MeaningIsContent(s.blocks[index], s.toolNames, world);
      var value := Settled(s.blocks[index], world);
      if value.Some? && ContentOf(value.value, s.toolNames, world).Some? {
        var content := ContentOf(value.value, s.toolNames, world).value;
        PatientEmit(s.(blocks := s.blocks - {index}), BlockFinished(index, content), world);
      }
    }
  }

  lemma MeaningIsContent(block: Block, toolNames: map<string, string>, world: World)
    requires block.input != [] ==> TextAt(block.value, "type") == Some("tool_use")
    ensures forall content :: Means(block, toolNames, content, world) <==>
              Settled(block, world).Some? && ContentOf(Settled(block, world).value, toolNames, world) == Some(content)
  {
    if block.input != [] && block.value.Object? && world.parse(block.input).Some? {
      var value := Object(block.value.members["input" := world.parse(block.input).value]);
      assert forall key :: key != "input" ==> TextAt(value, key) == TextAt(block.value, key);
    }
  }

  /** message_delta is taken between blocks; it may give the stop reason, which must be a known one, and newer
      counts, of which the receiver hears. */
  lemma MessageDeltaVerdict(s: State, event: Json, world: World)
    requires Patient(world) && !s.terminal
    ensures var r := Parse(s, event, "message_delta", world);
      if !s.started || s.blocks != map[] || !Has(event, "delta") then r == Throw(s)
      else
        var delta := event.members["delta"];
        var given := Has(delta, "stop_reason") && !delta.members["stop_reason"].Null?;
        var text := TextAt(delta, "stop_reason");
        if given && !(text.Some? && exists reason :: Spells(text.value, reason)) then r == Throw(s)
        else
          && (if given then r.state.stop.Some? && Spells(text.value, r.state.stop.value) else r.state.stop == s.stop)
          && HearsUsage(s.(stop := r.state.stop), event, r)
  {
    hide ChangeUsage, HearsUsage, StopReasonOf, Spells, TextAt;
    if Has(event, "delta") {
      var delta := event.members["delta"];
      var given := Has(delta, "stop_reason") && !delta.members["stop_reason"].Null?;
      var text := TextAt(delta, "stop_reason");
      if text.Some? {
        ReasonsSpelled(text.value);
      }
      UsageHeard(if given && text.Some? then s.(stop := StopReasonOf(text.value)) else s, event, world);
    }
  }

  /** The receiver hears of new counts, if there are any; counts that are no numbers are refused. */
  ghost predicate HearsUsage(t: State, event: Json, r: Outcome) {
    if !Has(event, "usage") then r == Done(t)
    else if !Countable(event.members["usage"]) then r == Throw(t)
    else
      && r == Done(t.(usage := r.state.usage, log := t.log + [Used(r.state.usage)]))
      && Tallies(event.members["usage"], t.usage, r.state.usage)
  }

  lemma UsageHeard(t: State, event: Json, world: World)
    requires Patient(world) && !t.terminal
    ensures var r := ChangeUsage(t, event, world); HearsUsage(t, event, r) && r.state.stop == t.stop
  {
    hide Emit, Counts, Countable, Tallies;
    if Has(event, "usage") {
      CountsTally(event.members["usage"], t.usage);
      var counts := Counts(event.members["usage"], t.usage);
      if counts.Some? {
        PatientEmit(t.(usage := counts.value), Used(counts.value), world);
      }
    }
  }

  /** message_stop completes a started stream between blocks once its stop reason is known. */
  lemma MessageStopVerdict(s: State, event: Json, world: World)
    requires Patient(world) && !s.terminal
    ensures var r := Parse(s, event, "message_stop", world);
      if s.started && s.stop.Some? && s.blocks == map[]
      then !r.thrown && EndsWith(s, r.state, Completed(s.stop.value)) else r == Throw(s)
  {
  }

  // ---- A whole response ----

  /** What the receiver is told of a response before its message_delta. */
  function Told(r: Response, first: Usage, toolNames: map<string, string>, world: World): seq<Event> {
    [Started(r.id), Used(first)] + AllPartEvents(r.parts, toolNames, world)
  }

  lemma OpeningFed(r: Response, toolNames: map<string, string>, thinkingEnabled: bool, world: World)
    requires Patient(world) && r.id != [] && PartsFit(r.parts, toolNames, thinkingEnabled, world)
    requires Counts(r.usage, Usage(0, 0, 0, 0)).Some?
    ensures var first := Counts(r.usage, Usage(0, 0, 0, 0)).value;
      Feed(Initial(toolNames, thinkingEnabled), [MessageStart(r)] + AllPartValues(r.parts), world) ==
      Done(Initial(toolNames, thinkingEnabled).(
             started := true, usage := first, nextIndex := |r.parts|, callIds := CallIdsOf(r.parts),
             log := Told(r, first, toolNames, world)))
  {
    hide Feed, Counts, MessageStart, Patient, PartsFit, AllPartValues, AllPartEvents, CallIdsOf;
    var s := Initial(toolNames, thinkingEnabled);
    MessageStartFed(s, r, world);
    var s1 := Feed(s, [MessageStart(r)], world).state;
    AllPartsFed(s1, r.parts, world);
    FeedJoin(s, [MessageStart(r)], AllPartValues(r.parts), world);
  }

  /** A stop reason the stream does not know ends it as invalid. */
  lemma UnknownReasonEnds(r: Response, data: seq<string>, toolNames: map<string, string>, thinkingEnabled: bool,
                          world: World)
    requires Patient(world) && r.id != [] && PartsFit(r.parts, toolNames, thinkingEnabled, world)
    requires Counts(r.usage, Usage(0, 0, 0, 0)).Some? && StopReasonOf(r.stopReason).None?
    requires Carries(data, ResponseValues(r), world) && Size(data) <= BYTE_LIMIT
    ensures var first := Counts(r.usage, Usage(0, 0, 0, 0)).value;
      var s := L.Run(Stream(Initial(toolNames, thinkingEnabled), 0), Inputs(data, ResponseValues(r)), world).state;
      && s.terminal && !s.cancelled
      && s.log == Told(r, first, toolNames, world) + [Error("invalid_stream", false)]
  {
    hide Feed, Counts, MessageStart, MessageDelta, Record, Patient, PartsFit, AllPartValues, Told, CallIdsOf,
      StopReasonOf, TextAt, Handle, Inputs, L.Run, Parse;
    var s, values := Stream(Initial(toolNames, thinkingEnabled), 0), ResponseValues(r);
    var opening := [MessageStart(r)] + AllPartValues(r.parts);
    var n := |opening|;
    assert values[..n] == opening && values[n] == MessageDelta(r) && |values| == n + 2;
    OpeningFed(r, toolNames, thinkingEnabled, world);
    forall m | 0 <= m < n
      ensures !Feed(s.state, opening[..m], world).state.terminal
    {
      LiveThroughout(s.state, opening, m, world);
    }
    SizeSnoc(data, n);
    HandledAsFed(s.state, 0, data[..n], opening, world);
    var open := L.Run(s, Inputs(data[..n], opening), world);
    MessageDeltaFields(r);
    StopField();
    LastTwo(s, data, values, n, world);
    UnknownReasonThrows(open.state, r, world);
    HandleVerdict(open, "message_delta", data[n], world);
    SizeSnoc(data, n + 1);
    assert data[..n + 2] == data;
    HandleEnded(Handle(open, "message_delta", data[n], world).stream, data[n + 1], world);
  }

  lemma StopField()
    ensures TextAt(Record("message_stop", map[]), "type") == Some("message_stop")
  {
  }

  /** The last two events. */
  lemma LastTwo(s: Stream, data: seq<string>, values: seq<Json>, n: nat, world: World)
    requires |data| == |values| == n + 2
    requires TextAt(values[n], "type") == Some("message_delta") && TextAt(values[n + 1], "type") == Some("message_stop")
    ensures L.Run(s, Inputs(data, values), world) ==
      Handle(Handle(L.Run(s, Inputs(data[..n], values[..n]), world), "message_delta", data[n], world).stream,
             "message_stop", data[n + 1], world).stream
  {
    hide Inputs, L.Run, Handle, TextAt;
    InputsSnoc(s, data, values, n, world);
    InputsSnoc(s, data, values, n + 1, world);
    assert data[..n + 2] == data && values[..n + 2] == values;
  }

  lemma UnknownReasonThrows(s: State, r: Response, world: World)
    requires StopReasonOf(r.stopReason).None?
    ensures Parse(s, MessageDelta(r), "message_delta", world) == Throw(s)
  {
    hide StopReasonOf, MessageDelta, TextAt, ChangeUsage;
    MessageDeltaFields(r);
  }

  lemma HandleEnded(s: Stream, data: string, world: World)
    requires s.state.terminal
    ensures forall name :: Handle(s, name, data, world).stream == s
  {
  }

  lemma {:induction false} SizeSnoc(data: seq<string>, n: nat)
    requires n < |data|
    ensures Size(data[..n + 1]) == Size(data[..n]) + |data[n]| && Size(data[..n + 1]) <= Size(data)
    decreases |data|
  {
    assert data[..n + 1][..n] == data[..n];
    if n + 1 < |data| {
      var before := data[..|data| - 1];
      assert before[..n + 1] == data[..n + 1] && before[..n] == data[..n];
      SizeSnoc(before, n);
    } else {
      assert data[..n + 1] == data;
    }
  }

  /** One event more. */
  lemma InputsSnoc(s: Stream, data: seq<string>, values: seq<Json>, n: nat, world: World)
    requires n < |data| == |values|
    ensures var kind := TextAt(values[n], "type");
      var name := if kind.Some? then kind.value else [];
      L.Run(s, Inputs(data[..n + 1], values[..n + 1]), world) ==
      Handle(L.Run(s, Inputs(data[..n], values[..n]), world), name, data[n], world).stream
  {
    hide Handle, TextAt;
    assert data[..n + 1][..n] == data[..n] && values[..n + 1][..n] == values[..n];
    var inputs := Inputs(data[..n + 1], values[..n + 1]);
    assert inputs[..|inputs| - 1] == Inputs(data[..n], values[..n]);
  }

  /** What the receiver is told of a well-formed response, by the API's own words: the token counts its members give,
      member by member; exactly its blocks; and the end the stop reason spells, while a reason with another spelling
      completes nothing. */
  lemma ResponseTold(r: Response, data: seq<string>, toolNames: map<string, string>, thinkingEnabled: bool,
                     world: World)
    requires Patient(world) && r.id != [] && PartsFit(r.parts, toolNames, thinkingEnabled, world)
    requires Countable(r.usage) && Countable(r.lastUsage)
    requires Carries(data, ResponseValues(r), world) && Size(data) <= BYTE_LIMIT
    ensures var s := L.Run(Stream(Initial(toolNames, thinkingEnabled), 0), Inputs(data, ResponseValues(r)),
                           world).state;
      && s.terminal && !s.cancelled
      && exists first, last ::
           && Tallies(r.usage, Usage(0, 0, 0, 0), first) && Tallies(r.lastUsage, first, last)
           && EndsAsSpelled(s.log, Told(r, first, toolNames, world), last, r.stopReason)
  {
    hide Counts, Countable, Tallies, StopReasonOf, Spells, PartsFit, Patient, Carries, Inputs, Size, ResponseValues,
      L.Run, AllPartEvents;
    CountsTally(r.usage, Usage(0, 0, 0, 0));
    var first := Counts(r.usage, Usage(0, 0, 0, 0)).value;
    CountsTally(r.lastUsage, first);
    var last := Counts(r.lastUsage, first).value;
    assert Tallies(r.usage, Usage(0, 0, 0, 0), first) && Tallies(r.lastUsage, first, last);
    ReasonsSpelled(r.stopReason);
    if StopReasonOf(r.stopReason).Some? {
      ResponseDelivered(r, data, toolNames, thinkingEnabled, world);
      var reason := StopReasonOf(r.stopReason).value;
      assert Told(r, first, toolNames, world) + [Used(last)] + [Completed(reason)] ==
             Told(r, first, toolNames, world) + [Used(last), Completed(reason)];
    } else {
      UnknownReasonEnds(r, data, toolNames, thinkingEnabled, world);
    }
  }

  /** The log ends with the reason the text spells and the counts before it, or as invalid if it spells none. */
  ghost predicate EndsAsSpelled(log: seq<Event>, told: seq<Event>, last: Usage, text: string) {
    && (forall reason :: Spells(text, reason) ==> log == told + [Used(last), Completed(reason)])
    && ((forall reason :: !Spells(text, reason)) ==> log == told + [Error("invalid_stream", false)])
  }

  /** So the last word is Completed for a reason exactly when the stop reason spells it. */
  lemma CompletedAsSpelled(log: seq<Event>, told: seq<Event>, last: Usage, text: string, reason: StopReason)
    requires EndsAsSpelled(log, told, last, text)
    ensures log != [] && (log[|log| - 1] == Completed(reason) <==> Spells(text, reason))
  {
    hide Spells;
    if forall other :: !Spells(text, other) {
    } else {
      var other :| Spells(text, other);
      ReasonsSpelled(text);
    }
  }
}
