/** Decoding the event stream of the Anthropic Messages API: the state of MessageStream in
    src/ai/providers/anthropic/AnthropicProvider.cpp and what every event does to it. An exception in the original
    is an Outcome whose `thrown` is set. The receiver may cancel the stream or throw inside any callback. */
module StreamState {
  import opened Wrappers
  import opened JsonValue
  import opened Transcript

  const BYTE_LIMIT: nat := 64 * 1024 * 1024

  datatype StopReason = EndTurn | ToolUse | OutputLimit | StopSequence | Refusal | Pause

  datatype Usage = Usage(input: nat, output: nat, cacheRead: nat, cacheWrite: nat)

  datatype Event =
    | Started(id: string)
    | BlockStarted(index: nat, content: Content)
    | TextDelta(index: nat, delta: string)
    | ReasoningDelta(index: nat, delta: string)
    | ToolInputDelta(index: nat, delta: string)
    | BlockFinished(index: nat, content: Content)
    | Used(usage: Usage)
    | Completed(reason: StopReason)
    | Error(code: string, retryable: bool)

  /** What the receiver does when an event reaches it. */
  datatype Reaction = Reaction(cancels: bool, throws: bool)

  /** The parts of the outside world the stream depends on: the JSON text codec, and the receiver, whose reaction
      may depend on everything it has received. */
  datatype World = World(parse: string -> Option<Json>, dump: Json -> string, react: seq<Event> -> Reaction)

  datatype Block = Block(value: Json, input: string)

  /** The fields of MessageStream, but for the byte count. `log` is everything the receiver got, and `cancelled`
      whether cancel() was what ended the stream. */
  datatype State = State(
    toolNames: map<string, string>, thinkingEnabled: bool, blocks: map<nat, Block>, stop: Option<StopReason>,
    callIds: set<string>, usage: Usage, nextIndex: nat, started: bool, terminal: bool,
    cancelled: bool, log: seq<Event>)

  datatype Outcome = Outcome(state: State, thrown: bool)

  function Initial(toolNames: map<string, string>, thinkingEnabled: bool): State {
    State(toolNames, thinkingEnabled, map[], None, {}, Usage(0, 0, 0, 0), 0, false, false, false, [])
  }

  function Done(s: State): Outcome {
    Outcome(s, false)
  }

  function Throw(s: State): Outcome {
    Outcome(s, true)
  }

  function Cancel(s: State): State {
    s.(terminal := true, blocks := map[], cancelled := s.cancelled || !s.terminal)
  }

  /** An event reaches the receiver, which may cancel and may throw. */
  function Deliver(s: State, e: Event, world: World): (r: Outcome)
    ensures s.terminal ==> r.state.terminal
  {
    var t := s.(log := s.log + [e]);
    var reaction := world.react(t.log);
    Outcome(if reaction.cancels then Cancel(t) else t, reaction.throws)
  }

  function Emit(s: State, e: Event, world: World): (r: Outcome)
    ensures s.terminal ==> r.state.terminal
  {
    if s.terminal then Done(s) else Deliver(s, e, world)
  }

  function Fail(s: State, code: string, retryable: bool, world: World): (r: Outcome)
    ensures r.state.terminal
  {
    if s.terminal then Done(s)
    else Deliver(s.(terminal := true, blocks := map[]), Error(code, retryable), world)
  }

  function Finish(s: State, world: World): Outcome {
    Fail(s, "incomplete_stream", true, world)
  }

  /** `count`: an absent member reads as the fallback, anything but a non-negative integer throws. */
  function Count(value: Json, key: string, fallback: nat): Option<nat> {
    if !Has(value, key) then Some(fallback)
    else
      match value.members[key]
      case Integer(n) => if n >= 0 then Some(n) else None
      case _ => None
  }

  function Counts(usage: Json, fallback: Usage): Option<Usage> {
    var input, output := Count(usage, "input_tokens", fallback.input), Count(usage, "output_tokens", fallback.output);
    var cacheRead := Count(usage, "cache_read_input_tokens", fallback.cacheRead);
    var cacheWrite := Count(usage, "cache_creation_input_tokens", fallback.cacheWrite);
    if input.Some? && output.Some? && cacheRead.Some? && cacheWrite.Some?
    then Some(Usage(input.value, output.value, cacheRead.value, cacheWrite.value))
    else None
  }

  function StopReasonOf(reason: string): Option<StopReason> {
    if reason == "end_turn" then Some(EndTurn)
    else if reason == "tool_use" then Some(ToolUse)
    else if reason == "max_tokens" || reason == "model_context_window_exceeded" then Some(OutputLimit)
    else if reason == "stop_sequence" then Some(StopSequence)
    else if reason == "refusal" then Some(Refusal)
    else if reason == "pause_turn" then Some(Pause)
    else None
  }

  /** The neutral content of a block; a tool that was not declared has none. */
  function ContentOf(value: Json, toolNames: map<string, string>, world: World): Option<Content> {
    var kind := TextAt(value, "type");
    if kind == Some("text") then
      var text := TextAt(value, "text");
      if text.Some? then Some(Text(text.value)) else None
    else if kind == Some("tool_use") then
      var wire, id, input := TextAt(value, "name"), TextAt(value, "id"), At(value, "input");
      if wire.Some? && wire.value in toolNames && id.Some? && input.Some?
      then Some(ToolCall(id.value, toolNames[wire.value], input.value))
      else None
    else
      var thought := TextOr(value, "thinking");
      if kind.Some? && thought.Some? then Some(Reasoning(thought.value, "anthropic", world.dump(value))) else None
  }

  /** `value[key] += text` on a member that is a string, or absent when `absent` allows it. */
  function Append(value: Json, key: string, text: string, absent: bool): Option<Json> {
    var prior := if absent then TextOr(value, key) else TextAt(value, key);
    if prior.Some? && value.Object? then Some(Object(value.members[key := String(prior.value + text)])) else None
  }

  function StartMessage(s: State, event: Json, world: World): (r: Outcome)
    ensures s.terminal ==> r.state.terminal
  {
    var message := At(event, "message");
    if s.started || message.None? then Throw(s)
    else
      var id := TextAt(message.value, "id");
      if TextAt(message.value, "role") != Some("assistant") || At(message.value, "content") != Some(Array([]))
         || id.None? || id.value == []
      then Throw(s)
      else
        var told := Emit(s.(started := true), Started(id.value), world);
        if told.thrown || told.state.terminal then told
        else
          var usage := At(message.value, "usage");
          var counts := if usage.Some? then Counts(usage.value, Usage(0, 0, 0, 0)) else None;
          if counts.None? then Throw(told.state)
          else Emit(told.state.(usage := counts.value), Used(counts.value), world)
  }

  /** The demands on the first form of a block, beyond those of ContentOf. */
  predicate BlockFits(value: Json, thinkingEnabled: bool, callIds: set<string>) {
    match TextAt(value, "type")
    case None => false
    case Some(kind) =>
      if kind == "text" then true
      else if kind == "tool_use" then
        var id, input := TextAt(value, "id"), At(value, "input");
        id.Some? && id.value != [] && input.Some? && input.value.Object? && id.value !in callIds
      else if kind == "thinking" then thinkingEnabled
      else kind == "redacted_thinking" && thinkingEnabled && TextAt(value, "data").Some?
  }

  function NewCall(value: Json): set<string> {
    var kind, id := TextAt(value, "type"), TextAt(value, "id");
    if kind == Some("tool_use") && id.Some? then {id.value} else {}
  }

  function StartBlock(s: State, event: Json, world: World): (r: Outcome)
    ensures s.terminal ==> r.state.terminal
  {
    var index, value := Count(event, "index", 0), At(event, "content_block");
    if !s.started || s.stop.Some? || s.blocks != map[] || index != Some(s.nextIndex) then Throw(s)
    else if value.None? || !BlockFits(value.value, s.thinkingEnabled, s.callIds) then Throw(s)
    else
      var t := s.(nextIndex := s.nextIndex + 1, callIds := s.callIds + NewCall(value.value));
      var content := ContentOf(value.value, s.toolNames, world);
      if content.None? then Throw(t)
      else
        Emit(t.(blocks := t.blocks[s.nextIndex := Block(value.value, [])]),
             BlockStarted(s.nextIndex, content.value), world)
  }

  function ChangeText(s: State, index: nat, delta: Json, world: World): (r: Outcome)
    requires index in s.blocks
    ensures s.terminal ==> r.state.terminal
  {
    var block, text := s.blocks[index], TextAt(delta, "text");
    if TextAt(block.value, "type") != Some("text") || text.None? then Throw(s)
    else
      var value := Append(block.value, "text", text.value, false);
      if value.None? then Throw(s)
      else Emit(s.(blocks := s.blocks[index := block.(value := value.value)]), TextDelta(index, text.value), world)
  }

  function ChangeInput(s: State, index: nat, delta: Json, world: World): (r: Outcome)
    requires index in s.blocks
    ensures s.terminal ==> r.state.terminal
  {
    var block, text := s.blocks[index], TextAt(delta, "partial_json");
    if TextAt(block.value, "type") != Some("tool_use") || text.None? then Throw(s)
    else
      var grown := block.(input := block.input + text.value);
      Emit(s.(blocks := s.blocks[index := grown]), ToolInputDelta(index, text.value), world)
  }

  /** Thinking and its signature grow alike, but only thinking is passed on. */
  function ChangeThinking(s: State, index: nat, delta: Json, key: string, world: World): (r: Outcome)
    requires index in s.blocks
    ensures s.terminal ==> r.state.terminal
  {
    var block, text := s.blocks[index], TextAt(delta, key);
    if TextAt(block.value, "type") != Some("thinking") || text.None? then Throw(s)
    else
      var value := Append(block.value, key, text.value, true);
      if value.None? then Throw(s)
      else
        var t := s.(blocks := s.blocks[index := block.(value := value.value)]);
        if key == "thinking" then Emit(t, ReasoningDelta(index, text.value), world) else Done(t)
  }

  function ChangeBlock(s: State, event: Json, world: World): (r: Outcome)
    ensures s.terminal ==> r.state.terminal
  {
    var index, delta := Count(event, "index", 0), At(event, "delta");
    if index.None? || index.value !in s.blocks || delta.None? then Throw(s)
    else
      var kind := TextAt(delta.value, "type");
      if kind == Some("text_delta") then ChangeText(s, index.value, delta.value, world)
      else if kind == Some("input_json_delta") then ChangeInput(s, index.value, delta.value, world)
      else if kind == Some("thinking_delta") then ChangeThinking(s, index.value, delta.value, "thinking", world)
      else if kind == Some("signature_delta") then ChangeThinking(s, index.value, delta.value, "signature", world)
      else Throw(s)
  }

  /** A finished block: collected tool input replaces the first one, and thinking must be signed. */
  function Settled(block: Block, world: World): Option<Json> {
    var value :=
      if block.input == [] then Some(block.value)
      else
        var input := world.parse(block.input);
        if input.None? || !input.value.Object? || !block.value.Object? then None
        else Some(Object(block.value.members["input" := input.value]));
    if value.None? then None
    else if TextAt(value.value, "type") == Some("thinking")
            && (TextOr(value.value, "signature").None? || TextOr(value.value, "signature") == Some("")) then None
    else value
  }

  function StopBlock(s: State, event: Json, world: World): (r: Outcome)
    ensures s.terminal ==> r.state.terminal
  {
    var index := Count(event, "index", 0);
    if index.None? || index.value !in s.blocks then Throw(s)
    else
      var t := s.(blocks := s.blocks - {index.value});
      var value := Settled(s.blocks[index.value], world);
      var content := if value.Some? then ContentOf(value.value, s.toolNames, world) else None;
      if content.None? then Throw(t) else Emit(t, BlockFinished(index.value, content.value), world)
  }

  function ChangeMessage(s: State, event: Json, world: World): (r: Outcome)
    ensures s.terminal ==> r.state.terminal
  {
    var delta := At(event, "delta");
    if !s.started || s.blocks != map[] || delta.None? then Throw(s)
    else
      var given := Has(delta.value, "stop_reason") && !delta.value.members["stop_reason"].Null?;
      var text := TextAt(delta.value, "stop_reason");
      var reason := if text.Some? then StopReasonOf(text.value) else None;
      if given && reason.None? then Throw(s)
      else
        ChangeUsage(if given then s.(stop := reason) else s, event, world)
  }

  function ChangeUsage(s: State, event: Json, world: World): (r: Outcome)
    ensures s.terminal ==> r.state.terminal
  {
    if !Has(event, "usage") then Done(s)
    else
      var counts := Counts(event.members["usage"], s.usage);
      if counts.None? then Throw(s) else Emit(s.(usage := counts.value), Used(counts.value), world)
  }

  function StopMessage(s: State, world: World): (r: Outcome)
    ensures s.terminal ==> r.state.terminal
  {
    if !s.started || s.stop.None? || s.blocks != map[] then Throw(s)
    else Deliver(s.(terminal := true), Completed(s.stop.value), world)
  }

  predicate Retryable(code: string) {
    code == "overloaded_error" || code == "rate_limit_error" || code == "api_error"
  }

  function ReportError(s: State, event: Json, world: World): (r: Outcome)
    ensures s.terminal ==> r.state.terminal
  {
    var error := At(event, "error");
    if error.None? then Throw(s)
    else
      var code, message := TextAt(error.value, "type"), TextAt(error.value, "message");
      if code.None? || message.None? then Throw(s) else Fail(s, code.value, Retryable(code.value), world)
  }

  const CONTENT_BLOCK := "content_block_"

  function Parse(s: State, event: Json, kind: string, world: World): (r: Outcome)
    ensures s.terminal ==> r.state.terminal
  {
    if CONTENT_BLOCK <= kind && !Has(event, "index") then Throw(s)
    else if kind == "ping" then Done(s)
    else if kind == "error" then ReportError(s, event, world)
    else if kind == "message_start" then StartMessage(s, event, world)
    else if kind == "content_block_start" then StartBlock(s, event, world)
    else if kind == "content_block_delta" then ChangeBlock(s, event, world)
    else if kind == "content_block_stop" then StopBlock(s, event, world)
    else if kind == "message_delta" then ChangeMessage(s, event, world)
    else if kind == "message_stop" then StopMessage(s, world)
    else Done(s)
  }

  function Read(s: State, name: string, data: string, world: World): Outcome {
    var value := world.parse(data);
    if value.None? || TextAt(value.value, "type") != Some(name) then Throw(s) else Parse(s, value.value, name, world)
  }

  /** The whole object: its state and the bytes it has taken. */
  datatype Stream = Stream(state: State, bytes: nat)

  datatype Handled = Handled(stream: Stream, thrown: bool)

  /** One server-sent event. Whatever is wrong with it ends the stream with an error event; only an exception of
      the receiver's own error handling escapes. */
  function Handle(s: Stream, name: string, data: string, world: World): Handled {
    if s.state.terminal then Handled(s, false)
    else
      var fits := |data| <= BYTE_LIMIT - s.bytes;
      var read := if fits then Read(s.state, name, data, world) else Throw(s.state);
      var outcome := if read.thrown then Fail(read.state, "invalid_stream", false, world) else read;
      Handled(Stream(outcome.state, if fits then s.bytes + |data| else s.bytes), outcome.thrown)
  }
}
