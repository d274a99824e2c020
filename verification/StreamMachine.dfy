/** The class MessageStream of src/ai/providers/anthropic/AnthropicProvider.cpp, method by method. A method that can
    throw returns `thrown`; the receiver is played by `world.react`, applied to everything it has received. */
module StreamMachine {
  import opened Wrappers
  import opened JsonValue
  import opened Transcript
  import opened StreamState

  class MessageStream {
    const world: World
    const toolNames: map<string, string>
    const thinkingEnabled: bool
    var blocks: map<nat, Block>
    var stop: Option<StopReason>
    var callIds: set<string>
    var usage: Usage
    var nextIndex: nat
    var bytes: nat
    var started: bool
    var terminal: bool
    ghost var cancelled: bool
    var log: seq<Event>

    ghost function Abstract(): State
      reads this
    {
      State(toolNames, thinkingEnabled, blocks, stop, callIds, usage, nextIndex, started, terminal, cancelled, log)
    }

    constructor (world: World, toolNames: map<string, string>, thinkingEnabled: bool)
      ensures this.world == world && Stream(Abstract(), bytes) == Stream(Initial(toolNames, thinkingEnabled), 0)
    {
      this.world, this.toolNames, this.thinkingEnabled := world, toolNames, thinkingEnabled;
      blocks, stop, callIds, usage := map[], None, {}, Usage(0, 0, 0, 0);
      nextIndex, bytes, started, terminal, cancelled, log := 0, 0, false, false, false, [];
    }

    method Cancel()
      modifies this
      ensures Abstract() == StreamState.Cancel(old(Abstract()))
      ensures bytes == old(bytes)
    {
      cancelled := cancelled || !terminal;
      terminal := true;
      blocks := map[];
    }

    /** Calls the receiver. */
    method Deliver(e: Event) returns (thrown: bool)
      modifies this
      ensures Outcome(Abstract(), thrown) == StreamState.Deliver(old(Abstract()), e, world)
      ensures bytes == old(bytes)
    {
      log := log + [e];
      var reaction := world.react(log);
      if reaction.cancels {
        Cancel();
      }
      thrown := reaction.throws;
    }

    method Emit(e: Event) returns (thrown: bool)
      modifies this
      ensures Outcome(Abstract(), thrown) == StreamState.Emit(old(Abstract()), e, world)
      ensures bytes == old(bytes)
    {
      thrown := false;
      if !terminal {
        thrown := Deliver(e);
      }
    }

    method Fail(code: string, retryable: bool) returns (thrown: bool)
      modifies this
      ensures Outcome(Abstract(), thrown) == StreamState.Fail(old(Abstract()), code, retryable, world)
      ensures bytes == old(bytes)
    {
      if terminal {
        return false;
      }
      terminal := true;
      blocks := map[];
      thrown := Deliver(Error(code, retryable));
    }

    method Finish() returns (thrown: bool)
      modifies this
      ensures Outcome(Abstract(), thrown) == StreamState.Finish(old(Abstract()), world)
      ensures bytes == old(bytes)
    {
      thrown := false;
      if !terminal {
        thrown := Fail("incomplete_stream", true);
      }
    }

    /** One server-sent event. */
    method Event(name: string, data: string) returns (thrown: bool)
      modifies this
      ensures Handled(Stream(Abstract(), bytes), thrown) ==
        StreamState.Handle(old(Stream(Abstract(), bytes)), name, data, world)
    {
      hide StreamState.Fail, StreamState.Parse, TextAt;
      if terminal {
        return false;
      }
      var caught := false;
      if |data| > BYTE_LIMIT - bytes {
        caught := true;
      } else {
        bytes := bytes + |data|;
        var value := world.parse(data);
        if value.None? || TextAt(value.value, "type") != Some(name) {
          caught := true;
        } else {
          caught := Parse(value.value, name);
        }
      }
      thrown := false;
      if caught {
        thrown := Fail("invalid_stream", false);
      }
    }

    method Parse(event: Json, kind: string) returns (thrown: bool)
      modifies this
      ensures Outcome(Abstract(), thrown) == StreamState.Parse(old(Abstract()), event, kind, world)
      ensures bytes == old(bytes)
    {
      hide StreamState.Fail, StreamState.Deliver, StreamState.StartMessage, StreamState.StartBlock,
        StreamState.ChangeBlock, StreamState.StopBlock, StreamState.ChangeMessage, TextAt, Retryable;
      if CONTENT_BLOCK <= kind {
        if !Has(event, "index") {
          return true;
        }
      }
      if kind == "ping" {
        return false;
      }
      if kind == "error" {
        var error := At(event, "error");
        if error.None? {
          return true;
        }
        var code, message := TextAt(error.value, "type"), TextAt(error.value, "message");
        if code.None? || message.None? {
          return true;
        }
        thrown := Fail(code.value, Retryable(code.value));
        return;
      }
      if kind == "message_start" {
        thrown := StartMessage(event);
      } else if kind == "content_block_start" {
        thrown := StartBlock(event);
      } else if kind == "content_block_delta" {
        thrown := ChangeBlock(event);
      } else if kind == "content_block_stop" {
        thrown := StopBlock(event);
      } else if kind == "message_delta" {
        thrown := ChangeMessage(event);
      } else if kind == "message_stop" {
        if !started || stop.None? || blocks != map[] {
          return true;
        }
        terminal := true;
        thrown := Deliver(Completed(stop.value));
      } else {
        thrown := false;
      }
    }

    method StartMessage(event: Json) returns (thrown: bool)
      modifies this
      ensures Outcome(Abstract(), thrown) == StreamState.StartMessage(old(Abstract()), event, world)
      ensures bytes == old(bytes)
    {
      hide StreamState.Emit, Counts;
      if started {
        return true;
      }
      var message := At(event, "message");
      if message.None? {
        return true;
      }
      var id := TextAt(message.value, "id");
      if TextAt(message.value, "role") != Some("assistant") || At(message.value, "content") != Some(Array([]))
         || id.None? || id.value == []
      {
        return true;
      }
      started := true;
      thrown := Emit(Started(id.value));
      if thrown || terminal {
        return;
      }
      var given := At(message.value, "usage");
      if given.None? {
        return true;
      }
      var counts := Counts(given.value, Usage(0, 0, 0, 0));
      if counts.None? {
        return true;
      }
      usage := counts.value;
      thrown := Emit(Used(usage));
    }

    method StartBlock(event: Json) returns (thrown: bool)
      modifies this
      ensures Outcome(Abstract(), thrown) == StreamState.StartBlock(old(Abstract()), event, world)
      ensures bytes == old(bytes)
    {
      hide StreamState.Emit, Count, ContentOf, BlockFits, NewCall;
      if !started || stop.Some? || blocks != map[] {
        return true;
      }
      var index, value := Count(event, "index", 0), At(event, "content_block");
      if index != Some(nextIndex) || value.None? || !BlockFits(value.value, thinkingEnabled, callIds) {
        return true;
      }
      nextIndex := nextIndex + 1;
      callIds := callIds + NewCall(value.value);
      var content := ContentOf(value.value, toolNames, world);
      if content.None? {
        return true;
      }
      blocks := blocks[index.value := Block(value.value, [])];
      thrown := Emit(BlockStarted(index.value, content.value));
    }

    method ChangeBlock(event: Json) returns (thrown: bool)
      modifies this
      ensures Outcome(Abstract(), thrown) == StreamState.ChangeBlock(old(Abstract()), event, world)
      ensures bytes == old(bytes)
    {
      hide StreamState.ChangeText, StreamState.ChangeInput, StreamState.ChangeThinking, Count, At, TextAt;
      var index, delta := Count(event, "index", 0), At(event, "delta");
      if index.None? || index.value !in blocks || delta.None? {
        return true;
      }
      var kind := TextAt(delta.value, "type");
      if kind == Some("text_delta") {
        thrown := ChangeText(index.value, delta.value);
      } else if kind == Some("input_json_delta") {
        thrown := ChangeInput(index.value, delta.value);
      } else if kind == Some("thinking_delta") {
        thrown := ChangeThinking(index.value, delta.value, "thinking");
      } else if kind == Some("signature_delta") {
        thrown := ChangeThinking(index.value, delta.value, "signature");
      } else {
        thrown := true;
      }
    }

    method ChangeText(index: nat, delta: Json) returns (thrown: bool)
      requires index in blocks
      modifies this
      ensures Outcome(Abstract(), thrown) == StreamState.ChangeText(old(Abstract()), index, delta, world)
      ensures bytes == old(bytes)
    {
      hide StreamState.Emit, TextAt, Append;
      var block, text := blocks[index], TextAt(delta, "text");
      if TextAt(block.value, "type") != Some("text") || text.None? {
        return true;
      }
      var value := Append(block.value, "text", text.value, false);
      if value.None? {
        return true;
      }
      blocks := blocks[index := block.(value := value.value)];
      thrown := Emit(TextDelta(index, text.value));
    }

    method ChangeInput(index: nat, delta: Json) returns (thrown: bool)
      requires index in blocks
      modifies this
      ensures Outcome(Abstract(), thrown) == StreamState.ChangeInput(old(Abstract()), index, delta, world)
      ensures bytes == old(bytes)
    {
      hide StreamState.Emit, TextAt;
      var block, text := blocks[index], TextAt(delta, "partial_json");
      if TextAt(block.value, "type") != Some("tool_use") || text.None? {
        return true;
      }
      blocks := blocks[index := block.(input := block.input + text.value)];
      thrown := Emit(ToolInputDelta(index, text.value));
    }

    method ChangeThinking(index: nat, delta: Json, key: string) returns (thrown: bool)
      requires index in blocks
      modifies this
      ensures Outcome(Abstract(), thrown) == StreamState.ChangeThinking(old(Abstract()), index, delta, key, world)
      ensures bytes == old(bytes)
    {
      hide StreamState.Emit, TextAt, Append;
      var block, text := blocks[index], TextAt(delta, key);
      if TextAt(block.value, "type") != Some("thinking") || text.None? {
        return true;
      }
      var value := Append(block.value, key, text.value, true);
      if value.None? {
        return true;
      }
      blocks := blocks[index := block.(value := value.value)];
      thrown := false;
      if key == "thinking" {
        thrown := Emit(ReasoningDelta(index, text.value));
      }
    }

    method StopBlock(event: Json) returns (thrown: bool)
      modifies this
      ensures Outcome(Abstract(), thrown) == StreamState.StopBlock(old(Abstract()), event, world)
      ensures bytes == old(bytes)
    {
      hide StreamState.Emit, Count, ContentOf, Settled;
      var index := Count(event, "index", 0);
      if index.None? || index.value !in blocks {
        return true;
      }
      var block := blocks[index.value];
      blocks := blocks - {index.value};
      var value := Settled(block, world);
      if value.None? {
        return true;
      }
      var content := ContentOf(value.value, toolNames, world);
      if content.None? {
        return true;
      }
      thrown := Emit(BlockFinished(index.value, content.value));
    }

    method ChangeMessage(event: Json) returns (thrown: bool)
      modifies this
      ensures Outcome(Abstract(), thrown) == StreamState.ChangeMessage(old(Abstract()), event, world)
      ensures bytes == old(bytes)
    {
      hide StreamState.Emit, Counts, StopReasonOf;
      if !started || blocks != map[] {
        return true;
      }
      var delta := At(event, "delta");
      if delta.None? {
        return true;
      }
      if Has(delta.value, "stop_reason") && !delta.value.members["stop_reason"].Null? {
        var text := TextAt(delta.value, "stop_reason");
        var reason := if text.Some? then StopReasonOf(text.value) else None;
        if reason.None? {
          return true;
        }
        stop := reason;
      }
      thrown := false;
      if Has(event, "usage") {
        var counts := Counts(event.members["usage"], usage);
        if counts.None? {
          return true;
        }
        usage := counts.value;
        thrown := Emit(Used(usage));
      }
    }
  }
}
