/** The language of the events a MessageStream emits, and the proof that every run stays in it. */
module StreamLanguage {
  import opened Wrappers
  import opened JsonValue
  import opened Transcript
  import opened StreamState

  /** Where a log stands: before the start, between blocks, inside block `index` with the text of its deltas so far,
      finished, or outside the language. */
  datatype Phase =
    | Fresh
    | Between(next: nat)
    | Inside(index: nat, first: Content, text: string)
    | Closed
    | Illegal

  /** What a finished block must contain: its first content combined with the deltas that came in between. */
  predicate Completes(first: Content, text: string, last: Content, world: World) {
    match first
    case Text(start) => last == Text(start + text)
    case ToolCall(id, name, input) =>
      && last.ToolCall? && last.id == id && last.name == name
      && (if text == [] then last.input == input else world.parse(text) == Some(last.input) && last.input.Object?)
    case Reasoning(start, _, _) => last.Reasoning? && last.thought == start + text && last.provider == "anthropic"
    case ToolResult(_, _, _) => false
  }

  function Next(p: Phase, e: Event, world: World): Phase {
    match e
    case Started(_) => if p.Fresh? then Between(0) else Illegal
    case Used(_) => if p.Between? then p else Illegal
    case BlockStarted(i, c) => if p == Between(i) then Inside(i, c, []) else Illegal
    case TextDelta(i, x) =>
      if p.Inside? && p.index == i && p.first.Text? then p.(text := p.text + x) else Illegal
    case ToolInputDelta(i, x) =>
      if p.Inside? && p.index == i && p.first.ToolCall? then p.(text := p.text + x) else Illegal
    case ReasoningDelta(i, x) =>
      if p.Inside? && p.index == i && p.first.Reasoning? then p.(text := p.text + x) else Illegal
    case BlockFinished(i, c) =>
      if p.Inside? && p.index == i && Completes(p.first, p.text, c, world) then Between(i + 1) else Illegal
    case Completed(_) => if p.Between? then Closed else Illegal
    case Error(_, _) => if p.Closed? || p.Illegal? then Illegal else Closed
  }

  function PhaseOf(log: seq<Event>, world: World): Phase {
    if log == [] then Fresh else Next(PhaseOf(log[..|log| - 1], world), log[|log| - 1], world)
  }

  ghost predicate Legal(log: seq<Event>, world: World) {
    !PhaseOf(log, world).Illegal?
  }

  lemma PhaseSnoc(log: seq<Event>, e: Event, world: World)
    ensures PhaseOf(log + [e], world) == Next(PhaseOf(log, world), e, world)
  {
    assert (log + [e])[..|log|] == log;
  }

  // ---- What the language means ----

  predicate Final(e: Event) {
    e.Completed? || e.Error?
  }

  /** A log that ended has exactly one final event, its last; any other legal log has none. */
  lemma {:induction false} OneFinalEvent(log: seq<Event>, world: World)
    requires Legal(log, world)
    ensures PhaseOf(log, world).Closed? ==> log != [] && Final(log[|log| - 1])
    ensures forall i :: 0 <= i < |log| - 1 ==> !Final(log[i])
    ensures !PhaseOf(log, world).Closed? ==> forall i :: 0 <= i < |log| ==> !Final(log[i])
  {
    hide Completes;
    if log != [] {
      OneFinalEvent(log[..|log| - 1], world);
    }
  }

  /** The blocks started, in order. */
  function StartedBlocks(log: seq<Event>): seq<nat> {
    if log == [] then []
    else StartedBlocks(log[..|log| - 1]) + if log[|log| - 1].BlockStarted? then [log[|log| - 1].index] else []
  }

  /** The blocks finished, in order. */
  function FinishedBlocks(log: seq<Event>): seq<nat> {
    if log == [] then []
    else FinishedBlocks(log[..|log| - 1]) + if log[|log| - 1].BlockFinished? then [log[|log| - 1].index] else []
  }

  function UpTo(n: nat): seq<nat> {
    seq(n, i requires 0 <= i < n => i)
  }

  /** Blocks are numbered 0, 1, 2, ... in the order in which they start, a block starts only when the one before it
      has finished, and Started comes first, once. */
  lemma {:induction false} BlocksInOrder(log: seq<Event>, world: World)
    requires Legal(log, world)
    ensures StartedBlocks(log) == UpTo(|StartedBlocks(log)|) && FinishedBlocks(log) == UpTo(|FinishedBlocks(log)|)
    ensures |FinishedBlocks(log)| <= |StartedBlocks(log)| <= |FinishedBlocks(log)| + 1
    ensures match PhaseOf(log, world)
            case Fresh => log == []
            case Between(n) => |StartedBlocks(log)| == |FinishedBlocks(log)| == n
            case Inside(n, _, _) => |StartedBlocks(log)| == n + 1 && |FinishedBlocks(log)| == n
            case _ => true
    ensures forall i :: 0 < i < |log| ==> !log[i].Started?
    ensures log == [] || log[0].Started? || log[0].Error?
  {
    hide Completes;
    if log != [] {
      BlocksInOrder(log[..|log| - 1], world);
    }
  }

  // ---- Every run stays in the language ----

  /** How an open block remembers the content it started with and the deltas it received. */
  ghost predicate Holds(block: Block, first: Content, text: string, toolNames: map<string, string>, world: World) {
    var kind := TextAt(block.value, "type");
    match first
    case Text(start) => kind == Some("text") && TextAt(block.value, "text") == Some(start + text) && block.input == []
    case ToolCall(id, name, input) =>
      && kind == Some("tool_use") && block.input == text
      && ContentOf(block.value, toolNames, world) == Some(first)
    case Reasoning(start, _, _) =>
      && (kind == Some("thinking") || (kind == Some("redacted_thinking") && TextAt(block.value, "data").Some?))
      && TextOr(block.value, "thinking") == Some(start + text) && block.input == []
    case ToolResult(_, _, _) => false
  }

  /** The invariant: the fields agree with where the log stands. */
  ghost predicate Valid(s: State, world: World) {
    var p := PhaseOf(s.log, world);
    if s.terminal then
      s.blocks == map[] && !p.Illegal? && (s.cancelled || p.Closed?)
    else
      && !s.cancelled
      && (if !s.started then p.Fresh? && s.blocks == map[] && s.nextIndex == 0
          else if s.blocks == map[] then p == Between(s.nextIndex)
          else
            && p.Inside? && s.nextIndex == p.index + 1 && s.blocks.Keys == {p.index}
            && Holds(s.blocks[p.index], p.first, p.text, s.toolNames, world))
  }

  lemma InitialValid(toolNames: map<string, string>, thinkingEnabled: bool, world: World)
    ensures Valid(Initial(toolNames, thinkingEnabled), world)
  {
  }

  /** Whatever the receiver does with an event, the stream it leaves is valid if it was without the reaction. */
  lemma DeliverValid(s: State, e: Event, world: World)
    requires !s.cancelled && Valid(s.(log := s.log + [e]), world)
    ensures Valid(Deliver(s, e, world).state, world)
  {
    hide PhaseOf, Holds;
  }

  lemma EmitValid(s: State, e: Event, world: World)
    requires !s.terminal && !s.cancelled && Valid(s.(log := s.log + [e]), world)
    ensures Valid(Emit(s, e, world).state, world)
  {
    hide Valid;
    DeliverValid(s, e, world);
  }

  /** States from which failing leads back into the language, even when the fields are half changed. */
  ghost predicate Recoverable(s: State, world: World) {
    Valid(s, world) || (!s.terminal && !s.cancelled && Legal(s.log, world) && !PhaseOf(s.log, world).Closed?)
  }

  lemma ValidIsOpen(s: State, world: World)
    requires Valid(s, world) && !s.terminal
    ensures !s.cancelled && Legal(s.log, world) && !PhaseOf(s.log, world).Closed?
  {
    hide Holds, PhaseOf;
  }

  lemma FailValid(s: State, code: string, retryable: bool, world: World)
    requires Recoverable(s, world)
    ensures Valid(Fail(s, code, retryable, world).state, world)
    ensures Fail(s, code, retryable, world).state.terminal
  {
    hide PhaseOf, Holds;
    PhaseSnoc(s.log, Error(code, retryable), world);
  }

  /** What every handler of a live stream guarantees. */
  ghost predicate Keeps(outcome: Outcome, world: World) {
    Recoverable(outcome.state, world) && (!outcome.thrown ==> Valid(outcome.state, world))
  }

  lemma StartMessageKeeps(s: State, event: Json, world: World)
    requires Valid(s, world) && !s.terminal
    ensures Keeps(StartMessage(s, event, world), world)
  {
    hide PhaseOf, Holds, Deliver, Counts;
    ValidIsOpen(s, world);
    var message := At(event, "message");
    if !s.started && message.Some? && TextAt(message.value, "id").Some? {
      var id := TextAt(message.value, "id").value;
      var t := s.(started := true);
      PhaseSnoc(t.log, Started(id), world);
      EmitValid(t, Started(id), world);
      var told := Emit(t, Started(id), world);
      if !told.thrown && !told.state.terminal {
        StartedBetween(s, t, id, world);
        forall u: Usage
          ensures Valid(Emit(told.state.(usage := u), Used(u), world).state, world)
        {
          PhaseSnoc(told.state.log, Used(u), world);
          EmitValid(told.state.(usage := u), Used(u), world);
        }
      }
    }
  }

  lemma StartedBetween(s: State, t: State, id: string, world: World)
    requires Valid(s, world) && !s.terminal && !s.started && t == s.(started := true)
    ensures var told := Emit(t, Started(id), world).state;
      !told.terminal ==>
        PhaseOf(told.log, world) == Between(0) && told.blocks == map[] && told.started && told.nextIndex == 0
  {
    hide PhaseOf, Holds;
    PhaseSnoc(s.log, Started(id), world);
  }

  lemma StartBlockKeeps(s: State, event: Json, world: World)
    requires Valid(s, world) && !s.terminal
    ensures Keeps(StartBlock(s, event, world), world)
  {
    hide PhaseOf, Holds, Deliver, ContentOf, BlockFits, NewCall, Count;
    ValidIsOpen(s, world);
    var index, value := Count(event, "index", 0), At(event, "content_block");
    if s.started && s.stop.None? && s.blocks == map[] && index == Some(s.nextIndex) && value.Some?
       && BlockFits(value.value, s.thinkingEnabled, s.callIds)
    {
      var content := ContentOf(value.value, s.toolNames, world);
      if content.Some? {
        FirstForm(value.value, s.thinkingEnabled, s.callIds, s.toolNames, world);
        var block := Block(value.value, []);
        var t := s.(nextIndex := s.nextIndex + 1, callIds := s.callIds + NewCall(value.value),
                    blocks := s.blocks[s.nextIndex := block]);
        PhaseSnoc(s.log, BlockStarted(s.nextIndex, content.value), world);
        assert t.blocks.Keys == {s.nextIndex};
        EmitValid(t, BlockStarted(s.nextIndex, content.value), world);
      }
    }
  }

  lemma FirstForm(value: Json, thinkingEnabled: bool, callIds: set<string>, toolNames: map<string, string>,
                  world: World)
    requires BlockFits(value, thinkingEnabled, callIds) && ContentOf(value, toolNames, world).Some?
    ensures Holds(Block(value, []), ContentOf(value, toolNames, world).value, [], toolNames, world)
  {
    match ContentOf(value, toolNames, world).value
    case Text(start) => assert start + [] == start;
    case Reasoning(start, _, _) => assert start + [] == start;
    case _ =>
  }

  lemma ChangeBlockKeeps(s: State, event: Json, world: World)
    requires Valid(s, world) && !s.terminal
    ensures Keeps(ChangeBlock(s, event, world), world)
  {
    hide PhaseOf, Holds, Deliver, ContentOf, Count, Append, At, TextAt, Valid;
    ValidIsOpen(s, world);
    var index, delta := Count(event, "index", 0), At(event, "delta");
    if index.Some? && index.value in s.blocks && delta.Some? {
      var i, block := index.value, s.blocks[index.value];
      var own, kind := TextAt(block.value, "type"), TextAt(delta.value, "type");
      if kind == Some("text_delta") && own == Some("text") && TextAt(delta.value, "text").Some? {
        var x := TextAt(delta.value, "text").value;
        var value := Append(block.value, "text", x, false);
        if value.Some? {
          Grown(s, i, TextDelta(i, x), block.(value := value.value), world);
        }
      } else if kind == Some("input_json_delta") && own == Some("tool_use")
        && TextAt(delta.value, "partial_json").Some? {
        var x := TextAt(delta.value, "partial_json").value;
        Grown(s, i, ToolInputDelta(i, x), block.(input := block.input + x), world);
      } else if kind == Some("thinking_delta") && own == Some("thinking") && TextAt(delta.value, "thinking").Some? {
        var x := TextAt(delta.value, "thinking").value;
        var value := Append(block.value, "thinking", x, true);
        if value.Some? {
          Grown(s, i, ReasoningDelta(i, x), block.(value := value.value), world);
        }
      } else if kind == Some("signature_delta") && own == Some("thinking") && TextAt(delta.value, "signature").Some? {
        var x := TextAt(delta.value, "signature").value;
        var value := Append(block.value, "signature", x, true);
        if value.Some? {
          Resigned(s, i, block.(value := value.value), world);
        }
      }
    }
  }

  /** A delta that reaches the receiver has been added to its block. */
  ghost predicate Grows(block: Block, e: Event, index: nat, changed: Block) {
    var own := TextAt(block.value, "type");
    match e
    case TextDelta(i, x) =>
      && i == index && own == Some("text") && changed.input == block.input
      && Append(block.value, "text", x, false) == Some(changed.value)
    case ToolInputDelta(i, x) => i == index && own == Some("tool_use") && changed == block.(input := block.input + x)
    case ReasoningDelta(i, x) =>
      && i == index && own == Some("thinking") && changed.input == block.input
      && Append(block.value, "thinking", x, true) == Some(changed.value)
    case _ => false
  }

  ghost predicate Signed(block: Block, changed: Block) {
    && TextAt(block.value, "type") == Some("thinking") && changed.input == block.input
    && exists x :: Append(block.value, "signature", x, true) == Some(changed.value)
  }

  lemma Grown(s: State, i: nat, e: Event, changed: Block, world: World)
    requires Valid(s, world) && !s.terminal && i in s.blocks && Grows(s.blocks[i], e, i, changed)
    ensures Valid(Emit(s.(blocks := s.blocks[i := changed]), e, world).state, world)
  {
    hide PhaseOf, Emit, Holds, Grows;
    ValidIsOpen(s, world);
    var p := PhaseOf(s.log, world);
    PhaseSnoc(s.log, e, world);
    var t := s.(blocks := s.blocks[i := changed]);
    assert t.blocks.Keys == s.blocks.Keys;
    HoldsMore(s.blocks[i], p.first, p.text, i, e, changed, s.toolNames, world);
    EmitValid(t, e, world);
  }

  lemma HoldsMore(block: Block, first: Content, text: string, i: nat, e: Event, changed: Block,
                  toolNames: map<string, string>, world: World)
    requires Holds(block, first, text, toolNames, world) && Grows(block, e, i, changed)
    ensures var p := Inside(i, first, text);
      && Next(p, e, world).Inside? && Next(p, e, world).index == i && Next(p, e, world).first == first
      && Holds(changed, first, Next(p, e, world).text, toolNames, world)
  {
    match first
    case Text(start) =>
      assert start + (text + e.delta) == start + text + e.delta;
    case Reasoning(start, _, _) =>
      assert start + (text + e.delta) == start + text + e.delta;
    case _ =>
  }

  lemma Resigned(s: State, i: nat, changed: Block, world: World)
    requires Valid(s, world) && !s.terminal && i in s.blocks && Signed(s.blocks[i], changed)
    ensures Valid(s.(blocks := s.blocks[i := changed]), world)
  {
    hide PhaseOf;
    assert s.blocks[i := changed].Keys == s.blocks.Keys;
  }

  lemma StopBlockKeeps(s: State, event: Json, world: World)
    requires Valid(s, world) && !s.terminal
    ensures Keeps(StopBlock(s, event, world), world)
  {
    hide PhaseOf, Holds, Deliver, ContentOf, Count, Settled, Completes;
    ValidIsOpen(s, world);
    var index := Count(event, "index", 0);
    if index.Some? && index.value in s.blocks {
      var i, p := index.value, PhaseOf(s.log, world);
      var t, value := s.(blocks := s.blocks - {i}), Settled(s.blocks[i], world);
      if value.Some? && ContentOf(value.value, s.toolNames, world).Some? {
        var content := ContentOf(value.value, s.toolNames, world).value;
        SettledCompletes(s.blocks[i], p.first, p.text, s.toolNames, world);
        PhaseSnoc(s.log, BlockFinished(i, content), world);
        assert t.blocks == map[];
        EmitValid(t, BlockFinished(i, content), world);
      }
    }
  }

  /** A settled block is its first content combined with exactly its deltas. */
  lemma SettledCompletes(block: Block, first: Content, text: string, toolNames: map<string, string>, world: World)
    requires Holds(block, first, text, toolNames, world) && Settled(block, world).Some?
    requires ContentOf(Settled(block, world).value, toolNames, world).Some?
    ensures Completes(first, text, ContentOf(Settled(block, world).value, toolNames, world).value, world)
  {
  }

  lemma ChangeMessageKeeps(s: State, event: Json, world: World)
    requires Valid(s, world) && !s.terminal
    ensures Keeps(ChangeMessage(s, event, world), world)
  {
    hide PhaseOf, Holds, Deliver, Counts, StopReasonOf;
    ValidIsOpen(s, world);
    if s.started && s.blocks == map[] {
      forall u: Usage, stop: Option<StopReason>
        ensures Valid(Emit(s.(stop := stop, usage := u), Used(u), world).state, world)
      {
        PhaseSnoc(s.log, Used(u), world);
        EmitValid(s.(stop := stop, usage := u), Used(u), world);
      }
    }
  }

  lemma StopMessageKeeps(s: State, world: World)
    requires Valid(s, world) && !s.terminal
    ensures Keeps(StopMessage(s, world), world)
  {
    hide PhaseOf, Holds, Deliver;
    ValidIsOpen(s, world);
    if s.started && s.stop.Some? && s.blocks == map[] {
      PhaseSnoc(s.log, Completed(s.stop.value), world);
      DeliverValid(s.(terminal := true), Completed(s.stop.value), world);
    }
  }

  lemma ReportErrorKeeps(s: State, event: Json, world: World)
    requires Valid(s, world) && !s.terminal
    ensures Keeps(ReportError(s, event, world), world)
  {
    hide PhaseOf, Holds, Fail, Valid, Retryable;
    ValidIsOpen(s, world);
    forall code, retryable
      ensures Valid(Fail(s, code, retryable, world).state, world)
    {
      FailValid(s, code, retryable, world);
    }
  }

  lemma ReadKeeps(s: State, name: string, data: string, world: World)
    requires Valid(s, world) && !s.terminal
    ensures Keeps(Read(s, name, data, world), world)
  {
    hide Valid, StartMessage, StartBlock, ChangeBlock, StopBlock, ChangeMessage, StopMessage, ReportError;
    if world.parse(data).Some? {
      var event := world.parse(data).value;
      ReportErrorKeeps(s, event, world);
      StartMessageKeeps(s, event, world);
      StartBlockKeeps(s, event, world);
      ChangeBlockKeeps(s, event, world);
      StopBlockKeeps(s, event, world);
      ChangeMessageKeeps(s, event, world);
      StopMessageKeeps(s, world);
    }
  }

  /** Every event, well-formed or not, keeps the invariant. */
  lemma HandleValid(s: Stream, name: string, data: string, world: World)
    requires Valid(s.state, world)
    ensures Valid(Handle(s, name, data, world).stream.state, world)
  {
    hide Valid, Fail, Read;
    if !s.state.terminal {
      ReadKeeps(s.state, name, data, world);
      FailValid(s.state, "invalid_stream", false, world);
      if Read(s.state, name, data, world).thrown {
        FailValid(Read(s.state, name, data, world).state, "invalid_stream", false, world);
      }
    }
  }

  // ---- Whole runs ----

  datatype Input = Arrived(name: string, data: string) | Finished | Failed(code: string, retryable: bool) | Cancelled

  function Step(s: Stream, input: Input, world: World): Stream {
    match input
    case Arrived(name, data) => Handle(s, name, data, world).stream
    case Finished => s.(state := Finish(s.state, world).state)
    case Failed(code, retryable) => s.(state := Fail(s.state, code, retryable, world).state)
    case Cancelled => s.(state := Cancel(s.state))
  }

  function Run(s: Stream, inputs: seq<Input>, world: World): Stream {
    if inputs == [] then s else Step(Run(s, inputs[..|inputs| - 1], world), inputs[|inputs| - 1], world)
  }

  lemma StepValid(s: Stream, input: Input, world: World)
    requires Valid(s.state, world)
    ensures var t := Step(s, input, world).state;
      && Valid(t, world) && (s.state.terminal ==> t.terminal && t.log == s.state.log)
        && (input.Finished? ==> t.terminal)
  {
    hide PhaseOf, Holds, Read;
    match input
    case Arrived(name, data) => HandleValid(s, name, data, world);
    case Finished => FailValid(s.state, "incomplete_stream", true, world);
    case Failed(code, retryable) => FailValid(s.state, code, retryable, world);
    case Cancelled =>
      if !s.state.terminal {
        ValidIsOpen(s.state, world);
      }
  }

  /** For every input, and whatever the receiver does in its callbacks, the emitted events stay in the language. */
  lemma {:induction false} RunLegal(toolNames: map<string, string>, thinkingEnabled: bool, inputs: seq<Input>,
                                    world: World)
    ensures var t := Run(Stream(Initial(toolNames, thinkingEnabled), 0), inputs, world).state;
      && Valid(t, world) && Legal(t.log, world)
      && (t.terminal && !t.cancelled ==> PhaseOf(t.log, world).Closed?)
      && (Finished in inputs ==> t.terminal)
  {
    hide Valid, Step, PhaseOf;
    var s := Stream(Initial(toolNames, thinkingEnabled), 0);
    if inputs == [] {
      InitialValid(toolNames, thinkingEnabled, world);
    } else {
      var before := inputs[..|inputs| - 1];
      RunLegal(toolNames, thinkingEnabled, before, world);
      StepValid(Run(s, before, world), inputs[|inputs| - 1], world);
      assert inputs == before + [inputs[|inputs| - 1]];
    }
    ValidIsLegal(Run(s, inputs, world).state, world);
  }

  lemma ValidIsLegal(s: State, world: World)
    requires Valid(s, world)
    ensures Legal(s.log, world) && (s.terminal && !s.cancelled ==> PhaseOf(s.log, world).Closed?)
  {
    hide PhaseOf, Holds;
  }

  /** After finish() the receiver has got exactly one final event, as its last, unless it cancelled. */
  lemma {:induction false} FinishedOnce(toolNames: map<string, string>, thinkingEnabled: bool, inputs: seq<Input>,
                                        world: World)
    requires Finished in inputs
    ensures var t := Run(Stream(Initial(toolNames, thinkingEnabled), 0), inputs, world).state;
      t.cancelled || (t.log != [] && forall i :: 0 <= i < |t.log| ==> (Final(t.log[i]) <==> i == |t.log| - 1))
  {
    hide PhaseOf, Run, Valid;
    RunLegal(toolNames, thinkingEnabled, inputs, world);
    OneFinalEvent(Run(Stream(Initial(toolNames, thinkingEnabled), 0), inputs, world).state.log, world);
  }

  // ---- After a stop reason ----

  /** The stop reason stays, and no new block started. */
  ghost predicate NoNewBlock(s: State, t: State) {
    t.stop.Some? && StartedBlocks(t.log) == StartedBlocks(s.log)
  }

  lemma StartedSnoc(log: seq<Event>, e: Event)
    requires !e.BlockStarted?
    ensures StartedBlocks(log + [e]) == StartedBlocks(log)
  {
    assert (log + [e])[..|log|] == log;
  }

  lemma EmitNoBlock(s: State, t: State, e: Event, world: World)
    requires NoNewBlock(s, t) && !e.BlockStarted?
    ensures NoNewBlock(s, Emit(t, e, world).state) && NoNewBlock(s, Deliver(t, e, world).state)
  {
    hide StartedBlocks;
    StartedSnoc(t.log, e);
  }

  lemma AnyNoBlock(s: State, world: World)
    ensures forall t: State, e: Event :: NoNewBlock(s, t) && !e.BlockStarted? ==>
              NoNewBlock(s, Emit(t, e, world).state) && NoNewBlock(s, Deliver(t, e, world).state)
  {
    hide Emit, Deliver, NoNewBlock;
    forall t: State, e: Event | NoNewBlock(s, t) && !e.BlockStarted?
      ensures NoNewBlock(s, Emit(t, e, world).state) && NoNewBlock(s, Deliver(t, e, world).state)
    {
      EmitNoBlock(s, t, e, world);
    }
  }

  lemma StartMessageNoBlock(s: State, event: Json, world: World)
    requires s.stop.Some?
    ensures NoNewBlock(s, StartMessage(s, event, world).state)
  {
    hide Emit, Deliver, StartedBlocks, Append, Settled, ContentOf, Count, Counts, StopReasonOf, BlockFits;
    AnyNoBlock(s, world);
  }

  lemma StartBlockNoBlock(s: State, event: Json, world: World)
    requires s.stop.Some?
    ensures NoNewBlock(s, StartBlock(s, event, world).state)
  {
    hide Emit, Deliver, StartedBlocks, Append, Settled, ContentOf, Count, Counts, StopReasonOf, BlockFits;
    AnyNoBlock(s, world);
  }

  lemma ChangeTextNoBlock(s: State, index: nat, delta: Json, world: World)
    requires s.stop.Some? && index in s.blocks
    ensures NoNewBlock(s, ChangeText(s, index, delta, world).state)
  {
    hide Emit, Deliver, StartedBlocks, Append, TextAt;
    AnyNoBlock(s, world);
  }

  lemma ChangeInputNoBlock(s: State, index: nat, delta: Json, world: World)
    requires s.stop.Some? && index in s.blocks
    ensures NoNewBlock(s, ChangeInput(s, index, delta, world).state)
  {
    hide Emit, Deliver, StartedBlocks, TextAt;
    AnyNoBlock(s, world);
  }

  lemma ChangeThinkingNoBlock(s: State, index: nat, delta: Json, key: string, world: World)
    requires s.stop.Some? && index in s.blocks
    ensures NoNewBlock(s, ChangeThinking(s, index, delta, key, world).state)
  {
    hide Emit, Deliver, StartedBlocks, Append, TextAt;
    AnyNoBlock(s, world);
  }

  lemma ChangeBlockNoBlock(s: State, event: Json, world: World)
    requires s.stop.Some?
    ensures NoNewBlock(s, ChangeBlock(s, event, world).state)
  {
    hide ChangeText, ChangeInput, ChangeThinking, StartedBlocks, Count, At, TextAt;
    var index, delta := Count(event, "index", 0), At(event, "delta");
    if index.Some? && index.value in s.blocks && delta.Some? {
      ChangeTextNoBlock(s, index.value, delta.value, world);
      ChangeInputNoBlock(s, index.value, delta.value, world);
      ChangeThinkingNoBlock(s, index.value, delta.value, "thinking", world);
      ChangeThinkingNoBlock(s, index.value, delta.value, "signature", world);
    }
  }

  lemma StopBlockNoBlock(s: State, event: Json, world: World)
    requires s.stop.Some?
    ensures NoNewBlock(s, StopBlock(s, event, world).state)
  {
    hide Emit, Deliver, StartedBlocks, Append, Settled, ContentOf, Count, Counts, StopReasonOf, BlockFits;
    AnyNoBlock(s, world);
  }

  lemma ChangeMessageNoBlock(s: State, event: Json, world: World)
    requires s.stop.Some?
    ensures NoNewBlock(s, ChangeMessage(s, event, world).state)
  {
    hide Emit, Deliver, StartedBlocks, Append, Settled, ContentOf, Count, Counts, StopReasonOf, BlockFits;
    AnyNoBlock(s, world);
  }

  lemma FailNoBlock(s: State, t: State, code: string, retryable: bool, world: World)
    requires NoNewBlock(s, t)
    ensures NoNewBlock(s, Fail(t, code, retryable, world).state)
  {
    hide StartedBlocks, Deliver;
    EmitNoBlock(s, t.(terminal := true, blocks := map[]), Error(code, retryable), world);
  }

  lemma ParseNoBlock(s: State, event: Json, kind: string, world: World)
    requires s.stop.Some?
    ensures NoNewBlock(s, Parse(s, event, kind, world).state)
  {
    hide Deliver, Fail, StartedBlocks, StartMessage, StartBlock, ChangeBlock, StopBlock, ChangeMessage, Retryable, At,
      TextAt, Has;
    forall code, retryable
      ensures NoNewBlock(s, Fail(s, code, retryable, world).state)
    {
      FailNoBlock(s, s, code, retryable, world);
    }
    EmitNoBlock(s, s.(terminal := true), Completed(s.stop.value), world);
    StartMessageNoBlock(s, event, world);
    StartBlockNoBlock(s, event, world);
    ChangeBlockNoBlock(s, event, world);
    StopBlockNoBlock(s, event, world);
    ChangeMessageNoBlock(s, event, world);
  }

  lemma HandleNoBlock(s: Stream, name: string, data: string, world: World)
    requires s.state.stop.Some?
    ensures NoNewBlock(s.state, Handle(s, name, data, world).stream.state)
  {
    hide Fail, StartedBlocks, Parse, TextAt;
    if world.parse(data).Some? {
      ParseNoBlock(s.state, world.parse(data).value, name, world);
    }
    FailNoBlock(s.state, s.state, "invalid_stream", false, world);
    FailNoBlock(s.state, Read(s.state, name, data, world).state, "invalid_stream", false, world);
  }

  /** A stop reason ends the content: whatever arrives later, no block starts any more. */
  lemma {:induction false} NoBlockAfterStop(s: Stream, inputs: seq<Input>, world: World)
    requires s.state.stop.Some?
    ensures NoNewBlock(s.state, Run(s, inputs, world).state)
  {
    hide StartedBlocks, Handle, Fail;
    if inputs != [] {
      var t, input := Run(s, inputs[..|inputs| - 1], world), inputs[|inputs| - 1];
      NoBlockAfterStop(s, inputs[..|inputs| - 1], world);
      match input
      case Arrived(name, data) => HandleNoBlock(t, name, data, world);
      case Finished => FailNoBlock(s.state, t.state, "incomplete_stream", true, world);
      case Failed(code, retryable) => FailNoBlock(s.state, t.state, code, retryable, world);
      case Cancelled =>
    }
  }
}
