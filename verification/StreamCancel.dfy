/** Cancelling: once the receiver cancels, inside a callback or from outside, it hears nothing more, whatever still
    arrives. */
module StreamCancel {
  import opened Wrappers
  import opened JsonValue
  import opened Transcript
  import opened StreamState
  import L = StreamLanguage

  /** The receiver did not cancel on any event but the last, and on the last only if the stream has ended. */
  ghost predicate Heeds(s: State, world: World) {
    && (forall n :: 0 < n < |s.log| ==> !world.react(s.log[..n]).cancels)
    && (s.log != [] && !s.terminal ==> !world.react(s.log).cancels)
  }

  /** A live stream may hand out one more event; the fields besides do not matter. */
  lemma DeliverHeeds(s: State, t: State, e: Event, world: World)
    requires Heeds(s, world) && !s.terminal && t.log == s.log
    ensures Heeds(Deliver(t, e, world).state, world)
  {
    var log := t.log + [e];
    assert log[..|log|] == log;
    forall n | 0 < n < |log|
      ensures !world.react(log[..n]).cancels
    {
      assert log[..n] == s.log[..n];
      assert n == |s.log| ==> s.log[..n] == s.log;
    }
  }

  lemma SameHeeds(s: State, t: State, world: World)
    requires Heeds(s, world) && t.log == s.log && (s.terminal ==> t.terminal)
    ensures Heeds(t, world)
  {
  }

  /** What a handler that starts from a live stream leaves. */
  lemma EmitsHeed(s: State, world: World)
    requires Heeds(s, world) && !s.terminal
    ensures forall t: State, e: Event :: t.log == s.log ==>
              Heeds(Emit(t, e, world).state, world) && Heeds(Deliver(t, e, world).state, world)
    ensures forall t: State :: t.log == s.log ==> Heeds(t, world)
  {
    hide Heeds, Deliver;
    forall t: State | t.log == s.log
      ensures Heeds(t, world)
    {
      SameHeeds(s, t, world);
    }
    forall t: State, e: Event | t.log == s.log
      ensures Heeds(Emit(t, e, world).state, world) && Heeds(Deliver(t, e, world).state, world)
    {
      DeliverHeeds(s, t, e, world);
    }
  }

  lemma FailHeeds(s: State, code: string, retryable: bool, world: World)
    requires Heeds(s, world)
    ensures Heeds(Fail(s, code, retryable, world).state, world)
  {
    hide Heeds, Deliver;
    if !s.terminal {
      EmitsHeed(s, world);
    }
  }

  lemma StartMessageHeeds(s: State, event: Json, world: World)
    requires Heeds(s, world) && !s.terminal
    ensures Heeds(StartMessage(s, event, world).state, world)
  {
    hide Heeds, Emit, Counts, TextAt, At;
    EmitsHeed(s, world);
    var message := At(event, "message");
    if message.Some? && TextAt(message.value, "id").Some? {
      var told := Emit(s.(started := true), Started(TextAt(message.value, "id").value), world);
      if !told.state.terminal {
        EmitsHeed(told.state, world);
      }
    }
  }

  lemma ChangeBlockHeeds(s: State, event: Json, world: World)
    requires Heeds(s, world) && !s.terminal
    ensures Heeds(ChangeBlock(s, event, world).state, world)
  {
    hide Heeds, Emit, Deliver, Append, TextAt, Count, At;
    EmitsHeed(s, world);
  }

  lemma StartBlockHeeds(s: State, event: Json, world: World)
    requires Heeds(s, world) && !s.terminal
    ensures Heeds(StartBlock(s, event, world).state, world)
  {
    hide Heeds, Emit, Deliver, ContentOf, BlockFits, NewCall, Count, At;
    EmitsHeed(s, world);
  }

  lemma StopBlockHeeds(s: State, event: Json, world: World)
    requires Heeds(s, world) && !s.terminal
    ensures Heeds(StopBlock(s, event, world).state, world)
  {
    hide Heeds, Emit, Deliver, ContentOf, Settled, Count;
    EmitsHeed(s, world);
  }

  lemma ChangeMessageHeeds(s: State, event: Json, world: World)
    requires Heeds(s, world) && !s.terminal
    ensures Heeds(ChangeMessage(s, event, world).state, world)
  {
    hide Heeds, Emit, Deliver, StopReasonOf, Counts, TextAt, At;
    EmitsHeed(s, world);
  }

  lemma StopMessageHeeds(s: State, world: World)
    requires Heeds(s, world) && !s.terminal
    ensures Heeds(StopMessage(s, world).state, world)
  {
    hide Heeds, Emit, Deliver;
    EmitsHeed(s, world);
  }

  lemma ParseHeeds(s: State, event: Json, kind: string, world: World)
    requires Heeds(s, world) && !s.terminal
    ensures Heeds(Parse(s, event, kind, world).state, world)
  {
    hide Heeds, StartMessage, StartBlock, ChangeBlock, StopBlock, ChangeMessage, StopMessage, Fail, Retryable, TextAt,
      At, Has;
    StartMessageHeeds(s, event, world);
    ChangeBlockHeeds(s, event, world);
    StartBlockHeeds(s, event, world);
    StopBlockHeeds(s, event, world);
    ChangeMessageHeeds(s, event, world);
    StopMessageHeeds(s, world);
    forall code, retryable
      ensures Heeds(Fail(s, code, retryable, world).state, world)
    {
      FailHeeds(s, code, retryable, world);
    }
  }

  lemma StepHeeds(s: Stream, input: L.Input, world: World)
    requires Heeds(s.state, world)
    ensures Heeds(L.Step(s, input, world).state, world)
  {
    hide Heeds, Parse, Fail, TextAt;
    match input
    case Arrived(name, data) =>
      var value := world.parse(data);
      if !s.state.terminal {
        FailHeeds(s.state, "invalid_stream", false, world);
        if value.Some? {
          ParseHeeds(s.state, value.value, name, world);
          FailHeeds(Parse(s.state, value.value, name, world).state, "invalid_stream", false, world);
        }
      }
    case Finished => FailHeeds(s.state, "incomplete_stream", true, world);
    case Failed(code, retryable) => FailHeeds(s.state, code, retryable, world);
    case Cancelled => SameHeeds(s.state, Cancel(s.state), world);
  }

  /** Over every run, for every input and every receiver: no event follows one on which the receiver cancelled. */
  lemma {:induction false} NoEventAfterCancel(toolNames: map<string, string>, thinkingEnabled: bool,
                                              inputs: seq<L.Input>, world: World)
    ensures Heeds(L.Run(Stream(Initial(toolNames, thinkingEnabled), 0), inputs, world).state, world)
  {
    hide Heeds, L.Step;
    if inputs == [] {
      NothingYet(toolNames, thinkingEnabled, world);
    } else {
      var before := inputs[..|inputs| - 1];
      NoEventAfterCancel(toolNames, thinkingEnabled, before, world);
      StepHeeds(L.Run(Stream(Initial(toolNames, thinkingEnabled), 0), before, world), inputs[|inputs| - 1], world);
    }
  }

  lemma NothingYet(toolNames: map<string, string>, thinkingEnabled: bool, world: World)
    ensures Heeds(Initial(toolNames, thinkingEnabled), world)
  {
  }

  /** Cancelled from outside, the stream gives up its open block and stays silent, whatever arrives. */
  lemma {:induction false} CancelledIsSilent(s: Stream, inputs: seq<L.Input>, world: World)
    ensures var t := L.Run(s, [L.Cancelled] + inputs, world).state;
      t.terminal && t.log == s.state.log && t.blocks == map[]
  {
    hide Parse, Deliver;
    var all := [L.Cancelled] + inputs;
    if inputs == [] {
      assert all[..0] == [];
      assert L.Run(s, [], world) == s;
    } else {
      assert all[..|all| - 1] == [L.Cancelled] + inputs[..|inputs| - 1];
      CancelledIsSilent(s, inputs[..|inputs| - 1], world);
    }
  }
}
