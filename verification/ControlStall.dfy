/** When the control channel can still make progress, and when it is stuck for good: the worker
    rejects a final whose transaction id exceeds its bound each time the runner resends it. */
module ControlStall {
  import opened Prelude
  import opened FinalChunks
  import opened ControlChannel

  // ---- A reconnect catches up with everything readable ------------------------------------------

  /** An accepted connection on which the rest of the log is on its way, with nothing to apply. */
  predicate Reading(c: System) {
    && Sound(c) && Whole(c) && !c.sender.fatal && c.sender.link == Up && c.connection.Some?
    && c.connection.value.waiting.None?
    && Position(c.connection.value) + |c.toWorker| == |c.emitted|
    && (Position(c.connection.value) <= c.highWater ==> c.connection.value.assembly.Idle?)
  }

  /** What catching up leaves alone. */
  predicate SameLog(c: System, c': System) {
    c'.emitted == c.emitted && c'.sender.fatal == c.sender.fatal && c.highWater <= c'.highWater
  }

  function Reconnect(): seq<Event> {
    [RunnerCloses, RunnerConnects, WorkerAccepts]
  }

  lemma {:induction false} RunThree(c: System, a: Event, b: Event, d: Event)
    ensures Run(c, [a, b, d]) == Step(Step(Step(c, a), b), d)
  {
    assert [a, b, d][1..] == [b, d] && [b, d][1..] == [d] && [d][1..] == [];
    assert Run(Step(c, a), [b, d]) == Run(Step(Step(c, a), b), [d]);
    assert Run(Step(Step(c, a), b), [d]) == Run(Step(Step(Step(c, a), b), d), []);
  }

  lemma ReconnectReads(c: System)
    requires Sound(c) && Whole(c) && !c.sender.fatal
    ensures var c' := Run(c, Reconnect()); Reading(c') && SameLog(c, c')
  {
    hide After, Deliveries, Clean, ReadableLength, LogOk, Step, Sound, Whole;
    var c1 := Step(c, RunnerCloses);
    var c2 := Step(c1, RunnerConnects);
    RunThree(c, RunnerCloses, RunnerConnects, WorkerAccepts);
    ReconnectsSender(c);
    StepSound(c, RunnerCloses);
    StepSound(c1, RunnerConnects);
    StepSound(c2, WorkerAccepts);
    FreshConnectionReads(c2);
  }

  lemma ReconnectsSender(c: System)
    requires !c.sender.fatal
    ensures var c2 := Step(Step(c, RunnerCloses), RunnerConnects);
            c2 == c.(sender := c.sender.(link := Connecting, sentThrough := c.sender.acked), toRunner := [])
  {}

  lemma FreshConnectionReads(c: System)
    requires Sound(c) && !c.sender.fatal && c.sender.link == Connecting
    ensures var c' := Step(c, WorkerAccepts);
            && c'.sender.link == Up && c'.connection == Some(Connection(None, c.sender.sentThrough, Assembly.Idle, None))
            && c.sender.sentThrough + |c'.toWorker| == |c.emitted|
            && SameLog(c, c')
  {
    hide After, Deliveries, Clean, ReadableLength, LogOk;
    FlushSends(c.sender.(link := Up), c.emitted);
  }

  /** The events that bring the next readable record to the worker's mind. */
  function ReadOne(c: System): seq<Event> {
    if AwaitsSomething(Step(c, MarkerArrives)) then [MarkerArrives, ApplicationEnds(true)] else [MarkerArrives]
  }

  predicate AwaitsSomething(c: System) {
    c.connection.Some? && c.connection.value.waiting.Some?
  }

  lemma RunOneOrTwo(c: System, e: Event, d: Event)
    ensures Run(c, [e]) == Step(c, e) && Run(c, [e, d]) == Step(Step(c, e), d)
  {
    assert [e][1..] == [] && [e, d][1..] == [d] && [d][1..] == [];
    assert Run(Step(c, e), [d]) == Run(Step(Step(c, e), d), []);
  }

  lemma MarkerReads(c: System)
    requires Reading(c) && Position(c.connection.value) < ReadableLength(c.emitted)
    ensures var c' := OnMarker(c);
            && c'.connection.Some? && SameLog(c, c') && c'.sender == c.sender && c'.highWater == c.highWater
            && Position(c'.connection.value) == Position(c.connection.value) + 1
            && |c'.toWorker| == |c.toWorker| - 1
            && (c'.connection.value.waiting.Some? ==> c'.connection.value.waiting == Some(Position(c'.connection.value)))
            && (Position(c'.connection.value) <= c'.highWater ==>
                  c'.connection.value.waiting.None? && c'.connection.value.assembly.Idle?)
  {
    hide After, Deliveries, Clean, ReadableLength, LogOk;
    ReadNext(c);
    var k := c.connection.value;
    var at := Position(k);
    if at >= c.highWater {
      AssemblyInStep(c);
      ReadInStep(c, at);
    }
  }

  /** The connection's assembler agrees with the log once it reads what is new. */
  lemma AssemblyInStep(c: System)
    requires Reading(c) && Position(c.connection.value) >= c.highWater
    ensures var k := c.connection.value;
            k.assembly == After(c.emitted[..Position(k)]) && Deliveries(c.emitted[..Position(k)]) == c.applied
  {
    hide After, Deliveries, Clean, ReadableLength, LogOk;
  }

  lemma ApplicationReads(c: System)
    requires Sound(c) && c.sender.link == Up && c.connection.Some?
    requires c.connection.value.waiting == Some(Position(c.connection.value))
    ensures var c' := OnApplication(c, true);
            && c'.connection == Some(c.connection.value.(waiting := None))
            && c'.toWorker == c.toWorker && c'.sender == c.sender && c'.emitted == c.emitted
            && c'.highWater == Position(c.connection.value) >= c.highWater
            && (c'.connection.value.assembly == c.connection.value.assembly)
  {
    hide After, Deliveries, Clean, ReadableLength, LogOk;
  }

  /** A record that is applied ends its transaction. */
  lemma AppliedIsIdle(c: System)
    requires Reading(c) && Position(c.connection.value) < ReadableLength(c.emitted)
    requires AwaitsSomething(OnMarker(c))
    ensures OnMarker(c).connection.value.assembly.Idle?
  {
    hide After, Deliveries, Clean, ReadableLength, LogOk;
    ReadNext(c);
    var at := Position(c.connection.value);
    EffectsEndTransactions(c.connection.value.assembly, c.emitted[at]);
  }

  lemma ReadOneReads(c: System)
    requires Reading(c) && Position(c.connection.value) < ReadableLength(c.emitted)
    ensures var c' := Run(c, ReadOne(c));
            && Reading(c') && SameLog(c, c')
            && Position(c'.connection.value) == Position(c.connection.value) + 1
  {
    hide After, Deliveries, Clean, ReadableLength, LogOk, OnMarker, OnApplication;
    var c1 := Step(c, MarkerArrives);
    RunOneOrTwo(c, MarkerArrives, ApplicationEnds(true));
    StepSound(c, MarkerArrives);
    MarkerReads(c);
    if AwaitsSomething(c1) {
      AppliedIsIdle(c);
      StepSound(c1, ApplicationEnds(true));
      ApplicationReads(c1);
    }
  }

  lemma {:induction false} ReadsToTheEnd(c: System) returns (events: seq<Event>)
    requires Reading(c)
    ensures var c' := Run(c, events); Reading(c') && SameLog(c, c')
    ensures Position(Run(c, events).connection.value) == ReadableLength(c.emitted)
    ensures Emissionless(events)
    decreases ReadableLength(c.emitted) - Position(c.connection.value)
  {
    hide After, Deliveries, Clean, ReadableLength, LogOk, ReadOne;
    if Position(c.connection.value) == ReadableLength(c.emitted) {
      events := [];
    } else {
      PositionIsReadable(c);
      ReadOneReads(c);
      ReadOneEmitsNothing(c);
      var rest := ReadsToTheEnd(Run(c, ReadOne(c)));
      events := ReadOne(c) + rest;
      RunSplits(c, ReadOne(c), rest);
    }
  }

  lemma PositionIsReadable(c: System)
    requires Reading(c)
    ensures Position(c.connection.value) <= ReadableLength(c.emitted)
  {
    hide After, Deliveries, Clean, ReadableLength, LogOk;
  }

  /** The runner says nothing new. */
  predicate Emissionless(events: seq<Event>) {
    forall e | e in events :: !e.EmitRecord? && !e.EmitFinal?
  }

  lemma ReadOneEmitsNothing(c: System)
    ensures Emissionless(ReadOne(c))
  {}

  /** Between transactions, what has been read has been acted on. */
  lemma ReadIsApplied(c: System)
    requires Reading(c) && Position(c.connection.value) == ReadableLength(c.emitted)
    ensures c.highWater == ReadableLength(c.emitted)
  {
    var n := ReadableLength(c.emitted);
    if n == |c.emitted| { assert c.emitted[..n] == c.emitted; }
  }

  /** From every state of a live channel there is a way, without a word from the runner, on
      which the worker acts on everything readable. */
  lemma CatchesUp(c: System) returns (events: seq<Event>)
    requires Sound(c) && Whole(c) && !c.sender.fatal
    ensures Emissionless(events)
    ensures Run(c, events).emitted == c.emitted && Run(c, events).highWater == ReadableLength(c.emitted)
  {
    hide After, Deliveries, Clean, ReadableLength, LogOk;
    ReconnectReads(c);
    var rest := ReadsToTheEnd(Run(c, Reconnect()));
    events := Reconnect() + rest;
    RunSplits(c, Reconnect(), rest);
    ReadIsApplied(Run(c, events));
  }

  lemma {:induction false} EmissionlessKeepsLog(c: System, events: seq<Event>)
    requires Sound(c) && Whole(c) && Emissionless(events)
    ensures Run(c, events).emitted == c.emitted && Sound(Run(c, events))
    decreases |events|
  {
    hide After, Deliveries, Clean, ReadableLength, LogOk, Step;
    if events != [] {
      assert events[0] in events;
      QuietStepEmitsNothing(c, events[0]);
      StepSound(c, events[0]);
      assert forall e | e in events[1..] :: e in events;
      EmissionlessKeepsLog(Step(c, events[0]), events[1..]);
    }
  }

  /** The channel can still deliver all that was emitted. */
  ghost predicate CanComplete(c: System) {
    exists events :: Emissionless(events) && Run(c, events).highWater == |c.emitted|
  }

  /** The channel is stuck exactly if it emitted a final whose id does not fit. */
  lemma StallsExactly(events: seq<Event>)
    requires !Run(InitialSystem(), events).sender.fatal
    ensures CanComplete(Run(InitialSystem(), events)) <==> AllReadable(events)
  {
    hide After, Deliveries, Clean, ReadableLength, LogOk, Run;
    var c := Run(InitialSystem(), events);
    StartsSound();
    RunSound(InitialSystem(), events);
    RunIntends(InitialSystem(), events, []);
    if AllReadable(events) {
      var more := CatchesUp(c);
    }
    forall more | Emissionless(more) && Run(c, more).highWater == |c.emitted| ensures AllReadable(events) {
      EmissionlessKeepsLog(c, more);
    }
  }

  // ---- A run that stalls ------------------------------------------------------------------------

  const LONG_ID: FinalId := seq(FINAL_ID_MAX_BYTES + 1, _ => 97)

  /** A final with an id of 513 bytes, an answer of one: nothing is ever acted on again. */
  lemma LongIdStalls(after: seq<Event>)
    ensures var c := Run(InitialSystem(), [EmitFinal(LONG_ID, 0, [104])] + after);
            c.emitted != [] && c.highWater == 0 && c.applied == []
  {
    hide After, Deliveries, Clean, LogOk;
    var e := EmitFinal(LONG_ID, 0, [104]);
    var c := Step(InitialSystem(), e);
    assert Run(InitialSystem(), [e]) == c by {
      assert [e][1..] == [];
    }
    LongFinalIsEmitted();
    StartsSound();
    UnreadableEnds(InitialSystem(), e);
    UnreadableStallsForever([e], after);
    DeliveredOnceInOrder([e] + after);
    assert c.emitted[..0] == [];
    assert Deliveries([]) == [];
  }

  lemma LongFinalIsEmitted()
    ensures !Step(InitialSystem(), EmitFinal(LONG_ID, 0, [104])).sender.fatal
  {
    var content: seq<Byte> := [104];
    assert Content(content) == content && Total(content) == 1;
    var bodies := Transaction(LONG_ID, 0, content);
    assert Fragments(LONG_ID, content, 1) == Fragments(LONG_ID, content, 0) + [Chunk(LONG_ID, 0, Piece(content, 0))];
    assert |bodies| == 3;
    RoomForAll(InitialSystem(), bodies);
  }

  lemma {:induction false} RoomForAll(c: System, bodies: seq<Body>)
    requires !c.sender.fatal && |c.sender.queue| + |bodies| < QUEUE_MAX_RECORDS
    ensures !EmitMany(c, bodies).sender.fatal
    decreases |bodies|
  {
    if bodies != [] { RoomForAll(EmitOne(c, bodies[0]), bodies[1..]); }
  }
}
