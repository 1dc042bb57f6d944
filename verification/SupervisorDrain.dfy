/** The fleet supervisor's coalescing drain: a signal that finds a drain under way only asks
    it to read the command queue once more. */
module SupervisorDrain {

  type Command = nat

  /** `active` counts the drain loops suspended in their await of the commands they read.
      History: every command enqueued, how many signals were heard before shutdown, how
      many of them had been heard when the queue was last read, and how many commands had
      been enqueued by the last signal heard. */
  datatype State = State(
    shuttingDown: bool, draining: bool, drainAgain: bool, active: nat,
    queue: seq<Command>, handedOver: seq<Command>,
    enqueued: seq<Command>, heard: nat, readSince: nat, signalled: nat)

  datatype Event =
    | Enqueue(command: Command)
    | Hangup
    | Terminate
    | CommandsDone
    | CommandsThrow

  const START := State(false, false, false, 0, [], [], [], 0, 0, 0)

  /** The do-while loop from its top: it reads the queue, and suspends if it found commands. */
  function ReadQueue(s: State): State {
    var s1 := s.(drainAgain := false, queue := [], handedOver := s.handedOver + s.queue, readSince := s.heard);
    if s.queue != [] then s1.(active := s.active + 1) else s1.(draining := false)
  }

  function OnHangup(s: State): State {
    if s.shuttingDown then s
    else
      var s1 := s.(heard := s.heard + 1, signalled := |s.enqueued|);
      if s.draining then s1.(drainAgain := true) else ReadQueue(s1.(draining := true))
  }

  function OnCommandsDone(s: State): State {
    if s.active == 0 then s
    else if s.drainAgain then ReadQueue(s.(active := s.active - 1))
    else s.(active := s.active - 1, draining := false)
  }

  /** drainCommands throws: the finally clause ends the drain, whatever was asked of it. */
  function OnCommandsThrow(s: State): State {
    if s.active == 0 then s else s.(active := s.active - 1, draining := false)
  }

  function Step(s: State, e: Event): State {
    match e
    case Enqueue(command) => s.(queue := s.queue + [command], enqueued := s.enqueued + [command])
    case Hangup => OnHangup(s)
    case Terminate => s.(shuttingDown := true)
    case CommandsDone => OnCommandsDone(s)
    case CommandsThrow => OnCommandsThrow(s)
  }

  function Run(s: State, events: seq<Event>): State
    decreases |events|
  {
    if events == [] then s else Run(Step(s, events[0]), events[1..])
  }

  // ---- The closure variables and handlers --------------------------------------------------

  class Supervisor {
    var shuttingDown: bool
    var draining: bool
    var drainAgain: bool
    /** Drain loops suspended in their await. */
    var active: nat
    var queue: seq<Command>
    var handedOver: seq<Command>
    ghost var enqueued: seq<Command>
    ghost var heard: nat
    ghost var readSince: nat
    ghost var signalled: nat

    ghost function View(): State
      reads this
    {
      State(shuttingDown, draining, drainAgain, active, queue, handedOver, enqueued, heard, readSince, signalled)
    }

    constructor ()
      ensures View() == START
    {
      shuttingDown, draining, drainAgain, active, queue, handedOver := false, false, false, 0, [], [];
      enqueued, heard, readSince, signalled := [], 0, 0, 0;
    }

    method EnqueueCommand(command: Command)
      modifies this
      ensures View() == Step(old(View()), Enqueue(command))
    {
      queue := queue + [command];
      enqueued := enqueued + [command];
    }

    /** drainFleetCommands: takes everything queued. */
    method TakeCommands() returns (commands: seq<Command>)
      modifies this`queue, this`handedOver, this`readSince
      ensures commands == old(queue)
      ensures View() == old(View()).(queue := [], handedOver := old(handedOver) + old(queue), readSince := heard)
    {
      commands := queue;
      handedOver := handedOver + queue;
      queue := [];
      readSince := heard;
    }

    /** The do-while loop, up to its await or its end. */
    method DrainLoop()
      modifies this
      ensures View() == ReadQueue(old(View()))
    {
      var again := true;
      while again
        invariant again ==> View() == old(View())
        invariant !again ==> View() == ReadQueue(old(View())).(draining := old(draining)) && old(queue) == []
        decreases again
      {
        drainAgain := false;
        var commands := TakeCommands();
        if |commands| > 0 {
          active := active + 1;
          return;
        }
        again := drainAgain;
      }
      draining := false;
    }

    method OnSighup()
      modifies this
      ensures View() == OnHangup(old(View()))
    {
      if shuttingDown { return; }
      heard := heard + 1;
      signalled := |enqueued|;
      if draining {
        drainAgain := true;
        return;
      }
      draining := true;
      DrainLoop();
    }

    method OnDrained()
      modifies this
      ensures View() == OnCommandsDone(old(View()))
    {
      if active == 0 { return; }
      active := active - 1;
      if drainAgain { DrainLoop(); } else { draining := false; }
    }

    method OnDrainFailed()
      modifies this
      ensures View() == OnCommandsThrow(old(View()))
    {
      if active == 0 { return; }
      active := active - 1;
      draining := false;
    }

    method Shutdown()
      modifies this`shuttingDown
      ensures View() == Step(old(View()), Terminate)
    {
      shuttingDown := true;
    }
  }

  // ---- What every run keeps ------------------------------------------------------------------

  predicate Pending(s: State) {
    s.draining && s.drainAgain
  }

  /** Commands leave the queue once each, in order; at most one drain is under way; and what
      the last signal announced has been read, or will be when that drain resumes. */
  predicate Sound(s: State) {
    && s.handedOver + s.queue == s.enqueued
    && s.active == (if s.draining then 1 else 0)
    && s.readSince <= s.heard
    && s.signalled <= |s.enqueued|
    && (if Pending(s) then s.readSince < s.heard else s.readSince == s.heard && |s.handedOver| >= s.signalled)
  }

  /** A drain fails although another signal came in while it ran. */
  predicate LosesSignal(s: State, e: Event) {
    e.CommandsThrow? && s.active > 0 && s.drainAgain
  }

  lemma ReadQueueSound(s: State)
    requires s.handedOver + s.queue == s.enqueued && s.draining && s.active == 0 && s.signalled <= |s.enqueued|
    ensures Sound(ReadQueue(s))
    ensures var s' := ReadQueue(s); s'.readSince == s'.heard && s'.handedOver == s'.enqueued
  {}

  lemma StepSound(s: State, e: Event)
    requires Sound(s) && !LosesSignal(s, e)
    ensures Sound(Step(s, e))
  {
    match e {
      case Enqueue(command) =>
        assert s.handedOver + (s.queue + [command]) == (s.handedOver + s.queue) + [command];
      case Hangup =>
        if !s.shuttingDown && !s.draining {
          ReadQueueSound(s.(heard := s.heard + 1, signalled := |s.enqueued|, draining := true));
        }
      case CommandsDone => if s.active > 0 && s.drainAgain { ReadQueueSound(s.(active := s.active - 1)); }
      case CommandsThrow => ThrowSound(s);
      case Terminate =>
    }
  }

  lemma ThrowSound(s: State)
    requires Sound(s) && !LosesSignal(s, CommandsThrow)
    ensures Sound(OnCommandsThrow(s))
  {}

  predicate NoSignalLost(s: State, events: seq<Event>)
    decreases |events|
  {
    events == [] || (!LosesSignal(s, events[0]) && NoSignalLost(Step(s, events[0]), events[1..]))
  }

  lemma {:induction false} RunSound(s: State, events: seq<Event>)
    requires Sound(s) && NoSignalLost(s, events)
    ensures Sound(Run(s, events))
    decreases |events|
  {
    if events != [] {
      StepSound(s, events[0]);
      RunSound(Step(s, events[0]), events[1..]);
    }
  }

  // ---- What the supervisor promises -----------------------------------------------------------

  /** However signals, commands and drains interleave: drains never overlap, every command is
      handed over once and in order, and whenever no drain is under way each signal heard has
      been followed by a read of the queue, which took every command it announced. */
  lemma EverySignalIsRead(events: seq<Event>)
    requires NoSignalLost(START, events)
    ensures var s := Run(START, events);
            && s.active <= 1 && s.signalled <= |s.enqueued|
            && s.handedOver + s.queue == s.enqueued
            && (s.active == 0 ==> s.readSince == s.heard && s.enqueued[..s.signalled] <= s.handedOver)
  {
    RunSound(START, events);
    var s := Run(START, events);
    if s.active == 0 { assert s.enqueued[..s.signalled] == s.handedOver[..s.signalled]; }
  }

  /** A signal heard during a drain is served as soon as that drain resumes. */
  lemma ResumedDrainReads(s: State)
    requires Sound(s) && Pending(s)
    ensures var s' := Step(s, CommandsDone);
            s'.readSince == s'.heard && s'.queue == [] && s'.handedOver == s'.enqueued
  {
    ReadQueueSound(s.(active := s.active - 1));
  }

  /** A drain that throws breaks the promise exactly if another signal came in while it ran:
      that signal is then neither read nor remembered by any drain. */
  lemma ThrowLosesExactly(s: State)
    requires Sound(s) && s.active > 0
    ensures Sound(Step(s, CommandsThrow)) <==> !s.drainAgain
    ensures s.drainAgain ==>
              var s' := Step(s, CommandsThrow);
              s'.active == 0 && !s'.draining && s'.readSince < s'.heard
  {}

  /** Two signals, the second while the first one's drain runs; the drain throws. */
  const LOSING_RUN: seq<Event> := [Enqueue(7)] + ([Hangup] + ([Enqueue(8)] + ([Hangup] + ([CommandsThrow] + []))))

  lemma RunCons(s: State, e: Event, rest: seq<Event>)
    ensures Run(s, [e] + rest) == Run(Step(s, e), rest)
  {
    assert ([e] + rest)[1..] == rest;
  }

  /** The second signal is lost: no drain is left, and the command it announced was not read. */
  lemma ThrowLosesSignal()
    ensures var s := Run(START, LOSING_RUN);
            && s.heard == 2 && s.readSince == 1
            && s.active == 0 && !s.draining
            && s.queue == [8] && s.handedOver == [7] && s.signalled == 2
  {
    var s1 := START.(queue := [7], enqueued := [7]);
    var s2 := s1.(heard := 1, signalled := 1, readSince := 1, draining := true, active := 1, queue := [], handedOver := [7]);
    var s3 := s2.(queue := [8], enqueued := [7, 8]);
    var s4 := s3.(heard := 2, signalled := 2, drainAgain := true);
    assert Step(START, Enqueue(7)) == s1 && Step(s1, Hangup) == s2 && Step(s2, Enqueue(8)) == s3 && Step(s3, Hangup) == s4;
    RunCons(s4, CommandsThrow, []);
    RunCons(s3, Hangup, [CommandsThrow] + []);
    RunCons(s2, Enqueue(8), [Hangup] + ([CommandsThrow] + []));
    RunCons(s1, Hangup, [Enqueue(8)] + ([Hangup] + ([CommandsThrow] + [])));
    RunCons(START, Enqueue(7), [Hangup] + ([Enqueue(8)] + ([Hangup] + ([CommandsThrow] + []))));
  }

  /** After shutdown no signal is heard and no drain begins. */
  lemma ShutdownStartsNothing(s: State)
    requires s.shuttingDown
    ensures Step(s, Hangup) == s
  {}
}
