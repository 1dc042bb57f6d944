/** Newline framing of a child's output, two ways: the Codex App runner dispatches one line a
    microtask, the dsh runner all complete lines of a chunk at once. */
module LineFraming {
  import opened Prelude

  // ---- Lines of a stream -----------------------------------------------------------------

  function NewlineAt(s: string): Option<nat> {
    if s == "" then None
    else if s[0] == '\n' then Some(0)
    else
      var later := NewlineAt(s[1..]);
      if later.Some? then Some(later.value + 1) else None
  }

  lemma {:induction false} NewlineIsFirst(s: string)
    ensures match NewlineAt(s)
            case None => '\n' !in s
            case Some(k) => k < |s| && s[k] == '\n' && '\n' !in s[..k]
  {
    if s != "" {
      NewlineIsFirst(s[1..]);
      assert s == [s[0]] + s[1..];
      if NewlineAt(s).Some? && NewlineAt(s).value > 0 {
        var k := NewlineAt(s).value;
        assert s[..k] == [s[0]] + s[1..][..k - 1];
      }
    }
  }

  lemma {:induction false} NewlineIsUnique(s: string, k: nat)
    requires k < |s| && s[k] == '\n' && '\n' !in s[..k]
    ensures NewlineAt(s) == Some(k)
  {
    if k > 0 {
      assert s[..k] == [s[0]] + s[1..][..k - 1];
      NewlineIsUnique(s[1..], k - 1);
    }
  }

  predicate HasLine(s: string) {
    NewlineAt(s).Some? && NewlineAt(s).value < |s|
  }

  function Head(s: string): string
    requires HasLine(s)
  {
    s[..NewlineAt(s).value]
  }

  function Tail(s: string): string
    requires HasLine(s)
  {
    s[NewlineAt(s).value + 1..]
  }

  /** What one raw line dispatches: itself, trimmed, unless it is blank. */
  function Dispatch(line: string): seq<string> {
    if Trim(line) == "" then [] else [Trim(line)]
  }

  /** The dispatches of every complete line, in order. */
  function Lines(s: string): seq<string>
    decreases |s|
  {
    if HasLine(s) then Dispatch(Head(s)) + Lines(Tail(s)) else []
  }

  /** What follows the last newline. */
  function Rest(s: string): string
    decreases |s|
  {
    if HasLine(s) then Rest(Tail(s)) else s
  }

  // ---- An independent reading of the same stream --------------------------------------------

  /** The stream is these newline-free lines, each ended by a newline, and a newline-free rest. */
  predicate Splits(s: string, lines: seq<string>, rest: string) {
    && s == Unlines(lines) + rest
    && '\n' !in rest
    && forall i | 0 <= i < |lines| :: '\n' !in lines[i]
  }

  function Unlines(lines: seq<string>): string {
    if lines == [] then "" else lines[0] + "\n" + Unlines(lines[1..])
  }

  function DispatchAll(lines: seq<string>): seq<string> {
    if lines == [] then [] else Dispatch(lines[0]) + DispatchAll(lines[1..])
  }

  /** A line that is all blank dispatches nothing; any other dispatches what is between its blank ends. */
  lemma DispatchIsExact(line: string) returns (before: string, text: string, after: string)
    ensures line == before + text + after && IsBlank(before) && IsBlank(after) && IsTrimmed(text)
    ensures IsBlank(line) <==> text == ""
    ensures Dispatch(line) == if IsBlank(line) then [] else [text]
  {
    before, after := TrimIsExact(line);
    text := Trim(line);
    if text != "" { assert line[|before|] == text[0]; }
  }

  lemma FirstLineOf(line: string, later: string)
    requires '\n' !in line
    ensures var s := line + "\n" + later;
            HasLine(s) && Head(s) == line && Tail(s) == later
  {
    var s := line + "\n" + later;
    assert s[..|line|] == line;
    NewlineIsUnique(s, |line|);
  }

  /** Whatever way a stream splits into lines, the dispatches are those of its lines. */
  lemma {:induction false} LinesAreTheSplit(s: string, lines: seq<string>, rest: string)
    requires Splits(s, lines, rest)
    ensures Lines(s) == DispatchAll(lines) && Rest(s) == rest
    decreases |lines|
  {
    if lines == [] {
      NewlineIsFirst(s);
    } else {
      var later := Unlines(lines[1..]) + rest;
      assert s == lines[0] + "\n" + later;
      FirstLineOf(lines[0], later);
      LinesAreTheSplit(later, lines[1..], rest);
    }
  }

  lemma {:induction false} EveryStreamSplits(s: string) returns (lines: seq<string>)
    ensures Splits(s, lines, Rest(s))
    decreases |s|
  {
    NewlineIsFirst(s);
    if HasLine(s) {
      var later := EveryStreamSplits(Tail(s));
      assert s == Head(s) + "\n" + Tail(s);
      SplitsWithFirst(Head(s), Tail(s), later, Rest(s));
      lines := [Head(s)] + later;
    } else {
      lines := [];
    }
  }

  lemma SplitsWithFirst(line: string, s: string, later: seq<string>, rest: string)
    requires '\n' !in line && Splits(s, later, rest)
    ensures Splits(line + "\n" + s, [line] + later, rest)
  {
    assert ([line] + later)[1..] == later;
    assert line + "\n" + (Unlines(later) + rest) == (line + "\n" + Unlines(later)) + rest;
  }

  /** Reading on: a stream's dispatches are those of its first part, and then those of what
      that part left over with the rest. */
  lemma {:induction false} LinesOfJoin(s: string, t: string)
    ensures Lines(s + t) == Lines(s) + Lines(Rest(s) + t)
    ensures Rest(s + t) == Rest(Rest(s) + t)
    decreases |s|
  {
    if HasLine(s) {
      NewlineIsFirst(s);
      assert s + t == Head(s) + "\n" + (Tail(s) + t);
      FirstLineOf(Head(s), Tail(s) + t);
      LinesOfJoin(Tail(s), t);
    }
  }

  // ---- One line a microtask -------------------------------------------------------------------

  /** `scheduled` counts the steps waiting in the microtask queue; `received` is everything
      the child has written so far. */
  datatype Stepped = Stepped(buffer: string, draining: bool, scheduled: nat, dispatched: seq<string>, received: string)

  datatype Event = Chunk(data: string) | Microtask

  const SILENT := Stepped("", false, 0, [], "")

  function OneStep(f: Stepped): Stepped {
    if !HasLine(f.buffer) then f.(draining := false)
    else
      f.(buffer := Tail(f.buffer), dispatched := f.dispatched + Dispatch(Head(f.buffer)), scheduled := f.scheduled + 1)
  }

  function Step(f: Stepped, e: Event): Stepped {
    match e
    case Chunk(data) =>
      var f1 := f.(buffer := f.buffer + data, received := f.received + data);
      if f.draining then f1 else OneStep(f1.(draining := true))
    case Microtask => if f.scheduled == 0 then f else OneStep(f.(scheduled := f.scheduled - 1))
  }

  function Run(f: Stepped, events: seq<Event>): Stepped
    decreases |events|
  {
    if events == [] then f else Run(Step(f, events[0]), events[1..])
  }

  class AppServerFraming {
    var stdoutBuffer: string
    var stdoutDraining: bool
    /** Steps handed to queueMicrotask and not run yet. */
    var scheduled: nat
    var dispatched: seq<string>
    ghost var received: string

    ghost function View(): Stepped
      reads this
    {
      Stepped(stdoutBuffer, stdoutDraining, scheduled, dispatched, received)
    }

    constructor ()
      ensures View() == SILENT
    {
      stdoutBuffer, stdoutDraining, scheduled, dispatched, received := "", false, 0, [], "";
    }

    method IndexOfNewline() returns (nl: int)
      ensures nl < 0 <==> !HasLine(stdoutBuffer)
      ensures nl >= 0 ==> HasLine(stdoutBuffer) && nl == NewlineAt(stdoutBuffer).value
    {
      NewlineIsFirst(stdoutBuffer);
      nl := 0;
      while nl < |stdoutBuffer|
        invariant 0 <= nl <= |stdoutBuffer|
        invariant '\n' !in stdoutBuffer[..nl]
      {
        if stdoutBuffer[nl] == '\n' {
          NewlineIsUnique(stdoutBuffer, nl);
          return nl;
        }
        assert stdoutBuffer[..nl + 1] == stdoutBuffer[..nl] + [stdoutBuffer[nl]];
        nl := nl + 1;
      }
      assert stdoutBuffer[..nl] == stdoutBuffer;
      return -1;
    }

    method StepOnce()
      modifies this`stdoutBuffer, this`stdoutDraining, this`dispatched, this`scheduled
      ensures View() == OneStep(old(View()))
    {
      var nl := IndexOfNewline();
      if nl < 0 {
        stdoutDraining := false;
        return;
      }
      var line := Trim(stdoutBuffer[..nl]);
      stdoutBuffer := stdoutBuffer[nl + 1..];
      if line != "" { dispatched := dispatched + [line]; }
      scheduled := scheduled + 1;
    }

    method OnStdout(data: string)
      modifies this
      ensures View() == Step(old(View()), Chunk(data))
    {
      stdoutBuffer := stdoutBuffer + data;
      received := received + data;
      if stdoutDraining { return; }
      stdoutDraining := true;
      StepOnce();
    }

    method RunMicrotask()
      modifies this
      ensures View() == Step(old(View()), Microtask)
    {
      if scheduled == 0 { return; }
      scheduled := scheduled - 1;
      StepOnce();
    }
  }

  /** One drain at a time: it is on exactly while its one next step is scheduled; and what was
      dispatched, with what the buffer still spells, is what the whole stream spells. */
  predicate Sound(f: Stepped) {
    && f.scheduled == (if f.draining then 1 else 0)
    && f.dispatched + Lines(f.buffer) == Lines(f.received)
    && Rest(f.buffer) == Rest(f.received)
    && (!f.draining ==> !HasLine(f.buffer))
  }

  lemma OneStepSound(f: Stepped)
    requires f.draining && f.scheduled == 0
    requires f.dispatched + Lines(f.buffer) == Lines(f.received) && Rest(f.buffer) == Rest(f.received)
    ensures Sound(OneStep(f))
  {}

  lemma ChunkKeeps(dispatched: seq<string>, buffer: string, received: string, data: string)
    requires dispatched + Lines(buffer) == Lines(received) && Rest(buffer) == Rest(received)
    ensures dispatched + Lines(buffer + data) == Lines(received + data)
    ensures Rest(buffer + data) == Rest(received + data)
  {
    LinesOfJoin(buffer, data);
    LinesOfJoin(received, data);
    Regroup(dispatched, Lines(buffer), Lines(Rest(buffer) + data));
  }

  lemma Regroup(a: seq<string>, b: seq<string>, c: seq<string>)
    ensures a + (b + c) == (a + b) + c
  {}

  lemma StepSound(f: Stepped, e: Event)
    requires Sound(f)
    ensures Sound(Step(f, e))
  {
    match e {
      case Chunk(data) =>
        ChunkKeeps(f.dispatched, f.buffer, f.received, data);
        if !f.draining {
          OneStepSound(f.(buffer := f.buffer + data, received := f.received + data, draining := true));
        }
      case Microtask => if f.scheduled > 0 { OneStepSound(f.(scheduled := f.scheduled - 1)); }
    }
  }

  lemma {:induction false} RunSound(f: Stepped, events: seq<Event>)
    requires Sound(f)
    ensures Sound(Run(f, events)) && Run(f, events).received == f.received + Written(events)
    decreases |events|
  {
    if events != [] {
      StepSound(f, events[0]);
      RunSound(Step(f, events[0]), events[1..]);
      StepReceives(f, events[0], Written(events[1..]));
    }
  }

  lemma StepReceives(f: Stepped, e: Event, later: string)
    ensures Step(f, e).received + later == f.received + ((if e.Chunk? then e.data else "") + later)
  {
    if e.Chunk? {
      assert (f.received + e.data) + later == f.received + (e.data + later);
    } else {
      assert "" + later == later;
    }
  }

  /** Everything the child writes in a run. */
  function Written(events: seq<Event>): string
    decreases |events|
  {
    if events == [] then ""
    else (if events[0].Chunk? then events[0].data else "") + Written(events[1..])
  }

  /** However the stream is cut into chunks and however chunks and microtasks interleave: at
      most one step is ever waiting, the dispatched lines are a prefix of the stream's lines,
      and once no step is waiting they are all of them — no complete line is stranded. */
  lemma FramingIsChunkIndependent(events: seq<Event>)
    ensures var f := Run(SILENT, events);
            && f.scheduled <= 1
            && f.dispatched <= Lines(Written(events))
            && (f.scheduled == 0 ==> f.dispatched == Lines(Written(events)) && f.buffer == Rest(Written(events)))
  {
    RunSound(SILENT, events);
    assert "" + Written(events) == Written(events);
  }

  /** Every run can be brought to rest by microtasks alone. */
  lemma {:induction false} DrainTerminates(f: Stepped) returns (events: seq<Event>)
    requires Sound(f)
    ensures Run(f, events).scheduled == 0 && Written(events) == ""
    decreases |f.buffer|, f.scheduled
  {
    if f.scheduled == 0 {
      events := [];
    } else {
      StepSound(f, Microtask);
      var f1 := Step(f, Microtask);
      var later := DrainTerminates(f1);
      events := [Microtask] + later;
      assert events[1..] == later;
    }
  }

  // ---- All complete lines of a chunk at once -----------------------------------------------------

  class DshFraming {
    var stdoutBuffer: string
    var dispatched: seq<string>

    constructor ()
      ensures stdoutBuffer == "" && dispatched == []
    {
      stdoutBuffer, dispatched := "", [];
    }

    method HandleStdout(chunk: string)
      modifies this
      ensures dispatched == old(dispatched) + Lines(old(stdoutBuffer) + chunk)
      ensures stdoutBuffer == Rest(old(stdoutBuffer) + chunk)
    {
      stdoutBuffer := stdoutBuffer + chunk;
      while HasLine(stdoutBuffer)
        invariant dispatched + Lines(stdoutBuffer) == old(dispatched) + Lines(old(stdoutBuffer) + chunk)
        invariant Rest(stdoutBuffer) == Rest(old(stdoutBuffer) + chunk)
        decreases |stdoutBuffer|
      {
        var line := Trim(Head(stdoutBuffer));
        stdoutBuffer := Tail(stdoutBuffer);
        if line != "" { dispatched := dispatched + [line]; }
      }
    }
  }

  function Joined(chunks: seq<string>): string {
    if chunks == [] then "" else Joined(chunks[..|chunks| - 1]) + chunks[|chunks| - 1]
  }

  /** Chunk by chunk or all at once, the dsh runner dispatches the same lines. */
  method HandleAll(f: DshFraming, chunks: seq<string>)
    requires f.stdoutBuffer == "" && f.dispatched == []
    modifies f
    ensures f.dispatched == Lines(Joined(chunks)) && f.stdoutBuffer == Rest(Joined(chunks))
  {
    var k := 0;
    while k < |chunks|
      invariant k <= |chunks|
      invariant f.dispatched == Lines(Joined(chunks[..k])) && f.stdoutBuffer == Rest(Joined(chunks[..k]))
    {
      assert chunks[..k + 1][..k] == chunks[..k];
      LinesOfJoin(Joined(chunks[..k]), chunks[k]);
      f.HandleStdout(chunks[k]);
      k := k + 1;
    }
    assert chunks[..k] == chunks;
  }
}
