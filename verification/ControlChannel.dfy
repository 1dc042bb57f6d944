/** The signed control channel: a go-back-N sender that survives reconnects, the worker that
    reads it, and the two lossy wires between them.

    A record's number is its place in the emitted log, starting at one. Signatures,
    challenges and locators are taken for granted; a connection is up once accepted. */
module ControlChannel {
  import opened Prelude
  import opened FinalChunks

  datatype Marker = Marker(number: nat, body: Body)

  /** Down: no socket. Connecting: a socket, not accepted yet. Up: accepted. */
  datatype Link = Down | Connecting | Up

  datatype Sender = Sender(last: nat, acked: nat, sentThrough: nat, queue: seq<Marker>, fatal: bool, link: Link)

  // ---- The sender -------------------------------------------------------------------------

  function Unsent(queue: seq<Marker>, sentThrough: nat): seq<Marker> {
    if queue == [] then []
    else if queue[0].number <= sentThrough then Unsent(queue[1..], sentThrough)
    else [queue[0]] + Unsent(queue[1..], queue[0].number)
  }

  lemma UnsentFrom(queue: seq<Marker>, k: nat, sentThrough: nat)
    requires k < |queue|
    ensures Unsent(queue[k..], sentThrough)
         == if queue[k].number <= sentThrough then Unsent(queue[k + 1..], sentThrough)
            else [queue[k]] + Unsent(queue[k + 1..], queue[k].number)
  {
    assert queue[k..][0] == queue[k] && queue[k..][1..] == queue[k + 1..];
  }

  lemma UnsentEnds(sentThrough: nat)
    ensures Unsent([], sentThrough) == []
  {}

  function LastSent(sent: seq<Marker>, sentThrough: nat): nat {
    if sent == [] then sentThrough else sent[|sent| - 1].number
  }

  /** flushControlQueue: the sender, and what it writes to the socket. */
  function Flush(s: Sender): (Sender, seq<Marker>) {
    if s.fatal || s.link != Up then (s, [])
    else
      var sent := Unsent(s.queue, s.sentThrough);
      (s.(sentThrough := LastSent(sent, s.sentThrough)), sent)
  }

  function Emit(s: Sender, body: Body): (Sender, seq<Marker>) {
    if |s.queue| >= QUEUE_MAX_RECORDS then (s.(fatal := true), [])
    else Flush(s.(last := s.last + 1, queue := s.queue + [Marker(s.last + 1, body)]))
  }

  /** connectControlSocket: whatever was not acknowledged will be written again. */
  function Connect(s: Sender): Sender {
    if s.fatal || s.link != Down then s else s.(link := Connecting, sentThrough := s.acked)
  }

  function Accept(s: Sender): (Sender, seq<Marker>) {
    if s.link != Connecting then (s, []) else Flush(s.(link := Up))
  }

  function DropThrough(queue: seq<Marker>, acked: nat): seq<Marker> {
    if queue != [] && queue[0].number <= acked then DropThrough(queue[1..], acked) else queue
  }

  /** An acknowledgement on an accepted connection; one out of range destroys the socket. */
  function Acknowledge(s: Sender, number: nat): Sender {
    if s.link != Up || number == 0 || number > s.sentThrough then s.(link := Down)
    else
      var acked := if number > s.acked then number else s.acked;
      s.(acked := acked, queue := DropThrough(s.queue, acked))
  }

  class ControlSender {
    var last: nat
    var acked: nat
    var sentThrough: nat
    var queue: seq<Marker>
    var fatal: bool
    var link: Link
    /** Everything written to the current socket. */
    var written: seq<Marker>

    function View(): Sender
      reads this
    {
      Sender(last, acked, sentThrough, queue, fatal, link)
    }

    constructor ()
      ensures View() == Sender(0, 0, 0, [], false, Down) && written == []
    {
      last, acked, sentThrough, queue, fatal, link, written := 0, 0, 0, [], false, Down, [];
    }

    method FlushControlQueue()
      modifies this`sentThrough, this`written
      ensures View() == Flush(old(View())).0 && written == old(written) + Flush(old(View())).1
    {
      if fatal || link != Up { return; }
      hide Unsent;
      var k := 0;
      ghost var sent := [];
      while k < |queue|
        invariant k <= |queue|
        invariant written == old(written) + sent
        invariant sentThrough == LastSent(sent, old(sentThrough))
        invariant sent + Unsent(queue[k..], sentThrough) == Unsent(queue, old(sentThrough))
      {
        UnsentFrom(queue, k, sentThrough);
        if queue[k].number > sentThrough {
          assert sent + ([queue[k]] + Unsent(queue[k + 1..], queue[k].number))
              == (sent + [queue[k]]) + Unsent(queue[k + 1..], queue[k].number);
          written := written + [queue[k]];
          sentThrough := queue[k].number;
          sent := sent + [queue[k]];
        }
        k := k + 1;
      }
      UnsentEnds(sentThrough);
    }

    method EmitMarker(body: Body)
      modifies this
      ensures View() == Emit(old(View()), body).0 && written == old(written) + Emit(old(View()), body).1
    {
      if |queue| >= QUEUE_MAX_RECORDS {
        fatal := true;
        return;
      }
      last := last + 1;
      queue := queue + [Marker(last, body)];
      FlushControlQueue();
    }

    method ConnectControlSocket()
      modifies this
      ensures View() == Connect(old(View()))
      ensures written == if old(View()) == View() then old(written) else []
    {
      if fatal || link != Down { return; }
      link := Connecting;
      sentThrough := acked;
      written := [];
    }

    method OnAccepted()
      modifies this
      ensures View() == Accept(old(View())).0 && written == old(written) + Accept(old(View())).1
    {
      if link != Connecting { return; }
      link := Up;
      FlushControlQueue();
    }

    method OnAck(number: nat)
      modifies this`link, this`acked, this`queue
      ensures View() == Acknowledge(old(View()), number)
    {
      if link != Up || number == 0 || number > sentThrough {
        link := Down;
        return;
      }
      if number > acked { acked := number; }
      while |queue| > 0 && queue[0].number <= acked
        modifies this`queue
        invariant DropThrough(queue, acked) == DropThrough(old(queue), acked)
        decreases |queue|
      {
        queue := queue[1..];
      }
    }

    method OnClose()
      modifies this`link
      ensures View() == old(View()).(link := Down)
    {
      link := Down;
    }
  }

  // ---- The worker and the wires ---------------------------------------------------------------

  /** An authenticated connection at the worker. `base` is where the runner's resend began;
      `waiting` is the record whose application this connection awaits. */
  datatype Connection = Connection(previous: Option<nat>, base: nat, assembly: Assembly, waiting: Option<nat>)

  /** `emitted` is the whole log; `applied` what the worker has acted on, through `highWater`;
      `inFlight` the one application under way, shared by connections that reach its record. */
  datatype System = System(
    sender: Sender, emitted: seq<Body>, toWorker: seq<Marker>, toRunner: seq<nat>,
    connection: Option<Connection>, highWater: nat, inFlight: Option<(nat, Delivery)>, applied: seq<Delivery>)

  datatype Event =
    | EmitRecord(record: Token)
    | EmitFinal(id: FinalId, metadata: Token, original: seq<Byte>)
    | RunnerConnects
    | WorkerAccepts
    | RunnerCloses
    | WorkerCloses
    | MarkerArrives
    | ApplicationEnds(ok: bool)
    | AckArrives

  function InitialSystem(): System {
    System(Sender(0, 0, 0, [], false, Down), [], [], [], None, 0, None, [])
  }

  function EmitOne(c: System, body: Body): System {
    if c.sender.fatal then c
    else
      var (sender, sent) := Emit(c.sender, body);
      c.(sender := sender, toWorker := c.toWorker + sent,
         emitted := if sender.fatal then c.emitted else c.emitted + [body])
  }

  function EmitMany(c: System, bodies: seq<Body>): System
    decreases |bodies|
  {
    if bodies == [] then c else EmitMany(EmitOne(c, bodies[0]), bodies[1..])
  }

  function SendAck(c: System, number: nat): System {
    if c.sender.link == Up then c.(toRunner := c.toRunner + [number]) else c
  }

  /** Records on one connection must be contiguous, from wherever it starts. */
  predicate FenceAccepts(previous: Option<nat>, number: nat) {
    number > 0 && (previous.Some? ==> number == previous.value + 1)
  }

  /** handleCodexAppControlLine, up to its await of the record's application. */
  function OnMarker(c: System): System {
    if c.connection.None? || c.connection.value.waiting.Some? || c.toWorker == [] then c
    else
      var marker := c.toWorker[0];
      var c1 := c.(toWorker := c.toWorker[1..]);
      var connection := c.connection.value;
      if !FenceAccepts(connection.previous, marker.number) then c1.(connection := None)
      else
        ReadRecord(c1, connection.(previous := Some(marker.number)), marker)
  }

  function ReadRecord(c: System, connection: Connection, marker: Marker): System {
    if marker.number <= c.highWater then SendAck(c.(connection := Some(connection)), marker.number)
    else
      var (assembly, outcome) := Assemble(connection.assembly, marker.body);
      var read := connection.(assembly := assembly);
      var effect := Effect(marker.body, outcome);
      if outcome.Rejected? then c.(connection := None)
      else if effect == [] then c.(connection := Some(read))
      else
        c.(connection := Some(read.(waiting := Some(marker.number))),
           inFlight := if c.inFlight.Some? && c.inFlight.value.0 == marker.number then c.inFlight
                       else Some((marker.number, effect[0])))
  }

  predicate AwaitsApplication(c: System, number: nat) {
    c.connection.Some? && c.connection.value.waiting == Some(number)
  }

  /** The rest of handleCodexAppControlLine: commit and acknowledge, or drop the connection. */
  function OnApplication(c: System, ok: bool): System {
    if c.inFlight.None? then c
    else
      var (number, effect) := c.inFlight.value;
      var c1 := c.(inFlight := None);
      if !ok then (if AwaitsApplication(c, number) then c1.(connection := None) else c1)
      else
        var c2 := c1.(applied := c.applied + [effect], highWater := if number > c.highWater then number else c.highWater);
        if AwaitsApplication(c, number) then SendAck(c2.(connection := Some(c.connection.value.(waiting := None))), number)
        else c2
  }

  function OnAckArrival(c: System): System {
    if c.toRunner == [] || c.sender.fatal then c
    else
      var sender := Acknowledge(c.sender, c.toRunner[0]);
      c.(sender := sender, toRunner := if sender.link == Up then c.toRunner[1..] else [])
  }

  function Step(c: System, e: Event): System {
    match e
    case EmitRecord(record) => EmitOne(c, Single(record))
    case EmitFinal(id, metadata, original) =>
      EmitMany(c, Transaction(id, metadata, Content(original)))
    case RunnerConnects => c.(sender := Connect(c.sender))
    case WorkerAccepts =>
      if c.sender.fatal || c.sender.link != Connecting then c
      else
        var (sender, sent) := Accept(c.sender);
        c.(sender := sender, toWorker := sent, toRunner := [],
           connection := Some(Connection(None, c.sender.sentThrough, Assembly.Idle, None)))
    case RunnerCloses => if c.sender.fatal then c else c.(sender := c.sender.(link := Down), toRunner := [])
    case WorkerCloses => c.(connection := None)
    case MarkerArrives => OnMarker(c)
    case ApplicationEnds(ok) => OnApplication(c, ok)
    case AckArrives => OnAckArrival(c)
  }

  function Run(c: System, events: seq<Event>): System
    decreases |events|
  {
    if events == [] then c else Run(Step(c, events[0]), events[1..])
  }

  // ---- What every run keeps ---------------------------------------------------------------------

  /** Records from+1 through to of the emitted log. */
  function Slice(emitted: seq<Body>, from: nat, to: nat): (s: seq<Marker>)
    requires from <= to <= |emitted|
    ensures |s| == to - from
  {
    seq(to - from, i requires 0 <= i < to - from => Marker(from + i + 1, emitted[from + i]))
  }

  /** The worker rejects such a record wherever it reads it. */
  predicate Unreadable(b: Body) {
    b.Start? && !IdFits(b.id)
  }

  /** How much of the log the worker can read: all of it, or up to the first unreadable record. */
  function ReadableLength(log: seq<Body>): (n: nat)
    ensures n <= |log|
  {
    if log == [] then 0
    else
      var last := |log| - 1;
      var n := ReadableLength(log[..last]);
      if n < last || Unreadable(log[last]) then n else |log|
  }

  /** Nothing readable is rejected, and what is unreadable begins between transactions. */
  predicate LogOk(log: seq<Body>) {
    var n := ReadableLength(log);
    Clean(log[..n]) && (n < |log| ==> After(log[..n]) == Assembly.Idle)
  }

  /** The queue is exactly the records after the last acknowledged one. */
  predicate SenderOk(s: Sender, emitted: seq<Body>) {
    && s.last == |emitted|
    && s.acked <= s.sentThrough <= s.last
    && s.queue == Slice(emitted, s.acked, s.last)
    && |s.queue| <= QUEUE_MAX_RECORDS
  }

  function Position(c: Connection): nat {
    if c.previous.Some? then c.previous.value else c.base
  }

  predicate ConnectionOk(c: System, k: Connection) {
    var at := Position(k);
    && k.base <= c.highWater
    && at <= ReadableLength(c.emitted)
    && at + |c.toWorker| <= |c.emitted|
    && c.toWorker == Slice(c.emitted, at, at + |c.toWorker|)
    && (c.sender.link == Up ==> at + |c.toWorker| == c.sender.sentThrough)
    && (k.waiting.Some? ==> k.waiting.value == at && c.inFlight.Some? && c.inFlight.value.0 == at)
    && (at > c.highWater && k.waiting.None? ==>
        && Deliveries(c.emitted[..at]) == c.applied
        && k.assembly == After(c.emitted[..at]) && k.assembly.Open?)
  }

  /** The record in flight completes the next delivery after those applied. */
  predicate FlightOk(c: System) {
    c.inFlight.Some? ==>
      var (number, effect) := c.inFlight.value;
      && c.highWater < number <= ReadableLength(c.emitted)
      && After(c.emitted[..number]) == Assembly.Idle
      && Deliveries(c.emitted[..number - 1]) == c.applied
      && Deliveries(c.emitted[..number]) == c.applied + [effect]
  }

  predicate Sound(c: System) {
    && SenderOk(c.sender, c.emitted)
    && LogOk(c.emitted)
    && c.sender.acked <= c.highWater <= ReadableLength(c.emitted)
    && After(c.emitted[..c.highWater]) == Assembly.Idle
    && c.applied == Deliveries(c.emitted[..c.highWater])
    && (c.sender.link == Connecting ==> c.sender.sentThrough == c.sender.acked)
    && (c.sender.link != Up ==> c.toRunner == [])
    && (forall n | n in c.toRunner :: 0 < n <= c.sender.sentThrough && n <= c.highWater)
    && FlightOk(c)
    && (c.connection.Some? ==> ConnectionOk(c, c.connection.value))
  }

  // ---- Slices and prefixes of the emitted log ------------------------------------------------------

  lemma {:induction false} UnsentIsSlice(emitted: seq<Body>, from: nat, through: nat)
    requires from <= through <= |emitted|
    ensures Unsent(Slice(emitted, from, |emitted|), through) == Slice(emitted, through, |emitted|)
    decreases |emitted| - from
  {
    var queue := Slice(emitted, from, |emitted|);
    if from < |emitted| {
      assert queue[1..] == Slice(emitted, from + 1, |emitted|);
      if from < through {
        UnsentIsSlice(emitted, from + 1, through);
      } else {
        UnsentIsSlice(emitted, from + 1, from + 1);
      }
    }
  }

  lemma {:induction false} DropThroughIsSlice(emitted: seq<Body>, from: nat, acked: nat)
    requires from <= acked <= |emitted|
    ensures DropThrough(Slice(emitted, from, |emitted|), acked) == Slice(emitted, acked, |emitted|)
    decreases |emitted| - from
  {
    if from < acked {
      assert Slice(emitted, from, |emitted|)[1..] == Slice(emitted, from + 1, |emitted|);
      DropThroughIsSlice(emitted, from + 1, acked);
    }
  }

  /** Whatever number is acknowledged: one in range moves the mark up, never back, and exactly the records
      past the mark stay queued; zero, or a number never sent, ends the link and drops nothing. */
  lemma AcknowledgementIsExact(s: Sender, emitted: seq<Body>, number: nat)
    requires SenderOk(s, emitted) && s.link == Up
    ensures var s' := Acknowledge(s, number);
            && SenderOk(s', emitted) && s'.last == s.last && s'.sentThrough == s.sentThrough
            && (s'.link == Up <==> 0 < number <= s.sentThrough)
            && (s'.link == Up ==> s'.acked == (if number < s.acked then s.acked else number)
                                  && s'.queue == Slice(emitted, s'.acked, s.last))
            && (s'.link != Up ==> s'.link == Down && s'.acked == s.acked && s'.queue == s.queue)
  {
    DropThroughIsSlice(emitted, s.acked, if number < s.acked then s.acked else if number > s.last then s.last else number);
  }

  lemma SliceOfExtension(emitted: seq<Body>, b: Body, from: nat, to: nat)
    requires from <= to <= |emitted|
    ensures Slice(emitted + [b], from, to) == Slice(emitted, from, to)
    ensures Slice(emitted + [b], from, |emitted| + 1) == Slice(emitted, from, |emitted|) + [Marker(|emitted| + 1, b)]
  {}

  lemma SlicesJoin(emitted: seq<Body>, from: nat, mid: nat, to: nat)
    requires from <= mid <= to <= |emitted|
    ensures Slice(emitted, from, mid) + Slice(emitted, mid, to) == Slice(emitted, from, to)
  {}

  lemma NextRecord(log: seq<Body>, n: nat)
    requires n < |log|
    ensures After(log[..n + 1]) == Assemble(After(log[..n]), log[n]).0
    ensures Deliveries(log[..n + 1]) == Deliveries(log[..n]) + Effect(log[n], Assemble(After(log[..n]), log[n]).1)
    ensures Clean(log[..n + 1]) <==> Clean(log[..n]) && !Assemble(After(log[..n]), log[n]).1.Rejected?
  {
    assert log[..n + 1] == log[..n] + [log[n]];
    Appended(log[..n], log[n]);
  }

  lemma {:induction false} CleanPrefix(log: seq<Body>, n: nat)
    requires Clean(log) && n <= |log|
    ensures Clean(log[..n])
    decreases |log| - n
  {
    if n == |log| {
      assert log[..n] == log;
    } else {
      CleanPrefix(log, n + 1);
      NextRecord(log, n);
    }
  }

  lemma {:induction false} DeliveriesGrow(log: seq<Body>, i: nat, j: nat)
    requires i <= j <= |log|
    ensures Deliveries(log[..i]) <= Deliveries(log[..j])
    decreases j - i
  {
    if i < j {
      DeliveriesGrow(log, i, j - 1);
      NextRecord(log, j - 1);
    }
  }

  // ---- The readable part of the log -----------------------------------------------------------------

  lemma ReadableAppend(log: seq<Body>, b: Body)
    ensures ReadableLength(log + [b])
         == if ReadableLength(log) < |log| || Unreadable(b) then ReadableLength(log) else |log| + 1
  {
    assert (log + [b])[..|log|] == log;
  }

  lemma {:induction false} ReadablePrefix(log: seq<Body>, n: nat)
    requires n <= |log|
    ensures ReadableLength(log[..n]) == if ReadableLength(log) < n then ReadableLength(log) else n
    decreases |log| - n
  {
    if n == |log| {
      assert log[..n] == log;
    } else {
      ReadablePrefix(log, n + 1);
      assert log[..n + 1] == log[..n] + [log[n]];
      ReadableAppend(log[..n], log[n]);
    }
  }

  /** The readable part ends at an unreadable record, if it ends at all. */
  lemma ReadableStops(log: seq<Body>)
    requires ReadableLength(log) < |log|
    ensures Unreadable(log[ReadableLength(log)])
  {
    hide ReadableLength, Unreadable;
    var n := ReadableLength(log);
    ReadablePrefix(log, n + 1);
    ReadablePrefix(log, n);
    assert log[..n + 1] == log[..n] + [log[n]];
    ReadableAppend(log[..n], log[n]);
  }

  /** An extension changes nothing of the readable part that has ended. */
  lemma ReadableGrows(log: seq<Body>, more: seq<Body>)
    ensures ReadableLength(log) <= ReadableLength(log + more)
    ensures ReadableLength(log) < |log| ==> ReadableLength(log + more) == ReadableLength(log)
    ensures (log + more)[..ReadableLength(log)] == log[..ReadableLength(log)]
  {
    ReadablePrefix(log + more, |log|);
    assert (log + more)[..|log|] == log;
  }

  lemma {:induction false} CleanIsReadable(log: seq<Body>)
    requires Clean(log)
    ensures ReadableLength(log) == |log| && LogOk(log)
    decreases |log|
  {
    assert log[..|log|] == log;
    if log != [] {
      var last := |log| - 1;
      CleanIsReadable(log[..last]);
      assert log == log[..last] + [log[last]];
      Appended(log[..last], log[last]);
      ReadableAppend(log[..last], log[last]);
    }
  }

  lemma LogOkPrefix(log: seq<Body>, n: nat)
    requires LogOk(log) && n <= |log|
    ensures LogOk(log[..n])
  {
    var r := ReadableLength(log);
    ReadablePrefix(log, n);
    if r < n {
      assert log[..n][..r] == log[..r];
    } else {
      assert log[..n][..n] == log[..r][..n];
      CleanPrefix(log[..r], n);
    }
  }

  /** A log that has ended stays in order whatever is added. */
  lemma StalledLogOk(log: seq<Body>, more: seq<Body>)
    requires LogOk(log) && ReadableLength(log) < |log|
    ensures LogOk(log + more) && ReadableLength(log + more) == ReadableLength(log) < |log + more|
  {
    ReadableGrows(log, more);
  }

  lemma TransactionLogOk(log: seq<Body>, id: FinalId, metadata: Token, content: seq<Byte>)
    requires LogOk(log) && ReadableLength(log) == |log| && After(log) == Assembly.Idle && |content| <= FINAL_MAX_BYTES
    ensures var full := log + Transaction(id, metadata, content);
            && LogOk(full)
            && ReadableLength(full) == (if IdFits(id) then |full| else |log|)
            && (IdFits(id) ==> Clean(full) && After(full) == Assembly.Idle)
  {
    var full := log + Transaction(id, metadata, content);
    assert log[..|log|] == log;
    TransactionRoundTrips(log, id, metadata, content);
    if IdFits(id) {
      CleanIsReadable(full);
    } else {
      var first := Transaction(id, metadata, content)[0];
      var rest := Transaction(id, metadata, content)[1..];
      ReadableAppend(log, first);
      assert (log + [first])[..|log|] == log;
      StalledLogOk(log + [first], rest);
      assert log + [first] + rest == full;
    }
  }

  // ---- Each step is sound ----------------------------------------------------------------------------

  lemma FlushSends(s: Sender, emitted: seq<Body>)
    requires SenderOk(s, emitted)
    ensures var (s', sent) := Flush(s);
            && SenderOk(s', emitted)
            && s.sentThrough <= s'.sentThrough
            && s' == s.(sentThrough := s'.sentThrough)
            && sent == Slice(emitted, s.sentThrough, s'.sentThrough)
            && (!s.fatal && s.link == Up ==> s'.sentThrough == s.last)
  {
    if !s.fatal && s.link == Up { UnsentIsSlice(emitted, s.acked, s.sentThrough); }
  }

  lemma EmitSends(s: Sender, emitted: seq<Body>, b: Body)
    requires SenderOk(s, emitted) && |s.queue| < QUEUE_MAX_RECORDS
    ensures var (s', sent) := Emit(s, b);
            && SenderOk(s', emitted + [b])
            && s.sentThrough <= s'.sentThrough
            && s'.fatal == s.fatal && s'.link == s.link && s'.acked == s.acked
            && sent == Slice(emitted + [b], s.sentThrough, s'.sentThrough)
  {
    SliceOfExtension(emitted, b, s.acked, s.last);
    FlushSends(s.(last := s.last + 1, queue := s.queue + [Marker(s.last + 1, b)]), emitted + [b]);
  }

  /** Facts about old prefixes of the log are not touched by an extension. */
  lemma ExtensionKeepsConnection(c: System, c': System, k: Connection, b: Body)
    requires c.connection == Some(k) && ConnectionOk(c, k)
    requires c' == c.(sender := c'.sender, toWorker := c'.toWorker, emitted := c.emitted + [b])
    requires c'.sender.link == c.sender.link
    requires c.sender.sentThrough <= c'.sender.sentThrough <= |c'.emitted|
    requires c'.toWorker == c.toWorker + Slice(c'.emitted, c.sender.sentThrough, c'.sender.sentThrough)
    requires c.sender.link != Up ==> c'.sender.sentThrough == c.sender.sentThrough
    ensures ConnectionOk(c', k)
  {
    hide After, Deliveries, Clean, ReadableLength, LogOk;
    var at := Position(k);
    SliceOfExtension(c.emitted, b, at, at + |c.toWorker|);
    if c.sender.link == Up {
      SlicesJoin(c'.emitted, at, c.sender.sentThrough, c'.sender.sentThrough);
    }
    assert (c.emitted + [b])[..at] == c.emitted[..at];
    ReadableGrows(c.emitted, [b]);
  }

  lemma EmitOneSound(c: System, b: Body)
    requires Sound(c) && LogOk(c.emitted + [b])
    ensures Sound(EmitOne(c, b))
  {
    hide After, Deliveries, Clean, ReadableLength, LogOk;
    if !c.sender.fatal && |c.sender.queue| < QUEUE_MAX_RECORDS {
      EmitSends(c.sender, c.emitted, b);
      var c' := EmitOne(c, b);
      assert c'.emitted == c.emitted + [b];
      assert c'.emitted[..c.highWater] == c.emitted[..c.highWater];
      EmitKeepsSentThrough(c.sender, b);
      ReadableGrows(c.emitted, [b]);
      if c.connection.Some? { ExtensionKeepsConnection(c, c', c.connection.value, b); }
      ExtensionKeepsFlight(c, c', b);
    }
  }

  lemma EmitKeepsSentThrough(s: Sender, b: Body)
    ensures s.link != Up ==> Emit(s, b).0.sentThrough == s.sentThrough
  {}

  lemma ExtensionKeepsFlight(c: System, c': System, b: Body)
    requires FlightOk(c)
    requires c'.emitted == c.emitted + [b] && c'.inFlight == c.inFlight && c'.applied == c.applied
    requires c'.highWater == c.highWater
    ensures FlightOk(c')
  {
    if c.inFlight.Some? {
      var number := c.inFlight.value.0;
      ReadableGrows(c.emitted, [b]);
      assert c'.emitted[..number] == c.emitted[..number];
      assert c'.emitted[..number - 1] == c.emitted[..number - 1];
    }
  }

  /** Whatever is emitted of a batch is a prefix of it, cut only by the queue's bound. */
  lemma {:induction false} EmitManySound(c: System, bodies: seq<Body>)
    requires Sound(c) && LogOk(c.emitted + bodies)
    ensures Sound(EmitMany(c, bodies))
    ensures EmitMany(c, bodies).emitted <= c.emitted + bodies
    ensures !EmitMany(c, bodies).sender.fatal ==> EmitMany(c, bodies).emitted == c.emitted + bodies
    ensures c.emitted <= EmitMany(c, bodies).emitted
    decreases |bodies|
  {
    if bodies == [] {
      assert c.emitted + bodies == c.emitted;
    } else {
      var c1 := EmitOne(c, bodies[0]);
      FirstOfBatch(c, bodies);
      if c1.sender.fatal {
        FatalEmitsNothing(c1, bodies[1..]);
        assert c1.emitted <= c.emitted + bodies;
      } else {
        EmitManySound(c1, bodies[1..]);
      }
    }
  }

  lemma FirstOfBatch(c: System, bodies: seq<Body>)
    requires Sound(c) && bodies != [] && LogOk(c.emitted + bodies)
    ensures var c1 := EmitOne(c, bodies[0]);
            && Sound(c1) && (!c1.sender.fatal ==> c1.emitted + bodies[1..] == c.emitted + bodies)
            && c.emitted <= c1.emitted <= c.emitted + bodies
  {
    hide After, Deliveries, Clean, ReadableLength, LogOk;
    FirstIsOk(c.emitted, bodies);
    EmitOneSound(c, bodies[0]);
    EmitOneAppends(c, bodies[0]);
    FirstAndRest(c.emitted, bodies);
  }

  lemma FirstAndRest(log: seq<Body>, bodies: seq<Body>)
    requires bodies != []
    ensures log <= log + [bodies[0]] <= log + bodies && log <= log + bodies
    ensures log + [bodies[0]] + bodies[1..] == log + bodies
  {
    assert (log + bodies)[..|log| + 1] == log + [bodies[0]];
  }

  lemma FirstIsOk(log: seq<Body>, bodies: seq<Body>)
    requires bodies != [] && LogOk(log + bodies)
    ensures LogOk(log + [bodies[0]])
  {
    LogOkPrefix(log + bodies, |log| + 1);
    assert (log + bodies)[..|log| + 1] == log + [bodies[0]];
  }

  lemma EmitOneAppends(c: System, b: Body)
    ensures if EmitOne(c, b).sender.fatal then EmitOne(c, b).emitted == c.emitted
            else EmitOne(c, b).emitted == c.emitted + [b]
  {}

  lemma {:induction false} FatalEmitsNothing(c: System, bodies: seq<Body>)
    requires c.sender.fatal
    ensures EmitMany(c, bodies) == c
    decreases |bodies|
  {
    if bodies != [] { FatalEmitsNothing(c, bodies[1..]); }
  }

  lemma FreshConnectionOk(c: System, sender: Sender, sent: seq<Marker>)
    requires Sound(c) && c.sender.link == Connecting && (sender, sent) == Accept(c.sender) && !c.sender.fatal
    ensures SenderOk(sender, c.emitted) && sender.acked == c.sender.acked && sender.link == Up
    ensures ConnectionOk(c.(sender := sender, toWorker := sent), Connection(None, c.sender.sentThrough, Assembly.Idle, None))
  {
    hide After, Deliveries, Clean, ReadableLength, LogOk;
    FlushSends(c.sender.(link := Up), c.emitted);
  }

  lemma AcceptSound(c: System)
    requires Sound(c)
    ensures Sound(Step(c, WorkerAccepts))
  {
    hide After, Deliveries, Clean, ReadableLength, LogOk;
    if !c.sender.fatal && c.sender.link == Connecting {
      var (sender, sent) := Accept(c.sender);
      FreshConnectionOk(c, sender, sent);
      var k := Connection(None, c.sender.sentThrough, Assembly.Idle, None);
      assert ConnectionOk(c.(sender := sender, toWorker := sent, toRunner := [], connection := Some(k)), k);
    }
  }

  lemma SendAckSound(c: System, number: nat)
    requires Sound(c) && 0 < number <= c.highWater && (c.sender.link == Up ==> number <= c.sender.sentThrough)
    ensures Sound(SendAck(c, number))
  {
    hide After, Deliveries, Clean, ReadableLength, LogOk;
  }

  /** Every record that arrives passes the fence: what is on the wire is contiguous. */
  lemma ArrivalIsContiguous(c: System)
    requires Sound(c) && c.connection.Some? && c.toWorker != []
    ensures var at := Position(c.connection.value);
            && at < |c.emitted|
            && c.toWorker[0] == Marker(at + 1, c.emitted[at])
            && c.toWorker[1..] == Slice(c.emitted, at + 1, at + |c.toWorker|)
            && FenceAccepts(c.connection.value.previous, at + 1)
  {
    hide After, Deliveries, Clean, ReadableLength, LogOk;
  }

  /** Reading one record past the high-water mark, in step with the whole log. */
  lemma ReadInStep(c: System, at: nat)
    requires Sound(c) && c.highWater <= at < ReadableLength(c.emitted) && Deliveries(c.emitted[..at]) == c.applied
    ensures var (assembly, outcome) := Assemble(After(c.emitted[..at]), c.emitted[at]);
            && !outcome.Rejected?
            && assembly == After(c.emitted[..at + 1])
            && Deliveries(c.emitted[..at + 1]) == c.applied + Effect(c.emitted[at], outcome)
  {
    NextRecord(c.emitted, at);
    ReadableIsClean(c, at + 1);
  }

  lemma ReadableIsClean(c: System, n: nat)
    requires Sound(c) && n <= ReadableLength(c.emitted)
    ensures Clean(c.emitted[..n])
  {
    var r := ReadableLength(c.emitted);
    CleanPrefix(c.emitted[..r], n);
    assert c.emitted[..r][..n] == c.emitted[..n];
  }

  lemma EffectsEndTransactions(a: Assembly, b: Body)
    ensures var (assembly, outcome) := Assemble(a, b);
            Effect(b, outcome) != [] ==> |Effect(b, outcome)| == 1 && assembly.Idle?
    ensures var (assembly, outcome) := Assemble(a, b);
            !outcome.Rejected? && Effect(b, outcome) == [] ==> assembly.Open?
  {}

  /** Only one record can complete the next delivery: connections that reach it share it. */
  lemma SameFlight(log: seq<Body>, applied: seq<Delivery>, at: nat, effect: Delivery, number: nat, other: Delivery)
    requires at < |log| && 0 < number <= |log|
    requires Deliveries(log[..at]) == applied && Deliveries(log[..at + 1]) == applied + [effect]
    requires Deliveries(log[..number - 1]) == applied && Deliveries(log[..number]) == applied + [other]
    ensures number == at + 1 && other == effect
  {
    hide After, Deliveries, Clean, ReadableLength, LogOk;
    if number <= at {
      DeliveriesGrow(log, number, at);
      assert false;
    } else if number > at + 1 {
      DeliveriesGrow(log, at + 1, number - 1);
      assert false;
    } else {
      assert (applied + [other])[|applied|] == (applied + [effect])[|applied|];
    }
  }

  lemma StaleAssemblyRejects(c: System, at: nat, assembly: Assembly)
    requires Sound(c) && at == c.highWater < |c.emitted| && assembly.Open?
    ensures Assemble(assembly, c.emitted[at]).1.Rejected?
  {
    if at < ReadableLength(c.emitted) {
      NextRecord(c.emitted, at);
      ReadableIsClean(c, at + 1);
    } else {
      ReadableStops(c.emitted);
    }
  }

  lemma ReadingConnectionOk(c: System, c': System, k: Connection, at: nat, assembly: Assembly)
    requires Sound(c) && c.connection == Some(k) && k.waiting.None? && at == Position(k) >= c.highWater
    requires c.toWorker != [] && at < ReadableLength(c.emitted) && c' == c.(toWorker := c.toWorker[1..])
    requires assembly == After(c.emitted[..at + 1]) && assembly.Open? && Deliveries(c.emitted[..at + 1]) == c.applied
    ensures ConnectionOk(c', k.(previous := Some(at + 1), assembly := assembly))
  {
    hide After, Deliveries, Clean, ReadableLength, LogOk;
    ArrivalIsContiguous(c);
  }

  /** The connection reads on inside a transaction. */
  lemma ReadOn(c: System, k: Connection, at: nat)
    requires Sound(c) && c.connection == Some(k) && k.waiting.None? && at == Position(k) >= c.highWater
    requires c.toWorker != [] && at < ReadableLength(c.emitted)
    requires k.assembly == After(c.emitted[..at]) && Deliveries(c.emitted[..at]) == c.applied
    requires Effect(c.emitted[at], Assemble(k.assembly, c.emitted[at]).1) == []
    ensures Sound(c.(toWorker := c.toWorker[1..],
                     connection := Some(k.(previous := Some(at + 1), assembly := Assemble(k.assembly, c.emitted[at]).0))))
  {
    hide After, Deliveries, Clean, ReadableLength, LogOk;
    ReadInStep(c, at);
    EffectsEndTransactions(k.assembly, c.emitted[at]);
    var assembly := Assemble(k.assembly, c.emitted[at]).0;
    var c1 := c.(toWorker := c.toWorker[1..]);
    var k1 := k.(previous := Some(at + 1), assembly := assembly);
    ReadingConnectionOk(c, c1, k, at, assembly);
    assert ConnectionOk(c1.(connection := Some(k1)), k1);
  }

  /** Reading a record to apply puts it in flight, unless it is there already. */
  lemma NextFlight(c: System, at: nat, effect: Delivery)
    requires Sound(c) && c.highWater <= at < ReadableLength(c.emitted) && Deliveries(c.emitted[..at]) == c.applied
    requires Effect(c.emitted[at], Assemble(After(c.emitted[..at]), c.emitted[at]).1) == [effect]
    ensures FlightOk(c.(inFlight := Some((at + 1, effect))))
    ensures c.inFlight.Some? ==> c.inFlight.value == (at + 1, effect)
  {
    ReadInStep(c, at);
    EffectsEndTransactions(After(c.emitted[..at]), c.emitted[at]);
    if c.inFlight.Some? {
      SameFlight(c.emitted, c.applied, at, effect, c.inFlight.value.0, c.inFlight.value.1);
    }
  }

  lemma WaitingConnectionOk(c: System, c': System, k: Connection, at: nat, effect: Delivery, assembly: Assembly)
    requires Sound(c) && c.connection == Some(k) && at == Position(k) && c.toWorker != [] && at < ReadableLength(c.emitted)
    requires c' == c.(toWorker := c.toWorker[1..], inFlight := Some((at + 1, effect)))
    ensures ConnectionOk(c', k.(previous := Some(at + 1), assembly := assembly, waiting := Some(at + 1)))
  {
    hide After, Deliveries, Clean, ReadableLength, LogOk;
    ArrivalIsContiguous(c);
  }

  /** The connection reaches a record to apply, and waits for its application. */
  lemma ReadEffect(c: System, k: Connection, at: nat, effect: Delivery, assembly: Assembly)
    requires Sound(c) && c.connection == Some(k) && k.waiting.None? && at == Position(k) >= c.highWater
    requires c.toWorker != [] && at < ReadableLength(c.emitted)
    requires FlightOk(c.(inFlight := Some((at + 1, effect))))
    ensures Sound(c.(toWorker := c.toWorker[1..], inFlight := Some((at + 1, effect)),
                     connection := Some(k.(previous := Some(at + 1), assembly := assembly, waiting := Some(at + 1)))))
  {
    hide After, Deliveries, Clean, ReadableLength, LogOk;
    var c1 := c.(toWorker := c.toWorker[1..], inFlight := Some((at + 1, effect)));
    var k1 := k.(previous := Some(at + 1), assembly := assembly, waiting := Some(at + 1));
    WaitingConnectionOk(c, c1, k, at, effect, assembly);
    assert ConnectionOk(c1.(connection := Some(k1)), k1);
    assert FlightOk(c1.(connection := Some(k1)));
  }

  lemma ReadPastHighWater(c: System, k: Connection, at: nat)
    requires Sound(c) && c.connection == Some(k) && k.waiting.None? && at == Position(k) >= c.highWater
    requires c.toWorker != [] && at < ReadableLength(c.emitted)
    requires k.assembly == After(c.emitted[..at]) && Deliveries(c.emitted[..at]) == c.applied
    ensures Sound(ReadRecord(c.(toWorker := c.toWorker[1..]), k.(previous := Some(at + 1)), Marker(at + 1, c.emitted[at])))
  {
    hide After, Deliveries, Clean, ReadableLength, LogOk;
    ReadInStep(c, at);
    EffectsEndTransactions(k.assembly, c.emitted[at]);
    var effect := Effect(c.emitted[at], Assemble(k.assembly, c.emitted[at]).1);
    if effect == [] {
      ReadOn(c, k, at);
    } else {
      assert effect == [effect[0]];
      NextFlight(c, at, effect[0]);
      ReadEffect(c, k, at, effect[0], Assemble(k.assembly, c.emitted[at]).0);
    }
  }

  lemma ReadNext(c: System)
    requires Sound(c) && c.connection.Some? && c.connection.value.waiting.None? && c.toWorker != []
    ensures var k := c.connection.value;
            var at := Position(k);
            && at < |c.emitted|
            && OnMarker(c) == ReadRecord(c.(toWorker := c.toWorker[1..]), k.(previous := Some(at + 1)),
                                         Marker(at + 1, c.emitted[at]))
  {
    hide After, Deliveries, Clean, ReadableLength, LogOk;
    ArrivalIsContiguous(c);
  }

  /** A connection that began inside a transaction since applied rejects, and starts over. */
  lemma StaleReadSound(c: System, k: Connection, at: nat)
    requires Sound(c) && c.connection == Some(k) && at == Position(k) == c.highWater && k.assembly.Open?
    requires c.toWorker != [] && at < |c.emitted|
    ensures Sound(ReadRecord(c.(toWorker := c.toWorker[1..]), k.(previous := Some(at + 1)), Marker(at + 1, c.emitted[at])))
  {
    hide After, Deliveries, Clean, ReadableLength, LogOk;
    StaleAssemblyRejects(c, at, k.assembly);
  }

  /** A connection that reaches the first unreadable record is dropped there. */
  lemma UnreadableDrops(c: System, k: Connection, at: nat)
    requires Sound(c) && c.connection == Some(k) && at == Position(k) == ReadableLength(c.emitted) < |c.emitted|
    requires c.toWorker != []
    ensures var c1 := c.(toWorker := c.toWorker[1..]);
            && ReadRecord(c1, k.(previous := Some(at + 1)), Marker(at + 1, c.emitted[at])) == c1.(connection := None)
            && Sound(c1.(connection := None))
  {
    hide After, Deliveries, Clean, ReadableLength, LogOk;
    ReadableStops(c.emitted);
  }

  lemma MarkerSound(c: System)
    requires Sound(c)
    ensures Sound(OnMarker(c))
  {
    hide After, Deliveries, Clean, ReadableLength, LogOk;
    if c.connection.Some? && c.connection.value.waiting.None? && c.toWorker != [] {
      ReadNext(c);
      var k := c.connection.value;
      var at := Position(k);
      if at + 1 <= c.highWater {
        ReplaySound(c, k, at);
      } else if at == ReadableLength(c.emitted) {
        UnreadableDrops(c, k, at);
      } else if at == c.highWater && k.assembly.Open? {
        StaleReadSound(c, k, at);
      } else {
        ReadPastHighWater(c, k, at);
      }
    }
  }

  lemma ReplayedConnectionOk(c: System, k: Connection, at: nat)
    requires Sound(c) && c.connection == Some(k) && k.waiting.None? && at == Position(k) && at + 1 <= c.highWater
    requires c.toWorker != []
    ensures at < |c.emitted| && (c.sender.link == Up ==> at + 1 <= c.sender.sentThrough)
    ensures Sound(c.(toWorker := c.toWorker[1..], connection := Some(k.(previous := Some(at + 1)))))
  {
    hide After, Deliveries, Clean, ReadableLength, LogOk;
    ArrivalIsContiguous(c);
  }

  /** A record at or below the high-water mark is acknowledged again and not applied again. */
  lemma ReplaySound(c: System, k: Connection, at: nat)
    requires Sound(c) && c.connection == Some(k) && k.waiting.None? && at == Position(k) && at + 1 <= c.highWater
    requires c.toWorker != []
    ensures Sound(ReadRecord(c.(toWorker := c.toWorker[1..]), k.(previous := Some(at + 1)), Marker(at + 1, c.emitted[at])))
  {
    hide After, Deliveries, Clean, ReadableLength, LogOk;
    ReplayedConnectionOk(c, k, at);
    SendAckSound(c.(toWorker := c.toWorker[1..], connection := Some(k.(previous := Some(at + 1)))), at + 1);
  }

  /** No connection has read past the record in flight. */
  lemma NothingPastFlight(c: System, k: Connection)
    requires Sound(c) && c.inFlight.Some? && c.connection == Some(k)
    ensures Position(k) <= c.inFlight.value.0
  {
    var number := c.inFlight.value.0;
    if Position(k) > number { DeliveriesGrow(c.emitted, number, Position(k)); }
  }

  lemma ApplicationSound(c: System, ok: bool)
    requires Sound(c)
    ensures Sound(OnApplication(c, ok))
  {
    hide After, Deliveries, Clean, ReadableLength, LogOk;
    if c.inFlight.Some? && ok {
      var (number, effect) := c.inFlight.value;
      if c.connection.Some? { NothingPastFlight(c, c.connection.value); }
      var c2 := c.(inFlight := None, applied := c.applied + [effect], highWater := number);
      if AwaitsApplication(c, number) {
        var c3 := c2.(connection := Some(c.connection.value.(waiting := None)));
        assert Sound(c3);
        SendAckSound(c3, number);
      } else {
        assert Sound(c2);
      }
    }
  }

  /** The runner never sees an acknowledgement out of range. */
  lemma AckIsInRange(c: System)
    requires Sound(c) && c.toRunner != [] && !c.sender.fatal
    ensures OnAckArrival(c).sender.link == Up
    ensures OnAckArrival(c).sender.acked >= c.toRunner[0]
  {
    hide After, Deliveries, Clean, ReadableLength, LogOk;
    assert c.toRunner[0] in c.toRunner;
  }

  lemma AckSound(c: System)
    requires Sound(c)
    ensures Sound(OnAckArrival(c))
  {
    hide After, Deliveries, Clean, ReadableLength, LogOk;
    if c.toRunner != [] && !c.sender.fatal {
      AckIsInRange(c);
      var acked := OnAckArrival(c).sender.acked;
      assert c.toRunner[0] in c.toRunner;
      DropThroughIsSlice(c.emitted, c.sender.acked, acked);
      assert forall n | n in c.toRunner[1..] :: n in c.toRunner;
    }
  }

  /** Between events the emitted log is made of whole transactions, as far as it is read. */
  predicate Whole(c: System) {
    !c.sender.fatal && ReadableLength(c.emitted) == |c.emitted| ==> After(c.emitted) == Assembly.Idle
  }

  lemma EmitRecordSound(c: System, record: Token)
    requires Sound(c) && Whole(c)
    ensures Sound(EmitOne(c, Single(record))) && Whole(EmitOne(c, Single(record)))
  {
    if !c.sender.fatal {
      RecordLogOk(c, record);
      EmitOneSound(c, Single(record));
      EmitOneAppends(c, Single(record));
    }
  }

  lemma RecordLogOk(c: System, record: Token)
    requires Sound(c) && Whole(c) && !c.sender.fatal
    ensures var full := c.emitted + [Single(record)];
            && LogOk(full)
            && (ReadableLength(full) == |full| <==> ReadableLength(c.emitted) == |c.emitted|)
            && (ReadableLength(full) == |full| ==> After(full) == Assembly.Idle && Clean(full))
  {
    ReadableAppend(c.emitted, Single(record));
    Appended(c.emitted, Single(record));
    if ReadableLength(c.emitted) < |c.emitted| {
      StalledLogOk(c.emitted, [Single(record)]);
    } else {
      assert c.emitted[..|c.emitted|] == c.emitted;
      CleanIsReadable(c.emitted + [Single(record)]);
    }
  }

  lemma FinalLogOk(c: System, id: FinalId, metadata: Token, original: seq<Byte>)
    requires Sound(c) && Whole(c) && !c.sender.fatal
    ensures var full := c.emitted + Transaction(id, metadata, Content(original));
            && LogOk(full)
            && (ReadableLength(full) == |full| <==> ReadableLength(c.emitted) == |c.emitted| && IdFits(id))
            && (ReadableLength(c.emitted) == |c.emitted| && !IdFits(id) ==> ReadableLength(full) == |c.emitted|)
            && (ReadableLength(full) == |full| ==> After(full) == Assembly.Idle && Clean(full))
  {
    ContentFits(original);
    if ReadableLength(c.emitted) < |c.emitted| {
      StalledLogOk(c.emitted, Transaction(id, metadata, Content(original)));
    } else {
      TransactionLogOk(c.emitted, id, metadata, Content(original));
    }
  }

  lemma EmitFinalSound(c: System, id: FinalId, metadata: Token, original: seq<Byte>)
    requires Sound(c) && Whole(c)
    ensures var c' := EmitMany(c, Transaction(id, metadata, Content(original))); Sound(c') && Whole(c')
  {
    hide After, Deliveries, Clean, ReadableLength, LogOk;
    var bodies := Transaction(id, metadata, Content(original));
    if c.sender.fatal {
      FatalEmitsNothing(c, bodies);
    } else {
      FinalLogOk(c, id, metadata, original);
      EmitManySound(c, bodies);
    }
  }

  lemma ConnectSound(c: System)
    requires Sound(c)
    ensures Sound(c.(sender := Connect(c.sender)))
  {
    hide After, Deliveries, Clean, ReadableLength, LogOk;
  }

  lemma CloseSound(c: System)
    requires Sound(c)
    ensures Sound(c.(sender := c.sender.(link := Down), toRunner := []))
  {
    hide After, Deliveries, Clean, ReadableLength, LogOk;
  }

  lemma DropConnectionSound(c: System)
    requires Sound(c)
    ensures Sound(c.(connection := None))
  {
    hide After, Deliveries, Clean, ReadableLength, LogOk;
  }

  lemma StepKeepsWhole(c: System, e: Event)
    requires Whole(c) && !e.EmitRecord? && !e.EmitFinal?
    ensures Whole(Step(c, e))
  {
    match e {
      case MarkerArrives => assert OnMarker(c).emitted == c.emitted && OnMarker(c).sender == c.sender;
      case ApplicationEnds(ok) =>
      case _ =>
    }
  }

  lemma StepSound(c: System, e: Event)
    requires Sound(c) && Whole(c)
    ensures Sound(Step(c, e)) && Whole(Step(c, e))
  {
    hide After, Deliveries, Clean, ReadableLength, LogOk;
    if !e.EmitRecord? && !e.EmitFinal? { StepKeepsWhole(c, e); }
    match e {
      case EmitRecord(record) => EmitRecordSound(c, record);
      case EmitFinal(id, metadata, original) => EmitFinalSound(c, id, metadata, original);
      case WorkerAccepts => AcceptSound(c);
      case MarkerArrives => MarkerSound(c);
      case ApplicationEnds(ok) => ApplicationSound(c, ok);
      case AckArrives => AckSound(c);
      case RunnerConnects => ConnectSound(c);
      case RunnerCloses => CloseSound(c);
      case WorkerCloses => DropConnectionSound(c);
    }
  }

  lemma {:induction false} RunSound(c: System, events: seq<Event>)
    requires Sound(c) && Whole(c)
    ensures Sound(Run(c, events)) && Whole(Run(c, events))
    decreases |events|
  {
    if events != [] {
      StepSound(c, events[0]);
      RunSound(Step(c, events[0]), events[1..]);
    }
  }

  // ---- What the runner meant to say -----------------------------------------------------------------------

  function Meant(e: Event): seq<Delivery> {
    match e
    case EmitRecord(record) => [Handled(record)]
    case EmitFinal(_, metadata, original) => [Answered(metadata, Content(original))]
    case _ => []
  }

  /** The records and finals a run emits, each final with its content. */
  function Intended(events: seq<Event>): seq<Delivery>
    decreases |events|
  {
    if events == [] then [] else Meant(events[0]) + Intended(events[1..])
  }

  /** The worker can read what the event emits. The runner makes the id of a final of its reply
      turn id, which it does not bound. */
  predicate Readable(e: Event) {
    e.EmitFinal? ==> IdFits(e.id)
  }

  predicate AllReadable(events: seq<Event>) {
    forall e | e in events :: Readable(e)
  }

  /** What is intended before the first final that the worker cannot read. */
  function IntendedReadable(events: seq<Event>): seq<Delivery>
    decreases |events|
  {
    if events == [] || !Readable(events[0]) then [] else Meant(events[0]) + IntendedReadable(events[1..])
  }

  lemma {:induction false} IntendedSplits(events: seq<Event>)
    ensures IntendedReadable(events) <= Intended(events)
    ensures AllReadable(events) ==> IntendedReadable(events) == Intended(events)
    decreases |events|
  {
    if events != [] {
      IntendedSplits(events[1..]);
      assert forall e | e in events[1..] :: e in events;
    }
  }

  /** What the readable part of the log delivers. */
  function Spelled(c: System): seq<Delivery> {
    Deliveries(c.emitted[..ReadableLength(c.emitted)])
  }

  /** Nothing more will be read than what has been emitted. */
  predicate Ended(c: System) {
    c.sender.fatal || ReadableLength(c.emitted) < |c.emitted|
  }

  predicate Spells(c: System, said: seq<Delivery>) {
    Spelled(c) <= said && (!c.sender.fatal ==> Spelled(c) == said)
  }

  lemma SpelledWhole(log: seq<Body>)
    requires ReadableLength(log) == |log|
    ensures Deliveries(log[..ReadableLength(log)]) == Deliveries(log)
  {
    assert log[..|log|] == log;
  }

  /** Cut anywhere, a batch delivers a beginning of what the whole of it delivers. */
  lemma BatchSpells(c: System, bodies: seq<Body>)
    requires Sound(c) && LogOk(c.emitted + bodies) && ReadableLength(c.emitted + bodies) == |c.emitted + bodies|
    ensures var c' := EmitMany(c, bodies);
            && Spelled(c') <= Deliveries(c.emitted + bodies)
            && (!c'.sender.fatal ==> c'.emitted == c.emitted + bodies)
            && ReadableLength(c'.emitted) == |c'.emitted|
  {
    hide After, Deliveries, Clean, ReadableLength, LogOk;
    EmitManySound(c, bodies);
    var full := c.emitted + bodies;
    var n := |EmitMany(c, bodies).emitted|;
    DeliveriesGrow(full, n, |full|);
    ReadablePrefix(full, n);
    assert full[..n] == EmitMany(c, bodies).emitted && full[..|full|] == full;
    SpelledWhole(full[..n]);
  }

  lemma FitFinalSpells(c: System, id: FinalId, metadata: Token, original: seq<Byte>, said: seq<Delivery>)
    requires Sound(c) && Whole(c) && !Ended(c) && Spells(c, said) && IdFits(id)
    ensures var c' := EmitMany(c, Transaction(id, metadata, Content(original)));
            Spells(c', said + [Answered(metadata, Content(original))]) && ReadableLength(c'.emitted) == |c'.emitted|
  {
    hide After, Deliveries, Clean, ReadableLength, LogOk;
    var bodies := Transaction(id, metadata, Content(original));
    ContentFits(original);
    FinalLogOk(c, id, metadata, original);
    SpelledWhole(c.emitted);
    CleanAndIdle(c);
    TransactionRoundTrips(c.emitted, id, metadata, Content(original));
    BatchSpells(c, bodies);
    SpelledWhole(EmitMany(c, bodies).emitted);
  }

  lemma CleanAndIdle(c: System)
    requires Sound(c) && Whole(c) && !Ended(c)
    ensures Clean(c.emitted) && After(c.emitted) == Assembly.Idle
  {
    assert c.emitted[..|c.emitted|] == c.emitted;
  }

  lemma RecordSpells(c: System, record: Token, said: seq<Delivery>)
    requires Sound(c) && Whole(c) && !Ended(c) && Spells(c, said)
    ensures var c' := EmitOne(c, Single(record));
            Spells(c', said + [Handled(record)]) && ReadableLength(c'.emitted) == |c'.emitted|
  {
    hide After, Deliveries, Clean, ReadableLength, LogOk;
    RecordLogOk(c, record);
    CleanAndIdle(c);
    Appended(c.emitted, Single(record));
    EmitOneAppends(c, Single(record));
    SpelledWhole(c.emitted);
    SpelledWhole(EmitOne(c, Single(record)).emitted);
  }

  /** Steps that emit nothing leave the log and the sender's failure alone. */
  lemma QuietStepEmitsNothing(c: System, e: Event)
    requires !e.EmitRecord? && !e.EmitFinal?
    ensures Step(c, e).emitted == c.emitted && Step(c, e).sender.fatal == c.sender.fatal
  {
    hide After, Deliveries, Clean, ReadableLength, LogOk;
    match e {
      case MarkerArrives => assert OnMarker(c).emitted == c.emitted && OnMarker(c).sender == c.sender;
      case ApplicationEnds(ok) =>
      case _ =>
    }
  }

  lemma StepSpells(c: System, e: Event, said: seq<Delivery>)
    requires Sound(c) && Whole(c) && !Ended(c) && Spells(c, said) && Readable(e)
    ensures Spells(Step(c, e), said + Meant(e))
    ensures ReadableLength(Step(c, e).emitted) == |Step(c, e).emitted|
  {
    hide After, Deliveries, Clean, ReadableLength, LogOk, EmitOne, EmitMany, OnMarker, OnApplication;
    match e {
      case EmitRecord(record) => RecordSpells(c, record, said);
      case EmitFinal(id, metadata, original) => FitFinalSpells(c, id, metadata, original, said);
      case _ => QuietStepEmitsNothing(c, e); assert said + Meant(e) == said;
    }
  }

  lemma {:induction false} EmitManyExtends(c: System, bodies: seq<Body>)
    ensures c.emitted <= EmitMany(c, bodies).emitted
    ensures c.sender.fatal ==> EmitMany(c, bodies) == c
    ensures !EmitMany(c, bodies).sender.fatal ==> EmitMany(c, bodies).emitted == c.emitted + bodies
    decreases |bodies|
  {
    if bodies != [] {
      EmitOneAppends(c, bodies[0]);
      EmitManyExtends(EmitOne(c, bodies[0]), bodies[1..]);
    }
  }

  lemma StepExtends(c: System, e: Event)
    ensures c.emitted <= Step(c, e).emitted
    ensures c.sender.fatal ==> Step(c, e).sender.fatal && Step(c, e).emitted == c.emitted
  {
    hide EmitMany, Transaction;
    match e {
      case EmitRecord(record) =>
      case EmitFinal(id, metadata, original) => EmitManyExtends(c, Transaction(id, metadata, Content(original)));
      case _ => QuietStepEmitsNothing(c, e);
    }
  }

  /** Once it has ended, the readable part of the log stays what it is. */
  lemma StepStaysEnded(c: System, e: Event)
    requires Ended(c)
    ensures Ended(Step(c, e)) && Spelled(Step(c, e)) == Spelled(c)
    ensures ReadableLength(Step(c, e).emitted) == ReadableLength(c.emitted)
    ensures ReadableLength(c.emitted) < |c.emitted| ==> ReadableLength(Step(c, e).emitted) < |Step(c, e).emitted|
  {
    hide After, Deliveries, Clean, ReadableLength, LogOk;
    StepExtends(c, e);
    var more := Step(c, e).emitted[|c.emitted|..];
    assert Step(c, e).emitted == c.emitted + more;
    ReadableGrows(c.emitted, more);
  }

  lemma {:induction false} RunStaysEnded(c: System, events: seq<Event>)
    requires Ended(c)
    ensures Ended(Run(c, events)) && Spelled(Run(c, events)) == Spelled(c)
    ensures ReadableLength(Run(c, events).emitted) == ReadableLength(c.emitted)
    ensures ReadableLength(c.emitted) < |c.emitted| ==>
              ReadableLength(Run(c, events).emitted) < |Run(c, events).emitted|
    ensures c.sender.fatal ==> Run(c, events).sender.fatal && Run(c, events).emitted == c.emitted
    ensures c.emitted <= Run(c, events).emitted
    decreases |events|
  {
    if events != [] {
      StepStaysEnded(c, events[0]);
      StepExtends(c, events[0]);
      RunStaysEnded(Step(c, events[0]), events[1..]);
    }
  }

  /** A final whose id does not fit ends the readable part where it begins. */
  lemma UnreadableEnds(c: System, e: Event)
    requires Sound(c) && Whole(c) && !Ended(c) && !Readable(e)
    ensures Ended(Step(c, e)) && Spelled(Step(c, e)) == Spelled(c)
    ensures ReadableLength(Step(c, e).emitted) == |c.emitted|
    ensures !Step(c, e).sender.fatal ==> ReadableLength(Step(c, e).emitted) < |Step(c, e).emitted|
  {
    hide After, Deliveries, Clean, ReadableLength, LogOk;
    var bodies := Transaction(e.id, e.metadata, Content(e.original));
    FinalLogOk(c, e.id, e.metadata, e.original);
    EmitManySound(c, bodies);
    var n := |EmitMany(c, bodies).emitted|;
    var full := c.emitted + bodies;
    assert full[..n] == EmitMany(c, bodies).emitted;
    ReadablePrefix(full, n);
    assert full[..|c.emitted|] == c.emitted == EmitMany(c, bodies).emitted[..|c.emitted|];
    assert c.emitted[..|c.emitted|] == c.emitted;
  }

  lemma {:induction false} RunIntends(c: System, events: seq<Event>, said: seq<Delivery>)
    requires Sound(c) && Whole(c) && !Ended(c) && Spells(c, said)
    ensures Spells(Run(c, events), said + IntendedReadable(events))
    ensures !Ended(Run(c, events)) ==> AllReadable(events)
    ensures AllReadable(events) ==> ReadableLength(Run(c, events).emitted) == |Run(c, events).emitted|
    decreases |events|
  {
    hide After, Deliveries, Clean, ReadableLength, LogOk, Step;
    if events == [] {
      assert said + IntendedReadable(events) == said;
    } else {
      var e, rest := events[0], events[1..];
      assert events == [e] + rest;
      StepSound(c, e);
      if !Readable(e) {
        assert e in events;
        UnreadableEnds(c, e);
        RunStaysEnded(Step(c, e), rest);
        assert said + IntendedReadable(events) == said;
      } else {
        StepSpells(c, e, said);
        assert said + IntendedReadable(events) == said + Meant(e) + IntendedReadable(rest);
        if Step(c, e).sender.fatal {
          RunStaysEnded(Step(c, e), rest);
        } else {
          RunIntends(Step(c, e), rest, said + Meant(e));
        }
      }
    }
  }

  // ---- What the channel promises ------------------------------------------------------------------------

  /** On every run: acknowledged, applied and sent marks are ordered, and the queue holds exactly
      what is not acknowledged, without a gap. The worker has acted on exactly the finals and
      records that the first `highWater` emitted markers spell, in order and once each, however
      often connections were lost; these are a beginning of what the runner meant to say before
      its first final that the worker cannot read. */
  lemma DeliveredOnceInOrder(events: seq<Event>)
    ensures var c := Run(InitialSystem(), events);
            var readable := ReadableLength(c.emitted);
            && c.sender.acked <= c.highWater <= readable <= |c.emitted|
            && c.sender.acked <= c.sender.sentThrough <= |c.emitted|
            && c.sender.queue == Slice(c.emitted, c.sender.acked, |c.emitted|)
            && c.applied == Deliveries(c.emitted[..c.highWater])
            && c.applied <= Deliveries(c.emitted[..readable]) <= IntendedReadable(events) <= Intended(events)
            && (!c.sender.fatal ==> Deliveries(c.emitted[..readable]) == IntendedReadable(events))
            && (AllReadable(events) ==> readable == |c.emitted| && IntendedReadable(events) == Intended(events))
  {
    hide After, Deliveries, Clean, ReadableLength, LogOk;
    StartsSound();
    RunSound(InitialSystem(), events);
    RunIntends(InitialSystem(), events, []);
    var c := Run(InitialSystem(), events);
    assert [] + IntendedReadable(events) == IntendedReadable(events);
    IntendedSplits(events);
    DeliveriesGrow(c.emitted, c.highWater, ReadableLength(c.emitted));
  }

  lemma StartsSound()
    ensures Sound(InitialSystem()) && Whole(InitialSystem()) && !Ended(InitialSystem()) && Spells(InitialSystem(), [])
  {}

  /** Only such a final stalls the channel, and it does for good: whatever reconnects and
      resends follow, the worker never acts on it or on anything emitted after it. */
  lemma UnreadableStallsForever(before: seq<Event>, after: seq<Event>)
    requires var c := Run(InitialSystem(), before); ReadableLength(c.emitted) < |c.emitted|
    ensures var c, c' := Run(InitialSystem(), before), Run(InitialSystem(), before + after);
            && !AllReadable(before)
            && Unreadable(c.emitted[ReadableLength(c.emitted)])
            && c'.highWater <= ReadableLength(c.emitted) < |c.emitted| <= |c'.emitted|
            && c'.applied <= Deliveries(c.emitted[..ReadableLength(c.emitted)]) <= IntendedReadable(before)
  {
    hide After, Deliveries, Clean, ReadableLength, LogOk, Run;
    DeliveredOnceInOrder(before);
    DeliveredOnceInOrder(before + after);
    RunSplits(InitialSystem(), before, after);
    var c := Run(InitialSystem(), before);
    RunStaysEnded(c, after);
    ReadableStops(c.emitted);
  }

  lemma {:induction false} RunSplits(c: System, before: seq<Event>, after: seq<Event>)
    ensures Run(c, before + after) == Run(Run(c, before), after)
    decreases |before|
  {
    if before == [] {
      assert before + after == after;
    } else {
      assert (before + after)[1..] == before[1..] + after;
      RunSplits(Step(c, before[0]), before[1..], after);
    }
  }

  /** Nothing is left to do on the connection. */
  predicate Quiet(c: System) {
    !c.sender.fatal && c.sender.link == Up && c.connection.Some? && c.connection.value.waiting.None?
    && c.toWorker == [] && c.toRunner == []
  }

  /** Flushing keeps an accepted connection fully written. */
  predicate Flushed(c: System) {
    !c.sender.fatal && c.sender.link == Up ==> c.sender.sentThrough == c.sender.last
  }

  lemma EmitOneFlushes(c: System, b: Body)
    requires Sound(c) && Flushed(c)
    ensures Flushed(EmitOne(c, b))
  {
    if !c.sender.fatal && |c.sender.queue| < QUEUE_MAX_RECORDS {
      var s := c.sender.(last := c.sender.last + 1, queue := c.sender.queue + [Marker(c.sender.last + 1, b)]);
      SliceOfExtension(c.emitted, b, c.sender.acked, c.sender.last);
      FlushSends(s, c.emitted + [b]);
    }
  }

  lemma {:induction false} EmitManyFlushes(c: System, bodies: seq<Body>)
    requires Sound(c) && Flushed(c) && (!c.sender.fatal ==> LogOk(c.emitted + bodies))
    ensures Flushed(EmitMany(c, bodies))
    decreases |bodies|
  {
    if c.sender.fatal {
      FatalEmitsNothing(c, bodies);
    } else if bodies != [] {
      EmitOneFlushes(c, bodies[0]);
      FirstOfBatch(c, bodies);
      EmitManyFlushes(EmitOne(c, bodies[0]), bodies[1..]);
    }
  }

  lemma EmitFinalFlushes(c: System, id: FinalId, metadata: Token, original: seq<Byte>)
    requires Sound(c) && Whole(c) && Flushed(c)
    ensures Flushed(EmitMany(c, Transaction(id, metadata, Content(original))))
  {
    hide After, Deliveries, Clean, ReadableLength, LogOk;
    if !c.sender.fatal { FinalLogOk(c, id, metadata, original); }
    EmitManyFlushes(c, Transaction(id, metadata, Content(original)));
  }

  lemma StepFlushes(c: System, e: Event)
    requires Sound(c) && Whole(c) && Flushed(c)
    ensures Flushed(Step(c, e))
  {
    hide After, Deliveries, Clean, ReadableLength, LogOk, EmitOne, EmitMany, Transaction, OnMarker;
    match e {
      case EmitRecord(record) => EmitOneFlushes(c, Single(record));
      case EmitFinal(id, metadata, original) => EmitFinalFlushes(c, id, metadata, original);
      case WorkerAccepts => FlushSends(c.sender.(link := Up), c.emitted);
      case MarkerArrives => MarkerKeepsSender(c);
      case _ =>
    }
  }

  lemma MarkerKeepsSender(c: System)
    ensures OnMarker(c).sender == c.sender
  {}

  lemma {:induction false} RunFlushes(c: System, events: seq<Event>)
    requires Sound(c) && Whole(c) && Flushed(c)
    ensures Flushed(Run(c, events))
    decreases |events|
  {
    if events != [] {
      StepSound(c, events[0]);
      StepFlushes(c, events[0]);
      RunFlushes(Step(c, events[0]), events[1..]);
    }
  }

  /** The highest acknowledgement that has reached the runner or is on its way. */
  function Promised(c: System): nat {
    if c.toRunner == [] || c.toRunner[|c.toRunner| - 1] < c.sender.acked then c.sender.acked
    else c.toRunner[|c.toRunner| - 1]
  }

  /** Once an accepted connection has read through the high-water mark, that mark is acknowledged. */
  predicate Acknowledges(c: System) {
    c.sender.link == Up && c.connection.Some? && Position(c.connection.value) >= c.highWater ==> Promised(c) >= c.highWater
  }

  predicate KeepsPromises(c: System, c': System) {
    && c'.sender.acked == c.sender.acked && c'.sender.link == c.sender.link
    && c'.toRunner == c.toRunner && c'.connection == c.connection && c'.highWater == c.highWater
  }

  lemma {:induction false} EmittingKeepsPromises(c: System, bodies: seq<Body>)
    ensures KeepsPromises(c, EmitMany(c, bodies))
    decreases |bodies|
  {
    if bodies != [] {
      assert KeepsPromises(c, EmitOne(c, bodies[0]));
      EmittingKeepsPromises(EmitOne(c, bodies[0]), bodies[1..]);
    }
  }

  lemma ReadAcknowledges(c: System)
    requires Sound(c) && Acknowledges(c)
    ensures Acknowledges(OnMarker(c))
  {
    hide After, Deliveries, Clean, ReadableLength, LogOk, Assemble, Effect;
    if c.connection.Some? && c.connection.value.waiting.None? && c.toWorker != [] { ReadNext(c); }
  }

  /** Another connection than the one that began an application has not reached its end. */
  lemma OtherIsBehindFlight(c: System, k: Connection)
    requires Sound(c) && c.inFlight.Some? && c.connection == Some(k) && !AwaitsApplication(c, c.inFlight.value.0)
    ensures Position(k) < c.inFlight.value.0
  {
    NothingPastFlight(c, k);
  }

  lemma ApplicationAcknowledges(c: System, ok: bool)
    requires Sound(c) && Acknowledges(c)
    ensures Acknowledges(OnApplication(c, ok))
  {
    hide After, Deliveries, Clean, ReadableLength, LogOk;
    if c.inFlight.Some? && ok && c.connection.Some? {
      NothingPastFlight(c, c.connection.value);
      if !AwaitsApplication(c, c.inFlight.value.0) { OtherIsBehindFlight(c, c.connection.value); }
    }
  }

  lemma ArrivalAcknowledges(c: System)
    requires Sound(c) && Acknowledges(c)
    ensures Acknowledges(OnAckArrival(c))
  {
    hide After, Deliveries, Clean, ReadableLength, LogOk, DropThrough;
    if c.toRunner != [] && !c.sender.fatal {
      AckIsInRange(c);
      assert Promised(OnAckArrival(c)) >= Promised(c);
    }
  }

  lemma StepAcknowledges(c: System, e: Event)
    requires Sound(c) && Acknowledges(c)
    ensures Acknowledges(Step(c, e))
  {
    hide After, Deliveries, Clean, ReadableLength, LogOk, EmitMany, Transaction, OnMarker, OnApplication, OnAckArrival, Unsent;
    match e {
      case EmitRecord(record) =>
      case EmitFinal(id, metadata, original) => EmittingKeepsPromises(c, Transaction(id, metadata, Content(original)));
      case MarkerArrives => ReadAcknowledges(c);
      case ApplicationEnds(ok) => ApplicationAcknowledges(c, ok);
      case AckArrives => ArrivalAcknowledges(c);
      case _ =>
    }
  }

  lemma {:induction false} RunAcknowledges(c: System, events: seq<Event>)
    requires Sound(c) && Whole(c) && Acknowledges(c)
    ensures Acknowledges(Run(c, events))
    decreases |events|
  {
    if events != [] {
      StepSound(c, events[0]);
      StepAcknowledges(c, events[0]);
      RunAcknowledges(Step(c, events[0]), events[1..]);
    }
  }

  /** A quiet connection has read to the end, and the end is no transaction's middle. */
  lemma QuietHasReadAll(c: System)
    requires Sound(c) && Whole(c) && Flushed(c) && Quiet(c)
    ensures c.highWater == ReadableLength(c.emitted) == |c.emitted|
  {
    assert c.emitted[..|c.emitted|] == c.emitted;
  }

  lemma QuietIsAcknowledged(c: System)
    requires Sound(c) && Flushed(c) && Quiet(c) && Acknowledges(c) && c.highWater == |c.emitted|
    ensures c.sender.acked == |c.emitted| && c.sender.queue == []
  {
    hide After, Deliveries, Clean, ReadableLength, LogOk;
  }

  /** No loss, on every run: when an accepted connection has nothing left to read, every final
      was readable, the worker has acted on everything the runner ever meant to say, and the runner
      knows: all of it is acknowledged and nothing waits in its queue. */
  lemma QuietMeansComplete(events: seq<Event>)
    requires Quiet(Run(InitialSystem(), events))
    ensures var c := Run(InitialSystem(), events);
            && AllReadable(events) && c.highWater == |c.emitted| && c.applied == Intended(events)
            && c.sender.acked == |c.emitted| && c.sender.queue == []
  {
    hide After, Deliveries, Clean, ReadableLength, LogOk;
    var c := Run(InitialSystem(), events);
    StartsSound();
    RunSound(InitialSystem(), events);
    RunFlushes(InitialSystem(), events);
    RunAcknowledges(InitialSystem(), events);
    QuietHasReadAll(c);
    QuietIsAcknowledged(c);
    RunIntends(InitialSystem(), events, []);
    DeliveredOnceInOrder(events);
  }
}
