/** The dsh runner's turns. A prompt's acknowledgement may arrive anywhere among the session's
    notifications; until it names the prompt's message, and that message's receipt has been
    seen, notifications are only buffered. */
module DshTurn {
  import opened Prelude

  type SessionId = nat

  /** A usage record as received: None where a field is no integer. */
  datatype RawUsage = RawUsage(input: Option<int>, output: Option<int>, cacheRead: Option<int>, cacheWrite: Option<int>)

  datatype Usage = Usage(input: nat, output: nat, cacheRead: nat, cacheCreate: nat)

  /** `blocks` holds the text of each text block, None for any other block. */
  datatype SessionEvent =
    | Spliced(inserted: seq<string>)
    | TurnEnd(failure: Option<string>)
    | AssistantMessage(blocks: Option<seq<Option<string>>>, usage: Option<RawUsage>)
    | OtherEvent

  datatype Notification =
    | EventNote(session: SessionId, event: SessionEvent)
    | StatusNote(session: SessionId, idle: bool)
    | SubagentNote

  /** What a turn has heard so far, and, once it is idle, its outcome. */
  datatype Heard = Heard(text: string, usage: Option<Usage>, failure: Option<string>)

  const SILENCE := Heard("", None, None)

  // ---- Reading one notification ----------------------------------------------------------

  predicate IsInboxReceipt(n: Notification, messageId: string) {
    n.EventNote? && n.event.Spliced? && messageId in n.event.inserted
  }

  function Count(v: Option<int>): Option<nat> {
    if v.Some? && v.value >= 0 then Some(v.value) else None
  }

  function OrZero(v: Option<nat>): nat {
    if v.Some? then v.value else 0
  }

  function NormalizeUsage(raw: Option<RawUsage>): Option<Usage> {
    if raw.None? || Count(raw.value.input).None? || Count(raw.value.output).None? then None
    else
      Some(Usage(Count(raw.value.input).value, Count(raw.value.output).value,
                 OrZero(Count(raw.value.cacheRead)), OrZero(Count(raw.value.cacheWrite))))
  }

  function AddUsage(a: Usage, b: Usage): Usage {
    Usage(a.input + b.input, a.output + b.output, a.cacheRead + b.cacheRead, a.cacheCreate + b.cacheCreate)
  }

  function Joined(blocks: seq<Option<string>>): string {
    if blocks == [] then ""
    else (if blocks[0].Some? then blocks[0].value else "") + Joined(blocks[1..])
  }

  function Accumulated(usage: Option<Usage>, counted: Option<Usage>): Option<Usage> {
    if counted.None? then usage else if usage.None? then counted else Some(AddUsage(usage.value, counted.value))
  }

  /** handleSessionEvent: the last message's text, all messages' usage, the last failure. */
  function Hear(h: Heard, e: SessionEvent): Heard {
    match e
    case TurnEnd(failure) => if failure.Some? then h.(failure := failure) else h
    case AssistantMessage(blocks, raw) =>
      h.(text := if blocks.Some? then Joined(blocks.value) else h.text, usage := Accumulated(h.usage, NormalizeUsage(raw)))
    case _ => h
  }

  // ---- Offline: the whole stream at once ----------------------------------------------------

  predicate OfSession(n: Notification, session: SessionId) {
    !n.SubagentNote? && n.session == session
  }

  function Own(notes: seq<Notification>, session: SessionId): seq<Notification> {
    if notes == [] then []
    else Own(notes[..|notes| - 1], session)
         + if OfSession(notes[|notes| - 1], session) then [notes[|notes| - 1]] else []
  }

  function FirstReceipt(notes: seq<Notification>, messageId: string): Option<nat> {
    if notes == [] then None
    else if IsInboxReceipt(notes[0], messageId) then Some(0)
    else
      var later := FirstReceipt(notes[1..], messageId);
      if later.Some? then Some(later.value + 1) else None
  }

  /** What the turn has heard when it first goes idle. */
  function FoldToIdle(h: Heard, notes: seq<Notification>): Option<Heard>
    decreases |notes|
  {
    if notes == [] then None
    else
      match notes[0]
      case EventNote(_, event) => FoldToIdle(Hear(h, event), notes[1..])
      case StatusNote(_, idle) => if idle then Some(h) else FoldToIdle(h, notes[1..])
      case SubagentNote => FoldToIdle(h, notes[1..])
  }

  /** Drop everything up to and including the first receipt of the message, then fold to the
      first idle. */
  function Offline(notes: seq<Notification>, session: SessionId, messageId: string): Option<Heard> {
    var own := Own(notes, session);
    var receipt := FirstReceipt(own, messageId);
    if messageId == "" || receipt.None? || receipt.value >= |own| then None
    else FoldToIdle(SILENCE, own[receipt.value + 1..])
  }

  // ---- Live: one notification at a time -------------------------------------------------------

  datatype Live =
    Live(messageId: Option<string>, pending: seq<Notification>, claimed: bool, heard: Heard, settled: Option<Heard>)

  const FRESH := Live(None, [], false, SILENCE, None)

  /** processTurnNotification; settling a turn twice is impossible. */
  function Process(l: Live, n: Notification): Live {
    match n
    case EventNote(_, event) => l.(heard := Hear(l.heard, event))
    case StatusNote(_, idle) => if idle && l.settled.None? then l.(settled := Some(l.heard)) else l
    case SubagentNote => l
  }

  function ProcessAll(l: Live, notes: seq<Notification>): Live
    decreases |notes|
  {
    if notes == [] then l else ProcessAll(Process(l, notes[0]), notes[1..])
  }

  /** tryClaimReceipt */
  function TryClaim(l: Live): Live {
    if l.claimed || l.messageId.None? || l.messageId.value == "" then l
    else
      var receipt := FirstReceipt(l.pending, l.messageId.value);
      if receipt.None? || receipt.value >= |l.pending| then l
      else ProcessAll(l.(claimed := true, pending := []), l.pending[receipt.value + 1..])
  }

  /** handleNotification, for the turn that was begun last. */
  function OnNotification(l: Live, session: SessionId, n: Notification): Live {
    if !OfSession(n, session) || l.settled.Some? then l
    else if !l.claimed then TryClaim(l.(pending := l.pending + [n]))
    else Process(l, n)
  }

  function OnAck(l: Live, messageId: string): Live {
    if l.settled.Some? then l else TryClaim(l.(messageId := Some(messageId)))
  }

  function Deliver(l: Live, session: SessionId, notes: seq<Notification>): Live
    decreases |notes|
  {
    if notes == [] then l else Deliver(OnNotification(l, session, notes[0]), session, notes[1..])
  }

  // ---- The runner, in place ----------------------------------------------------------------------

  class PendingTurn {
    var messageId: Option<string>
    var pending: seq<Notification>
    var receiptReceived: bool
    var textBuffer: string
    var usage: Option<Usage>
    var turnError: Option<string>

    constructor ()
      ensures messageId.None? && pending == [] && !receiptReceived
      ensures textBuffer == "" && usage.None? && turnError.None?
    {
      messageId, pending, receiptReceived, textBuffer, usage, turnError := None, [], false, "", None, None;
    }

    function HeardSoFar(): Heard
      reads this
    {
      Heard(textBuffer, usage, turnError)
    }
  }

  class DshRunner {
    const session: SessionId
    var activeTurn: PendingTurn?
    /** The last settled turn: lastTurnText, lastTurnUsage and lastTurnError. */
    var lastTurn: Option<Heard>

    /** The turn begun last; it is settled once it is no longer the active one. */
    ghost function View(turn: PendingTurn): Live
      reads this, turn
    {
      Live(turn.messageId, turn.pending, turn.receiptReceived, turn.HeardSoFar(),
           if activeTurn == turn then None else lastTurn)
    }

    ghost predicate Valid(turn: PendingTurn)
      reads this
    {
      activeTurn == turn || (activeTurn == null && lastTurn.Some?)
    }

    constructor (session: SessionId)
      ensures this.session == session && activeTurn == null
    {
      this.session, activeTurn, lastTurn := session, null, None;
    }

    /** runTurn up to its request. */
    method BeginTurn() returns (turn: PendingTurn)
      modifies this
      ensures fresh(turn) && Valid(turn) && View(turn) == FRESH
    {
      turn := new PendingTurn();
      activeTurn := turn;
      lastTurn := None;
    }

    method HandleSessionEvent(turn: PendingTurn, event: SessionEvent)
      modifies turn`textBuffer, turn`usage, turn`turnError
      ensures turn.HeardSoFar() == Hear(old(turn.HeardSoFar()), event)
    {
      match event {
        case TurnEnd(failure) =>
          if failure.Some? { turn.turnError := failure; }
        case AssistantMessage(blocks, raw) =>
          if blocks.Some? { turn.textBuffer := Joined(blocks.value); }
          var counted := NormalizeUsage(raw);
          if counted.Some? {
            turn.usage := if turn.usage.Some? then Some(AddUsage(turn.usage.value, counted.value)) else counted;
          }
        case _ =>
      }
    }

    method ProcessTurnNotification(turn: PendingTurn, n: Notification)
      requires Valid(turn)
      modifies this, turn`textBuffer, turn`usage, turn`turnError
      ensures Valid(turn) && View(turn) == Process(old(View(turn)), n)
    {
      if n.EventNote? {
        HandleSessionEvent(turn, n.event);
      } else if n.StatusNote? && n.idle && activeTurn == turn {
        activeTurn := null;
        lastTurn := Some(turn.HeardSoFar());
      }
    }

    method FindReceipt(pending: seq<Notification>, messageId: string) returns (index: Option<nat>)
      ensures index == FirstReceipt(pending, messageId)
    {
      var k := 0;
      while k < |pending|
        invariant k <= |pending|
        invariant FirstReceipt(pending, messageId)
               == var later := FirstReceipt(pending[k..], messageId); if later.Some? then Some(later.value + k) else None
      {
        if IsInboxReceipt(pending[k], messageId) { return Some(k); }
        assert pending[k..][1..] == pending[k + 1..];
        k := k + 1;
      }
      return None;
    }

    method TryClaimReceipt(turn: PendingTurn)
      requires Valid(turn)
      modifies this, turn
      ensures Valid(turn) && View(turn) == TryClaim(old(View(turn)))
    {
      if turn.receiptReceived || turn.messageId.None? || turn.messageId.value == "" { return; }
      var index := FindReceipt(turn.pending, turn.messageId.value);
      if index.None? || index.value >= |turn.pending| { return; }
      turn.receiptReceived := true;
      var queued := turn.pending[index.value + 1..];
      turn.pending := [];
      ghost var claimed := View(turn);
      var k := 0;
      while k < |queued|
        invariant k <= |queued| && Valid(turn)
        invariant ProcessAll(View(turn), queued[k..]) == ProcessAll(claimed, queued)
      {
        assert queued[k..][1..] == queued[k + 1..];
        ProcessTurnNotification(turn, queued[k]);
        k := k + 1;
      }
    }

    method HandleNotification(n: Notification, ghost turn: PendingTurn)
      requires Valid(turn)
      modifies this, turn
      ensures Valid(turn) && View(turn) == OnNotification(old(View(turn)), session, n)
    {
      if n.SubagentNote? || n.session != session { return; }
      var active := activeTurn;
      if active == null { return; }
      if !active.receiptReceived {
        active.pending := active.pending + [n];
        TryClaimReceipt(active);
        return;
      }
      ProcessTurnNotification(active, n);
    }

    /** runTurn once its request is answered. */
    method HandleAck(messageId: string, ghost turn: PendingTurn)
      requires Valid(turn)
      modifies this, turn
      ensures Valid(turn) && View(turn) == OnAck(old(View(turn)), messageId)
    {
      var active := activeTurn;
      if active != null {
        active.messageId := Some(messageId);
        TryClaimReceipt(active);
      }
    }
  }

  // ---- The place of the acknowledgement does not matter ----------------------------------------------

  lemma OwnAppend(notes: seq<Notification>, session: SessionId, n: Notification)
    ensures Own(notes + [n], session) == Own(notes, session) + if OfSession(n, session) then [n] else []
  {
    assert (notes + [n])[..|notes|] == notes;
  }

  lemma {:induction false} FirstReceiptIsFirst(notes: seq<Notification>, messageId: string)
    ensures match FirstReceipt(notes, messageId)
            case None => forall i | 0 <= i < |notes| :: !IsInboxReceipt(notes[i], messageId)
            case Some(k) => k < |notes| && IsInboxReceipt(notes[k], messageId)
                            && forall i | 0 <= i < k :: !IsInboxReceipt(notes[i], messageId)
  {
    if notes != [] {
      FirstReceiptIsFirst(notes[1..], messageId);
      assert forall i | 0 <= i < |notes[1..]| :: notes[1..][i] == notes[i + 1];
    }
  }

  lemma ReceiptOfExtension(notes: seq<Notification>, n: Notification, messageId: string)
    ensures FirstReceipt(notes + [n], messageId)
         == if FirstReceipt(notes, messageId).Some? then FirstReceipt(notes, messageId)
            else if IsInboxReceipt(n, messageId) then Some(|notes|)
            else None
  {
    FirstReceiptIsFirst(notes, messageId);
    FirstReceiptIsFirst(notes + [n], messageId);
    var before, after := FirstReceipt(notes, messageId), FirstReceipt(notes + [n], messageId);
    assert forall i | 0 <= i < |notes| :: (notes + [n])[i] == notes[i];
    if before.Some? {
      assert after.Some? by { assert IsInboxReceipt((notes + [n])[before.value], messageId); }
      assert forall i | 0 <= i < before.value :: !IsInboxReceipt((notes + [n])[i], messageId);
    } else if IsInboxReceipt(n, messageId) {
      assert IsInboxReceipt((notes + [n])[|notes|], messageId);
    }
  }

  /** What the turn heard of a stretch that contains no idle, or up to its first idle. */
  function HeardOf(h: Heard, notes: seq<Notification>): Heard
    decreases |notes|
  {
    if notes == [] then h
    else if notes[0].EventNote? then HeardOf(Hear(h, notes[0].event), notes[1..])
    else if notes[0].StatusNote? && notes[0].idle then h
    else HeardOf(h, notes[1..])
  }

  lemma {:induction false} FoldOfExtension(h: Heard, notes: seq<Notification>, n: Notification)
    ensures FoldToIdle(h, notes + [n])
         == if FoldToIdle(h, notes).Some? then FoldToIdle(h, notes)
            else if n.StatusNote? && n.idle then Some(HeardOf(h, notes))
            else None
    ensures FoldToIdle(h, notes).None? ==>
              HeardOf(h, notes + [n]) == if n.EventNote? then Hear(HeardOf(h, notes), n.event) else HeardOf(h, notes)
    decreases |notes|
  {
    if notes != [] {
      assert (notes + [n])[1..] == notes[1..] + [n];
      match notes[0] {
        case EventNote(_, event) => FoldOfExtension(Hear(h, event), notes[1..], n);
        case StatusNote(_, idle) => if !idle { FoldOfExtension(h, notes[1..], n); }
        case SubagentNote => FoldOfExtension(h, notes[1..], n);
      }
    }
  }

  lemma {:induction false} ProcessAllFolds(l: Live, notes: seq<Notification>)
    requires l.settled.None?
    ensures var l' := ProcessAll(l, notes);
            && l'.settled == FoldToIdle(l.heard, notes)
            && (l'.settled.None? ==> l'.heard == HeardOf(l.heard, notes))
            && l'.claimed == l.claimed && l'.messageId == l.messageId && l'.pending == l.pending
    decreases |notes|
  {
    if notes != [] {
      var l1 := Process(l, notes[0]);
      if l1.settled.None? {
        ProcessAllFolds(l1, notes[1..]);
      } else {
        SettledStays(l1, notes[1..]);
      }
    }
  }

  lemma {:induction false} SettledStays(l: Live, notes: seq<Notification>)
    requires l.settled.Some?
    ensures var l' := ProcessAll(l, notes);
            l'.settled == l.settled && l'.claimed == l.claimed && l'.messageId == l.messageId && l'.pending == l.pending
    decreases |notes|
  {
    if notes != [] { SettledStays(Process(l, notes[0]), notes[1..]); }
  }

  /** The live turn after `notes`, before its acknowledgement: everything is buffered. */
  predicate Buffering(l: Live, notes: seq<Notification>, session: SessionId) {
    l == FRESH.(pending := Own(notes, session))
  }

  /** The live turn after `notes` and its acknowledgement agrees with the offline reading. */
  predicate InStep(l: Live, notes: seq<Notification>, session: SessionId, messageId: string) {
    && l.settled == Offline(notes, session, messageId)
    && (l.settled.None? ==>
        var own := Own(notes, session);
        var receipt := FirstReceipt(own, messageId);
        && l.messageId == Some(messageId)
        && l.claimed == (messageId != "" && receipt.Some?)
        && (!l.claimed ==> l.pending == own && l.heard == SILENCE)
        && (l.claimed ==> receipt.value < |own| && l.heard == HeardOf(SILENCE, own[receipt.value + 1..])))
  }

  lemma ClaimInStep(l: Live, notes: seq<Notification>, session: SessionId, messageId: string)
    requires l == Live(Some(messageId), Own(notes, session), false, SILENCE, None)
    ensures InStep(TryClaim(l), notes, session, messageId)
  {
    FirstReceiptIsFirst(l.pending, messageId);
    var receipt := FirstReceipt(l.pending, messageId);
    if messageId != "" && receipt.Some? {
      ProcessAllFolds(l.(claimed := true, pending := []), l.pending[receipt.value + 1..]);
    }
  }

  lemma NotificationInStep(l: Live, notes: seq<Notification>, session: SessionId, messageId: string, n: Notification)
    requires InStep(l, notes, session, messageId)
    ensures InStep(OnNotification(l, session, n), notes + [n], session, messageId)
  {
    OwnAppend(notes, session, n);
    var own := Own(notes, session);
    FirstReceiptIsFirst(own, messageId);
    if !OfSession(n, session) {
      assert own + [] == own;
    } else {
      ReceiptOfExtension(own, n, messageId);
      var receipt := FirstReceipt(own, messageId);
      if l.settled.None? && !l.claimed {
        ClaimInStep(l.(pending := own + [n]), notes + [n], session, messageId);
      } else if receipt.Some? {
        assert (own + [n])[receipt.value + 1..] == own[receipt.value + 1..] + [n];
        FoldOfExtension(SILENCE, own[receipt.value + 1..], n);
      }
    }
  }

  lemma {:induction false} DeliverSnoc(l: Live, session: SessionId, notes: seq<Notification>, n: Notification)
    ensures Deliver(l, session, notes + [n]) == OnNotification(Deliver(l, session, notes), session, n)
    decreases |notes|
  {
    if notes != [] {
      assert (notes + [n])[1..] == notes[1..] + [n];
      DeliverSnoc(OnNotification(l, session, notes[0]), session, notes[1..], n);
    }
  }

  lemma {:induction false} BufferedBeforeAck(session: SessionId, notes: seq<Notification>)
    ensures Buffering(Deliver(FRESH, session, notes), notes, session)
    decreases |notes|
  {
    if notes != [] {
      var last := |notes| - 1;
      BufferedBeforeAck(session, notes[..last]);
      DeliverSnoc(FRESH, session, notes[..last], notes[last]);
      OwnAppend(notes[..last], session, notes[last]);
      assert notes == notes[..last] + [notes[last]];
    }
  }

  lemma {:induction false} InStepAfterAck(
    l: Live, before: seq<Notification>, later: seq<Notification>, session: SessionId, messageId: string)
    requires InStep(l, before, session, messageId)
    ensures InStep(Deliver(l, session, later), before + later, session, messageId)
    decreases |later|
  {
    if later == [] {
      assert before + later == before;
    } else {
      NotificationInStep(l, before, session, messageId, later[0]);
      InStepAfterAck(OnNotification(l, session, later[0]), before + [later[0]], later[1..], session, messageId);
      assert before + [later[0]] + later[1..] == before + later;
    }
  }

  /** Wherever the acknowledgement falls among the notifications, the turn's outcome — and
      the moment it is reached — is that of the offline reading. */
  lemma AckPlacementDoesNotMatter(session: SessionId, before: seq<Notification>, later: seq<Notification>, messageId: string)
    ensures Deliver(OnAck(Deliver(FRESH, session, before), messageId), session, later).settled
         == Offline(before + later, session, messageId)
  {
    BufferedBeforeAck(session, before);
    var l := Deliver(FRESH, session, before);
    ClaimInStep(l.(messageId := Some(messageId)), before, session, messageId);
    InStepAfterAck(OnAck(l, messageId), before, later, session, messageId);
  }

  /** A stale idle never settles a turn: a settled turn has an own receipt with an idle after
      it, and conversely such a pair settles it. */
  lemma SettledMeansReceiptThenIdle(notes: seq<Notification>, session: SessionId, messageId: string)
    requires messageId != ""
    ensures Offline(notes, session, messageId).Some?
       <==> exists i, j :: 0 <= i < j < |Own(notes, session)| && IsInboxReceipt(Own(notes, session)[i], messageId)
                           && Own(notes, session)[j] == StatusNote(session, true)
  {
    var own := Own(notes, session);
    OwnAreOfSession(notes, session);
    FirstReceiptIsFirst(own, messageId);
    var receipt := FirstReceipt(own, messageId);
    if receipt.Some? {
      FoldFindsIdle(SILENCE, own[receipt.value + 1..]);
      if j :| receipt.value < j < |own| && own[j] == StatusNote(session, true) {
        assert own[receipt.value + 1..][j - receipt.value - 1] == own[j];
      }
    }
  }

  lemma {:induction false} OwnAreOfSession(notes: seq<Notification>, session: SessionId)
    ensures forall i | 0 <= i < |Own(notes, session)| :: OfSession(Own(notes, session)[i], session)
  {
    if notes != [] { OwnAreOfSession(notes[..|notes| - 1], session); }
  }

  lemma {:induction false} FoldFindsIdle(h: Heard, notes: seq<Notification>)
    ensures FoldToIdle(h, notes).Some? <==> exists i | 0 <= i < |notes| :: notes[i].StatusNote? && notes[i].idle
    decreases |notes|
  {
    if notes != [] {
      assert forall i | 0 <= i < |notes[1..]| :: notes[1..][i] == notes[i + 1];
      match notes[0] {
        case EventNote(_, event) => FoldFindsIdle(Hear(h, event), notes[1..]);
        case StatusNote(_, idle) => if !idle { FoldFindsIdle(h, notes[1..]); }
        case SubagentNote => FoldFindsIdle(h, notes[1..]);
      }
    }
  }

  // ---- The summed usage --------------------------------------------------------------------------------

  const NO_USAGE := Usage(0, 0, 0, 0)

  function Spent(usage: Option<Usage>): Usage {
    if usage.Some? then usage.value else NO_USAGE
  }

  function Metered(n: Notification): Option<Usage> {
    if n.EventNote? && n.event.AssistantMessage? then NormalizeUsage(n.event.usage) else None
  }

  /** The usage of every model call up to the first idle. */
  function TotalToIdle(notes: seq<Notification>): Usage {
    if notes == [] || (notes[0].StatusNote? && notes[0].idle) then NO_USAGE
    else AddUsage(Spent(Metered(notes[0])), TotalToIdle(notes[1..]))
  }

  lemma HearMeters(h: Heard, n: Notification)
    requires n.EventNote?
    ensures Hear(h, n.event).usage == Accumulated(h.usage, Metered(n))
  {}

  lemma AccumulatedSpends(usage: Option<Usage>, counted: Option<Usage>, rest: Usage)
    ensures AddUsage(Spent(Accumulated(usage, counted)), rest) == AddUsage(Spent(usage), AddUsage(Spent(counted), rest))
  {}

  lemma NothingAdded(u: Usage)
    ensures AddUsage(u, NO_USAGE) == u && AddUsage(NO_USAGE, u) == u
  {}

  lemma TotalStep(notes: seq<Notification>)
    requires notes != []
    ensures notes[0].EventNote? ==>
              TotalToIdle(notes) == AddUsage(Spent(Metered(notes[0])), TotalToIdle(notes[1..]))
    ensures !notes[0].EventNote? ==>
              TotalToIdle(notes) == if notes[0].StatusNote? && notes[0].idle then NO_USAGE else TotalToIdle(notes[1..])
  {
    NothingAdded(TotalToIdle(notes[1..]));
  }

  lemma FoldStep(h: Heard, notes: seq<Notification>)
    requires notes != []
    ensures notes[0].EventNote? ==> FoldToIdle(h, notes) == FoldToIdle(Hear(h, notes[0].event), notes[1..])
    ensures !notes[0].EventNote? ==>
              FoldToIdle(h, notes) == if notes[0].StatusNote? && notes[0].idle then Some(h) else FoldToIdle(h, notes[1..])
  {}

  /** The turn's usage is the sum over its model calls; none is dropped or counted twice. */
  lemma {:induction false} UsageIsSummed(h: Heard, notes: seq<Notification>)
    ensures FoldToIdle(h, notes).Some? ==>
              Spent(FoldToIdle(h, notes).value.usage) == AddUsage(Spent(h.usage), TotalToIdle(notes))
    decreases |notes|
  {
    if notes != [] {
      var first, rest := notes[0], notes[1..];
      FoldStep(h, notes);
      TotalStep(notes);
      if first.EventNote? {
        HearMeters(h, first);
        AccumulatedSpends(h.usage, Metered(first), TotalToIdle(rest));
        UsageIsSummed(Hear(h, first.event), rest);
      } else if first.StatusNote? && first.idle {
        NothingAdded(Spent(h.usage));
      } else {
        UsageIsSummed(h, rest);
      }
    }
  }

  // ---- The text and the failure of a turn -----------------------------------------------------------------

  /** The text of a message is that of its text blocks, one after the other. */
  lemma {:induction false} JoinedIsConcatenation(before: seq<Option<string>>, after: seq<Option<string>>)
    ensures Joined(before + after) == Joined(before) + Joined(after)
    ensures Joined([]) == "" && Joined([None]) == "" && forall text :: Joined([Some(text)]) == text
    decreases |before|
  {
    forall block: Option<string> ensures Joined([block]) == if block.Some? then block.value else "" {
      assert [block][1..] == [];
    }
    if before == [] {
      assert before + after == after;
    } else {
      assert (before + after)[1..] == before[1..] + after;
      JoinedIsConcatenation(before[1..], after);
    }
  }

  /** An assistant message that has a list of blocks. */
  predicate Speaks(n: Notification) {
    n.EventNote? && n.event.AssistantMessage? && n.event.blocks.Some?
  }

  predicate Fails(n: Notification) {
    n.EventNote? && n.event.TurnEnd? && n.event.failure.Some?
  }

  predicate GoesIdle(n: Notification) {
    n.StatusNote? && n.idle
  }

  predicate LastSpeakerAt(notes: seq<Notification>, from: nat, to: nat, k: nat)
    requires to <= |notes|
  {
    from <= k < to && Speaks(notes[k]) && forall i | k < i < to :: !Speaks(notes[i])
  }

  predicate LastFailureAt(notes: seq<Notification>, from: nat, to: nat, k: nat)
    requires to <= |notes|
  {
    from <= k < to && Fails(notes[k]) && forall i | k < i < to :: !Fails(notes[i])
  }

  /** What the stretch leaves of a turn that had heard `h`: the last message's text and the last
      failure, or what was there before. */
  predicate LeavesText(h: Heard, notes: seq<Notification>, from: nat, to: nat, h': Heard)
    requires to <= |notes|
  {
    && (forall k | from <= k < to && LastSpeakerAt(notes, from, to, k) :: h'.text == Joined(notes[k].event.blocks.value))
    && ((forall k | from <= k < to :: !Speaks(notes[k])) ==> h'.text == h.text)
    && (forall k | from <= k < to && LastFailureAt(notes, from, to, k) :: h'.failure == notes[k].event.failure)
    && ((forall k | from <= k < to :: !Fails(notes[k])) ==> h'.failure == h.failure)
  }

  lemma HearLeaves(h: Heard, n: Notification)
    requires n.EventNote?
    ensures var h' := Hear(h, n.event);
            && h'.text == (if Speaks(n) then Joined(n.event.blocks.value) else h.text)
            && h'.failure == (if Fails(n) then n.event.failure else h.failure)
  {}

  lemma {:induction false} FoldLeavesText(h: Heard, notes: seq<Notification>) returns (idle: nat)
    requires FoldToIdle(h, notes).Some?
    ensures idle < |notes| && GoesIdle(notes[idle]) && forall i | 0 <= i < idle :: !GoesIdle(notes[i])
    ensures LeavesText(h, notes, 0, idle, FoldToIdle(h, notes).value)
    decreases |notes|
  {
    hide FoldToIdle, Hear, LeavesText;
    FoldToIdleOfNothing(h);
    FoldStep(h, notes);
    var first, rest := notes[0], notes[1..];
    var h1 := if first.EventNote? then Hear(h, first.event) else h;
    if first.EventNote? { HearLeaves(h, first); }
    if GoesIdle(first) {
      idle := 0;
      NothingLeft(h, notes);
    } else {
      var later := FoldLeavesText(h1, rest);
      idle := later + 1;
      LeavesFirst(h, notes, h1, later, FoldToIdle(h, notes).value);
    }
  }

  lemma FoldToIdleOfNothing(h: Heard)
    ensures FoldToIdle(h, []) == None
  {}

  lemma NothingLeft(h: Heard, notes: seq<Notification>)
    ensures LeavesText(h, notes, 0, 0, h)
  {}

  lemma LeavesFirst(h: Heard, notes: seq<Notification>, h1: Heard, later: nat, h': Heard)
    requires later < |notes| - 1 && LeavesText(h1, notes[1..], 0, later, h')
    requires h1.text == if Speaks(notes[0]) then Joined(notes[0].event.blocks.value) else h.text
    requires h1.failure == if Fails(notes[0]) then notes[0].event.failure else h.failure
    ensures LeavesText(h, notes, 0, later + 1, h')
  {
    hide Joined;
    var rest := notes[1..];
    assert forall i | 0 <= i < |rest| :: rest[i] == notes[i + 1];
    forall k | 0 <= k < later + 1 && LastSpeakerAt(notes, 0, later + 1, k)
      ensures h'.text == Joined(notes[k].event.blocks.value)
    {
      if k == 0 {
        forall i | 0 <= i < later ensures !Speaks(rest[i]) { assert !Speaks(notes[i + 1]); }
      } else {
        forall i | k - 1 < i < later ensures !Speaks(rest[i]) { assert !Speaks(notes[i + 1]); }
        assert LastSpeakerAt(rest, 0, later, k - 1);
      }
    }
    forall k | 0 <= k < later + 1 && LastFailureAt(notes, 0, later + 1, k) ensures h'.failure == notes[k].event.failure {
      if k == 0 {
        forall i | 0 <= i < later ensures !Fails(rest[i]) { assert !Fails(notes[i + 1]); }
      } else {
        forall i | k - 1 < i < later ensures !Fails(rest[i]) { assert !Fails(notes[i + 1]); }
        assert LastFailureAt(rest, 0, later, k - 1);
      }
    }
    if forall k | 0 <= k < later + 1 :: !Speaks(notes[k]) {
      forall i | 0 <= i < later ensures !Speaks(rest[i]) { assert !Speaks(notes[i + 1]); }
      assert !Speaks(notes[0]);
    }
    if forall k | 0 <= k < later + 1 :: !Fails(notes[k]) {
      forall i | 0 <= i < later ensures !Fails(rest[i]) { assert !Fails(notes[i + 1]); }
      assert !Fails(notes[0]);
    }
  }

  /** The turn spans from the first receipt of its message to the first idle after it. */
  predicate Spans(own: seq<Notification>, messageId: string, receipt: nat, idle: nat) {
    && receipt < idle < |own|
    && IsInboxReceipt(own[receipt], messageId) && (forall i | 0 <= i < receipt :: !IsInboxReceipt(own[i], messageId))
    && GoesIdle(own[idle]) && forall i | receipt < i < idle :: !GoesIdle(own[i])
  }

  lemma LeavesLater(h: Heard, notes: seq<Notification>, past: nat, idle: nat, h': Heard)
    requires past <= |notes| && idle < |notes| - past && LeavesText(h, notes[past..], 0, idle, h')
    ensures LeavesText(h, notes, past, past + idle, h')
  {
    hide Joined;
    var rest := notes[past..];
    assert forall i | 0 <= i < |rest| :: rest[i] == notes[i + past];
    forall k | past <= k < past + idle && LastSpeakerAt(notes, past, past + idle, k)
      ensures h'.text == Joined(notes[k].event.blocks.value)
    {
      forall i | k - past < i < idle ensures !Speaks(rest[i]) { assert !Speaks(notes[i + past]); }
      assert LastSpeakerAt(rest, 0, idle, k - past);
    }
    forall k | past <= k < past + idle && LastFailureAt(notes, past, past + idle, k) ensures h'.failure == notes[k].event.failure {
      forall i | k - past < i < idle ensures !Fails(rest[i]) { assert !Fails(notes[i + past]); }
      assert LastFailureAt(rest, 0, idle, k - past);
    }
    if forall k | past <= k < past + idle :: !Speaks(notes[k]) {
      forall i | 0 <= i < idle ensures !Speaks(rest[i]) { assert !Speaks(notes[i + past]); }
    }
    if forall k | past <= k < past + idle :: !Fails(notes[k]) {
      forall i | 0 <= i < idle ensures !Fails(rest[i]) { assert !Fails(notes[i + past]); }
    }
  }

  // ---- The usage of a turn, field by field ---------------------------------------------------------------

  /** A model call whose usage counts: both its input and its output are numbers that are not negative. */
  predicate IsMetered(n: Notification) {
    && n.EventNote? && n.event.AssistantMessage? && n.event.usage.Some?
    && var raw := n.event.usage.value;
    raw.input.Some? && raw.input.value >= 0 && raw.output.Some? && raw.output.value >= 0
  }

  datatype Field = INPUT | OUTPUT | CACHE_READ | CACHE_WRITE

  function Reading(raw: RawUsage, field: Field): Option<int> {
    match field
    case INPUT => raw.input
    case OUTPUT => raw.output
    case CACHE_READ => raw.cacheRead
    case CACHE_WRITE => raw.cacheWrite
  }

  /** One field of one metered call; what is no number, or a negative one, counts nothing. */
  function Reads(n: Notification, field: Field): nat {
    if !IsMetered(n) then 0
    else
      var reading := Reading(n.event.usage.value, field);
      if reading.Some? && reading.value >= 0 then reading.value else 0
  }

  /** The sum of one field over the model calls up to the first idle. */
  function SumToIdle(notes: seq<Notification>, field: Field): nat {
    if notes == [] || GoesIdle(notes[0]) then 0 else Reads(notes[0], field) + SumToIdle(notes[1..], field)
  }

  predicate IsByField(u: Usage, input: nat, output: nat, cacheRead: nat, cacheWrite: nat) {
    u.input == input && u.output == output && u.cacheRead == cacheRead && u.cacheCreate == cacheWrite
  }

  lemma MeteredByField(n: Notification)
    ensures IsByField(Spent(Metered(n)), Reads(n, INPUT), Reads(n, OUTPUT), Reads(n, CACHE_READ), Reads(n, CACHE_WRITE))
  {}

  lemma {:induction false} TotalIsByField(notes: seq<Notification>)
    ensures var total := TotalToIdle(notes);
            && total.input == SumToIdle(notes, INPUT)
            && total.output == SumToIdle(notes, OUTPUT)
            && total.cacheRead == SumToIdle(notes, CACHE_READ)
            && total.cacheCreate == SumToIdle(notes, CACHE_WRITE)
  {
    hide SumToIdle, TotalToIdle, Reads, Metered, Spent;
    if notes != [] && !GoesIdle(notes[0]) {
      MeteredByField(notes[0]);
      TotalIsByField(notes[1..]);
      TotalOfFirst(notes);
      SumOfFirst(notes, INPUT);
      SumOfFirst(notes, OUTPUT);
      SumOfFirst(notes, CACHE_READ);
      SumOfFirst(notes, CACHE_WRITE);
    } else {
      NothingToSum(notes);
    }
  }

  lemma SumOfFirst(notes: seq<Notification>, field: Field)
    requires notes != [] && !GoesIdle(notes[0])
    ensures SumToIdle(notes, field) == Reads(notes[0], field) + SumToIdle(notes[1..], field)
  {
    hide Reads;
  }

  lemma TotalOfFirst(notes: seq<Notification>)
    requires notes != [] && !GoesIdle(notes[0])
    ensures TotalToIdle(notes) == AddUsage(Spent(Metered(notes[0])), TotalToIdle(notes[1..]))
  {
    hide Metered, AddUsage;
  }

  lemma NothingToSum(notes: seq<Notification>)
    requires notes == [] || GoesIdle(notes[0])
    ensures TotalToIdle(notes) == NO_USAGE && forall field :: SumToIdle(notes, field) == 0
  {}

  lemma {:induction false} FoldMeters(h: Heard, notes: seq<Notification>, idle: nat)
    requires idle < |notes| && GoesIdle(notes[idle]) && forall i | 0 <= i < idle :: !GoesIdle(notes[i])
    ensures FoldToIdle(h, notes).Some?
    ensures FoldToIdle(h, notes).value.usage.Some? <==> h.usage.Some? || exists i | 0 <= i < idle :: IsMetered(notes[i])
    decreases |notes|
  {
    hide FoldToIdle, Hear, NormalizeUsage;
    var first, rest := notes[0], notes[1..];
    FoldStep(h, notes);
    assert forall i | 0 <= i < |rest| :: rest[i] == notes[i + 1];
    if idle > 0 {
      assert !GoesIdle(first);
      if first.EventNote? {
        HearMeters(h, first);
        MeteredExactly(first);
        FoldMeters(Hear(h, first.event), rest, idle - 1);
      } else {
        FoldMeters(h, rest, idle - 1);
      }
    }
  }

  lemma MeteredExactly(n: Notification)
    ensures Metered(n).Some? <==> IsMetered(n)
  {}

  /** There is a usage exactly if some model call before the idle was metered, and each of its fields
      is the sum over the metered calls. */
  predicate IsUsage(notes: seq<Notification>, idle: nat, usage: Option<Usage>)
    requires idle <= |notes|
  {
    && (usage.Some? <==> exists i | 0 <= i < idle :: IsMetered(notes[i]))
    && (usage.Some? ==>
          IsByField(usage.value, SumToIdle(notes, INPUT), SumToIdle(notes, OUTPUT),
                    SumToIdle(notes, CACHE_READ), SumToIdle(notes, CACHE_WRITE)))
  }

  lemma UsageIsExact(notes: seq<Notification>, idle: nat)
    requires idle < |notes| && GoesIdle(notes[idle]) && forall i | 0 <= i < idle :: !GoesIdle(notes[i])
    ensures FoldToIdle(SILENCE, notes).Some?
    ensures IsUsage(notes, idle, FoldToIdle(SILENCE, notes).value.usage)
  {
    hide FoldToIdle, TotalToIdle, SumToIdle;
    FoldMeters(SILENCE, notes, idle);
    UsageIsSummed(SILENCE, notes);
    TotalIsByField(notes);
    NothingAdded(TotalToIdle(notes));
  }

  // ---- The outcome -----------------------------------------------------------------------------------------

  /** The outcome of a turn, wherever its acknowledgement falls: the text of the last assistant message
      between the first receipt and the first idle after it (of earlier ones nothing is left), the last
      failure there, and the usage of all model calls there. */
  lemma OutcomeIsExact(session: SessionId, before: seq<Notification>, later: seq<Notification>, messageId: string)
    returns (receipt: nat, idle: nat)
    requires Deliver(OnAck(Deliver(FRESH, session, before), messageId), session, later).settled.Some?
    ensures var own := Own(before + later, session);
            && Spans(own, messageId, receipt, idle)
            && var outcome := Deliver(OnAck(Deliver(FRESH, session, before), messageId), session, later).settled.value;
            && LeavesText(SILENCE, own, receipt + 1, idle, outcome)
            && IsUsage(own[receipt + 1..], idle - receipt - 1, outcome.usage)
  {
    hide FoldToIdle, LeavesText, Own, Deliver, OnAck, IsUsage;
    AckPlacementDoesNotMatter(session, before, later, messageId);
    var own := Own(before + later, session);
    FirstReceiptIsFirst(own, messageId);
    receipt := FirstReceipt(own, messageId).value;
    var rest := own[receipt + 1..];
    assert forall i | 0 <= i < |rest| :: rest[i] == own[i + receipt + 1];
    var at := FoldLeavesText(SILENCE, rest);
    idle := receipt + 1 + at;
    forall i | receipt < i < idle ensures !GoesIdle(own[i]) { assert own[i] == rest[i - receipt - 1]; }
    LeavesLater(SILENCE, own, receipt + 1, at, FoldToIdle(SILENCE, rest).value);
    UsageIsExact(rest, at);
  }
}
