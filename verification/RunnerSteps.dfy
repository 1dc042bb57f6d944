/** What each event does to the runner: one function per piece of the driver, branch for
    branch. The class in RunnerDriver carries the same code in place and is proved equal. */
module RunnerSteps {
  import opened Prelude
  import opened NativeTurns
  import opened RunnerTypes

  // ---- Small readings of the state --------------------------------------------

  function With(s: State, t: Turn): State {
    s.(turn := Some(t))
  }

  predicate RootSteerable(t: Turn) {
    |t.accepted| > 0 && t.accepted[0].input.steerable
  }

  /** turn.steerInFlight !== undefined */
  predicate Steering(s: State, t: Turn) {
    s.steer.Some? && s.steer.value.epoch == t.epoch
  }

  predicate InGroupMode(s: State, t: Turn) {
    RootSteerable(t) && (Steering(s, t) || |t.accepted| > 1)
  }

  predicate ExactProof(t: Turn) {
    t.proof == Some(ExactStarted) || t.proof == Some(ExactCompleted)
  }

  predicate Contradicts(t: Turn, id: Id) {
    t.canonical.Some? && t.canonical.value != id
  }

  function NoteId(turnParam: Option<Id>, rec: NativeTurn): Option<Id> {
    if turnParam.Some? then turnParam else rec.id
  }

  function ExactFor(rec: NativeTurn, clientId: Option<Id>): seq<nat> {
    if clientId.Some? then ExactIndexes(rec, clientId.value) else []
  }

  function SentIds(group: seq<Dispatch>): seq<Id> {
    if group == [] then []
    else (if group[0].clientId.Some? then [group[0].clientId.value] else []) + SentIds(group[1..])
  }

  function RequestClientId(input: Input, cleanUnsupported: bool, cfg: Config): Option<Id> {
    if input.sidecar.Some? && !cleanUnsupported && cfg.clientIds && input.replyId.Some? then input.replyId
    else if input.sidecar.Some? then input.sidecar.value.clientId
    else None
  }

  predicate Busy(s: State) {
    s.pc != Idle || |s.queue| > 0 || s.nativeActive.Some?
  }

  // ---- Runner state markers -----------------------------------------------------

  function PublishBusy(s: State): State {
    s.(idleTimer := false, published := s.published + [true])
  }

  function SettleState(s: State): State {
    if s.fenced then s
    else if s.nativeActive.Some? then PublishBusy(s)
    else s.(idleTimer := true)
  }

  function FireIdleTimer(s: State): State {
    if !s.idleTimer then s
    else
      var s' := s.(idleTimer := false);
      if s.fenced then s' else s'.(published := s.published + [Busy(s')])
  }

  // ---- Fence, conflicts and settlements ----------------------------------------

  /** fenceUnknown on the active turn, followed by settling it. */
  function FenceTurn(s: State): State
    requires s.turn.Some?
  {
    var t := s.turn.value;
    With(s.(fenced := true), t.(phase := if s.fenced then t.phase else Fenced, completed := true))
  }

  function ClearNative(s: State, id: Option<Id>): State {
    if id.Some? && s.nativeActive == id then s.(nativeActive := None) else s
  }

  function ReportConflict(s: State, reason: Reason): State
    requires s.turn.Some?
  {
    var t := s.turn.value;
    if t.conflictReported then s
    else
      With(ClearNative(s, t.nativeId),
           t.(conflictReported := true, finalText := IdentityConflict(reason), allAgentText := "", completed := true))
  }

  /** completeActiveTurnFromNative */
  function CompleteSingle(s: State, rec: NativeTurn, exactIndex: Option<nat>): State
    requires s.turn.Some?
  {
    var t := s.turn.value;
    if t.completed || !rec.terminal then s
    else
      var text :=
        if exactIndex.Some? then Rebuild(rec, exactIndex.value)
        else if rec.error.Some? && t.finalText == Said("") then NativeFailure(rec.error.value)
        else t.finalText;
      With(ClearNative(s, rec.id),
           t.(finalText := text,
              allAgentText := if exactIndex.Some? then "" else t.allAgentText,
              nativeId := if rec.id.Some? then rec.id else t.nativeId,
              completed := true))
  }

  function SettleSteered(s: State, rec: NativeTurn): State
    requires s.turn.Some?
  {
    var t := s.turn.value;
    if t.completed then s
    else
      match VerifyGroup(rec, SentIds(t.accepted))
      case Refused(reason) => ReportConflict(s, reason)
      case Matched(lastIndex) =>
        With(ClearNative(s, rec.id),
             t.(finalText := if lastIndex >= 0 then Rebuild(rec, lastIndex) else t.finalText,
                allAgentText := if lastIndex >= 0 then "" else t.allAgentText,
                terminal := Some(rec), completed := true, phase := Closing))
  }

  function StartSingleLookup(s: State, keepPending: bool): State
    requires s.turn.Some?
  {
    var t := s.turn.value;
    if t.lookup != NoLookup || t.completed then s
    else if t.clientId.None? then ReportConflict(s, NoClientId)
    else With(s, t.(lookup := SingleLookup(keepPending, keepPending && t.nativeId.Some?)))
  }

  function StartGroupLookup(s: State): State
    requires s.turn.Some?
  {
    var t := s.turn.value;
    if t.lookup != NoLookup || t.completed then s
    else With(s, t.(lookup := GroupLookup))
  }

  /** A completion held back by an RPC: settle from it if canonical, else look it up. */
  function RouteBuffered(s: State, rec: NativeTurn): State
    requires s.turn.Some?
  {
    if rec.id.Some? && rec.id == s.turn.value.canonical then SettleSteered(s, rec) else StartGroupLookup(s)
  }

  predicate CanResume(s: State) {
    && s.turn.Some?
    && var t := s.turn.value;
    && !t.completed && InGroupMode(s, t) && t.completionSeen && t.terminal.Some?
    && !Steering(s, t) && !t.startPending
  }

  /** resumeBufferedGroupCompletion */
  function ResumeBuffered(s: State): State {
    if CanResume(s) then RouteBuffered(s, s.turn.value.terminal.value) else s
  }

  // ---- Follow-up steering ------------------------------------------------------

  predicate CanSteer(s: State, t: Turn, head: Input) {
    && !s.fenced
    && !t.completed
    && t.phase != Fenced
    && t.phase != Closing
    && !t.steeringClosed
    && !Steering(s, t)
    && s.steer.None?
    && t.canonical.Some?
    && RootSteerable(t)
    && head.steerable
  }

  /** Buffered completions that settle nothing: there is none, or the only record that could
      settle the turn is not terminal. */
  predicate IdlePendings(pendings: seq<NativeTurn>, clientId: Option<Id>, native: Option<Id>, kind: RequestKind) {
    var exact := ExactPendings(pendings, clientId);
    var natives := NativePendings(pendings, native);
    || pendings == []
    || (|exact| == 1 && !exact[0].0.terminal)
    || (|exact| == 0 && |natives| == 1 && kind == StartRequest && !natives[0].terminal)
  }

  /** They will settle nothing when the root's response arrives: it names the canonical turn,
      or it fences, or it names none and the turn has no native id. */
  predicate PendingsIdle(
    pendings: seq<NativeTurn>, clientId: Option<Id>, canonical: Option<Id>, native: Option<Id>, kind: RequestKind)
  {
    IdlePendings(pendings, clientId, canonical, kind) && (native.None? ==> IdlePendings(pendings, clientId, None, kind))
  }

  /** No other settlement has a claim on the turn: no history lookup is under way, the
      completions buffered before the root's response can settle nothing, and runTurn has not
      thrown. The program tests the first of these only at the kick that ends runTurn's
      request loop. */
  predicate Unclaimed(s: State, t: Turn) {
    && t.lookup == NoLookup
    && PendingsIdle(t.pendingCompletions, t.clientId, t.canonical, t.nativeId, t.kind)
    && !s.pc.Threw?
  }

  predicate Admits(s: State) {
    s.turn.Some? && |s.queue| > 0 && CanSteer(s, s.turn.value, s.queue[0])
  }

  /** tryAdmitSteer, up to its await. */
  function TryAdmitSteer(s: State): State {
    if !Admits(s) then s
    else
      var t := s.turn.value;
      var head := s.queue[0];
      var dispatch := Dispatch(head, RequestClientId(head, s.cleanUnsupported, s.cfg));
      s.(steer := Some(SteerRpc(t.epoch, dispatch, t.canonical.value)),
         overlapped := s.overlapped || !Unclaimed(s, t))
  }

  /** fenceUnknown for the turn a steer belonged to, which may be gone by now. */
  function FenceSteer(s: State, epoch: nat): State {
    if s.turn.Some? && s.turn.value.epoch == epoch then FenceTurn(s) else s.(fenced := true)
  }

  /** The head leaves the queue; it joins the group unless that turn was finalized
      meanwhile, in which case the append reaches an object nobody reads any more. */
  function JoinGroup(s: State, rpc: SteerRpc): State
    requires |s.queue| > 0
  {
    var s1 := s.(queue := s.queue[1..], steer := None);
    if s.turn.Some? && s.turn.value.epoch == rpc.epoch then
      With(s1, s.turn.value.(accepted := s.turn.value.accepted + [rpc.dispatch]))
    else s1
  }

  /** A completion held back by the steer settles its turn now; else the next head is tried. */
  function AfterJoin(s: State, epoch: nat): State {
    if s.turn.Some? && s.turn.value.epoch == epoch && CanResume(s) then ResumeBuffered(s) else TryAdmitSteer(s)
  }

  predicate SteerAccepted(s: State, steeredId: Option<Id>) {
    && s.steer.Some?
    && steeredId == Some(s.steer.value.expected)
    && |s.queue| > 0 && s.queue[0] == s.steer.value.dispatch.input
  }

  function OnSteerResponse(s: State, steeredId: Option<Id>): State {
    if s.steer.None? then s
    else if SteerAccepted(s, steeredId) then AfterJoin(JoinGroup(s, s.steer.value), s.steer.value.epoch)
    else FenceSteer(s.(steer := None), s.steer.value.epoch)
  }

  /** A definite rejection closes steering, then lets a held completion through. */
  function CloseSteering(s: State): State
    requires s.turn.Some?
  {
    With(s.(steer := None), s.turn.value.(steeringClosed := true))
  }

  function RouteHeld(s: State): State
    requires s.turn.Some?
  {
    var t := s.turn.value;
    if t.completionSeen && t.terminal.Some? then RouteBuffered(s, t.terminal.value) else s
  }

  function OnSteerError(s: State, refusal: Failure): State {
    if s.steer.None? then s
    else if !(refusal.rpc && refusal.definite) then FenceSteer(s.(steer := None), s.steer.value.epoch)
    else if s.turn.Some? && s.turn.value.epoch == s.steer.value.epoch then RouteHeld(CloseSteering(s))
    else s.(steer := None)
  }

  // ---- Notifications -----------------------------------------------------------

  predicate HoldsStart(notes: seq<Note>, id: Id) {
    exists i | 0 <= i < |notes| :: notes[i].Started? && NoteId(notes[i].turnParam, notes[i].rec) == Some(id)
  }

  /** Exact proof by turn/started, without the fence branch. */
  function ProveStarted(t: Turn, id: Id, exact: bool): Turn {
    if !exact then t
    else
      t.(canonical := Some(id),
         proof := if t.canonical.None? then Some(ExactStarted) else t.proof,
         nativeId := if t.nativeId.None? then Some(id) else t.nativeId,
         phase := if t.phase == Starting then Open else t.phase)
  }

  function OnStartedFor(s: State, t: Turn, id: Id, turnParam: Option<Id>, rec: NativeTurn): State {
    var exact := |ExactFor(rec, t.clientId)| == 1;
    if exact && Contradicts(t, id) then FenceTurn(With(s, t))
    else AfterStarted(With(s, ProveStarted(t, id, exact)), id, Started(turnParam, rec))
  }

  /** Own start: note it and kick; a start before the response: hold it; else Goal work. */
  function AfterStarted(s: State, id: Id, note: Note): State
    requires s.turn.Some? && note.Started?
  {
    var t := s.turn.value;
    if t.nativeId == Some(id) then
      var s2 := With(s, t.(serverStarted := true));
      if ExactProof(t) && !t.completed then TryAdmitSteer(s2) else s2
    else if !t.requestAccepted && t.kind == StartRequest then
      if HoldsStart(t.pendingNotes, id) then s else With(s, t.(pendingNotes := t.pendingNotes + [note]))
    else PublishBusy(s)
  }

  function OnStarted(s: State, turnParam: Option<Id>, rec: NativeTurn, replayed: bool): State {
    var id := NoteId(turnParam, rec);
    var s1 :=
      if id.Some? && (!replayed || s.nativeActive.None? || s.nativeActive == id) then s.(nativeActive := id) else s;
    if s1.turn.Some? && id.Some? then OnStartedFor(s1, s1.turn.value, id.value, turnParam, rec)
    else PublishBusy(s1)
  }

  /** Group mode: steering closes and the completion is held, a canonical one preferred. */
  function HoldCompletion(t: Turn, id: Option<Id>, rec: NativeTurn): Turn {
    var held := if t.terminal.Some? then t.terminal.value.id else None;
    var keep := t.terminal.Some? && id != t.canonical && held == t.canonical;
    t.(completionSeen := true, steeringClosed := true, terminal := if keep then t.terminal else Some(rec))
  }

  /** The held completion settles the group, unless an RPC is still out. */
  function OnGroupCompleted(s: State, t: Turn, id: Option<Id>, rec: NativeTurn): State {
    var s1 := With(s, HoldCompletion(t, id, rec));
    if Steering(s, t) || t.startPending then s1
    else if t.canonical.Some? && id == t.canonical then SettleSteered(s1, rec)
    else StartGroupLookup(s1)
  }

  /** Exact proof by turn/completed: the completion is held for the pending response. */
  function ProveCompleted(t: Turn, id: Id, rec: NativeTurn): Turn {
    t.(canonical := Some(id),
       proof := if t.canonical.None? then Some(ExactCompleted) else t.proof,
       completionSeen := true, steeringClosed := true, terminal := Some(rec))
  }

  /** An exact completion may prove the canonical id while a steerable start is pending. */
  predicate UpgradesToProof(t: Turn, id: Option<Id>) {
    !t.requestAccepted && t.startPending && RootSteerable(t) && id.Some?
  }

  function UpgradeByCompletion(s: State, id: Id, rec: NativeTurn): State
    requires s.turn.Some?
  {
    var t := s.turn.value;
    if Contradicts(t, id) then FenceTurn(s) else With(s, ProveCompleted(t, id, rec))
  }

  function OnSingleCompleted(s: State, t: Turn, id: Option<Id>, rec: NativeTurn): State {
    var exact := ExactFor(rec, t.clientId);
    if |exact| == 1 && UpgradesToProof(t, id) then UpgradeByCompletion(With(s, t), id.value, rec)
    else if |exact| == 1 then CompleteSingle(With(s, t), rec, Some(exact[0]))
    else if !t.requestAccepted then With(s, t.(pendingCompletions := t.pendingCompletions + [rec]))
    else if t.nativeId.Some? && id == t.nativeId && t.kind == StartRequest then CompleteSingle(With(s, t), rec, None)
    else StartSingleLookup(With(s, t), false)
  }

  function OnCompleted(s: State, turnParam: Option<Id>, rec: NativeTurn): State {
    var id := NoteId(turnParam, rec);
    var s1 := ClearNative(s, id);
    match s1.turn
    case None =>
      var s2 := SettleState(s1);
      if |s2.queue| > 0 && s2.nativeActive.None? then KickDrain(s2) else s2
    case Some(t) =>
      if InGroupMode(s1, t) then OnGroupCompleted(s1, t, id, rec) else OnSingleCompleted(s1, t, id, rec)
  }

  /** Text of the accepted turn: its streamed items, all agent text, and the final answer. */
  function Heard(t: Turn, note: Note): (set<Id>, string, Answer) {
    match note
    case Delta(_, itemId, text) => (t.seenItems + {itemId}, t.allAgentText + text, t.finalText)
    case AgentItem(_, itemId, finalAnswer, text) =>
      if finalAnswer then (t.seenItems, t.allAgentText, Said(text))
      else if itemId !in t.seenItems then (t.seenItems, t.allAgentText + text, t.finalText)
      else (t.seenItems, t.allAgentText, t.finalText)
    case _ => (t.seenItems, t.allAgentText, t.finalText)
  }

  function Hear(t: Turn, note: Note): Turn {
    var heard := Heard(t, note);
    t.(seenItems := heard.0, allAgentText := heard.1, finalText := heard.2)
  }

  /** Any other notification of the thread: text, or plain progress. */
  function OnProgress(s: State, note: Note): State {
    match s.turn
    case None => s
    case Some(t) =>
      if !t.requestAccepted then
        if t.kind == StartRequest && note.turnParam.Some? then With(s, t.(pendingNotes := t.pendingNotes + [note])) else s
      else if t.nativeId.Some? && note.turnParam.Some? && note.turnParam != t.nativeId then s
      else With(s, Hear(t, note))
  }

  function OnTokenUsage(s: State, turnParam: Option<Id>, reading: Option<nat>): State {
    if turnParam.None? then s
    else
      var id := turnParam.value;
      var usage := if id in s.usage && s.usage[id].None? then None else reading;
      s.(usage := s.usage[id := usage])
  }

  function OnNote(s: State, note: Note, replayed: bool): State {
    match note
    case Started(turnParam, rec) => OnStarted(s, turnParam, rec, replayed)
    case Completed(turnParam, rec) => OnCompleted(s, turnParam, rec)
    case TokenUsage(turnParam, reading) => OnTokenUsage(s, turnParam, reading)
    case _ => OnProgress(s, note)
  }

  // ---- History lookups -----------------------------------------------------------

  function SingleMatch(rec: NativeTurn, cid: Id): seq<(NativeTurn, nat)> {
    var found := ExactIndexes(rec, cid);
    if rec.terminal && |found| == 1 then [(rec, found[0])] else []
  }

  function SingleMatches(candidates: seq<NativeTurn>, cid: Id): seq<(NativeTurn, nat)> {
    if candidates == [] then [] else SingleMatch(candidates[0], cid) + SingleMatches(candidates[1..], cid)
  }

  function GroupMatch(rec: NativeTurn, ids: seq<Id>): seq<(NativeTurn, nat)> {
    var verdict := VerifyGroup(rec, ids);
    if rec.terminal && verdict.Matched? && verdict.lastIndex >= 0 then [(rec, verdict.lastIndex as nat)] else []
  }

  function GroupMatches(candidates: seq<NativeTurn>, ids: seq<Id>): seq<(NativeTurn, nat)> {
    if candidates == [] then [] else GroupMatch(candidates[0], ids) + GroupMatches(candidates[1..], ids)
  }

  function FinishLookup(s: State): State
    requires s.turn.Some?
  {
    With(s, s.turn.value.(lookup := Done))
  }

  function OnSingleScanned(s: State, candidates: seq<NativeTurn>, failed: bool, expired: bool): State
    requires s.turn.Some? && s.turn.value.lookup.SingleLookup? && s.turn.value.clientId.Some?
  {
    var t := s.turn.value;
    var cid := t.clientId.value;
    var s1 := FinishLookup(s);
    if failed then (if t.completed then s1 else ReportConflict(s1, LookupFailed))
    else if exists c :: c in candidates && c.terminal && |ExactIndexes(c, cid)| > 1 then
      ReportConflict(s1, ClientIdRepeated)
    else if t.completed then s1
    else
      var matches := SingleMatches(candidates, cid);
      if |matches| == 1 then CompleteSingle(s1, matches[0].0, Some(matches[0].1))
      else if |matches| > 1 then ReportConflict(s1, ManyMatches)
      else if !t.lookup.keepPending then ReportConflict(s1, NoMatch)
      else if t.nativeId.Some? && exists c :: c in candidates && c.terminal && c.id == t.nativeId then
        ReportConflict(s1, TerminatedWithoutMatch)
      else if !t.lookup.armed || expired then
        ReportConflict(s1, DeadlineWithoutMatch)
      else s
  }

  /** The one full match becomes the group's native identity, in the step that settles it. */
  function AdoptMatch(s: State, rec: NativeTurn, lastIndex: nat): State
    requires s.turn.Some?
  {
    var t := s.turn.value;
    With(if rec.id.Some? then ClearNative(ClearNative(s, t.canonical), rec.id) else s,
         t.(finalText := Rebuild(rec, lastIndex), allAgentText := "", terminal := Some(rec),
            nativeId := if rec.id.Some? then rec.id else t.nativeId,
            canonical := if rec.id.Some? then rec.id else t.canonical,
            completed := true, phase := Closing))
  }

  function ResolveGroup(s: State, matches: seq<(NativeTurn, nat)>): State
    requires s.turn.Some?
  {
    if |matches| == 1 then AdoptMatch(s, matches[0].0, matches[0].1)
    else ReportConflict(s, if |matches| == 0 then NoFullGroup else ManyFullGroups)
  }

  function OnGroupScanned(s: State, candidates: seq<NativeTurn>, failed: bool): State
    requires s.turn.Some? && s.turn.value.lookup.GroupLookup?
  {
    var t := s.turn.value;
    if t.completed then FinishLookup(s)
    else if failed then ReportConflict(FinishLookup(s), GroupLookupFailed)
    else ResolveGroup(FinishLookup(s), GroupMatches(candidates, SentIds(t.accepted)))
  }

  function OnHistoryScanned(s: State, candidates: seq<NativeTurn>, failed: bool, expired: bool): State {
    if s.turn.None? then s
    else
      match s.turn.value.lookup
      case SingleLookup(_, _) =>
        if s.turn.value.clientId.Some? then OnSingleScanned(s, candidates, failed, expired) else s
      case GroupLookup => OnGroupScanned(s, candidates, failed)
      case _ => s
  }

  // ---- The root request ----------------------------------------------------------

  /** makeTurn, with the assignments runTurn makes before it publishes the turn. */
  function NewTurn(epoch: nat, clientId: Option<Id>, root: Dispatch, into: Option<Id>, structured: bool): Turn {
    Turn(epoch, clientId, if into.Some? then SteerRequest else StartRequest, RootRpc(into, structured, false, false),
         into, None, None, Starting, [root],
         false, into.None?, into.Some?, false, false, None, [], [], NoLookup, false, false, Said(""), "", {})
  }

  /** runTurn from ensureThread to its request. */
  function BeginTurn(s: State, input: Input): State {
    var cid := RequestClientId(input, s.cleanUnsupported, s.cfg);
    var into := s.nativeActive;
    var structured := input.sidecar.Some? && !s.cleanUnsupported && s.cfg.cleanInput;
    s.(pc := AwaitResponse,
       epochs := s.epochs + 1,
       turn := Some(NewTurn(s.epochs + 1, cid, Dispatch(input, cid), into, structured)))
  }

  function Replay(s: State, notes: seq<Note>): State
    decreases |notes|
  {
    if notes == [] || s.turn.None? then s
    else
      var note := notes[0];
      var id := if note.Started? || note.Completed? then NoteId(note.turnParam, note.rec) else note.turnParam;
      var s1 := if id == s.turn.value.nativeId then OnNote(s, note, true) else s;
      Replay(s1, notes[1..])
  }

  function ExactPending(rec: NativeTurn, clientId: Option<Id>): seq<(NativeTurn, nat)> {
    var found := ExactFor(rec, clientId);
    if |found| == 1 then [(rec, found[0])] else []
  }

  function ExactPendings(pendings: seq<NativeTurn>, clientId: Option<Id>): seq<(NativeTurn, nat)> {
    if pendings == [] then [] else ExactPending(pendings[0], clientId) + ExactPendings(pendings[1..], clientId)
  }

  function NativePendings(pendings: seq<NativeTurn>, nativeId: Option<Id>): seq<NativeTurn> {
    if pendings == [] then []
    else (if pendings[0].id == nativeId then [pendings[0]] else []) + NativePendings(pendings[1..], nativeId)
  }

  /** Completions seen before the response, now that the response names the native turn. */
  function SettlePendings(s: State): State {
    if s.turn.None? then s
    else
      SettleFrom(With(s, s.turn.value.(pendingCompletions := [])), s.turn.value.pendingCompletions)
  }

  function SettleFrom(s1: State, pendings: seq<NativeTurn>): State
    requires s1.turn.Some?
  {
    var t := s1.turn.value;
    if pendings == [] || t.completed then s1
    else
      var exact := ExactPendings(pendings, t.clientId);
      var native := NativePendings(pendings, t.nativeId);
      if |exact| == 1 then CompleteSingle(s1, exact[0].0, Some(exact[0].1))
      else if |exact| > 1 || |native| > 1 then
        ReportConflict(s1, ManyPreResponse)
      else if |native| == 1 && t.kind == SteerRequest then StartSingleLookup(s1, false)
      else if |native| == 1 then CompleteSingle(s1, native[0], None)
      else StartSingleLookup(s1, true)
  }

  /** The bindings made by an accepted root response. */
  function AcceptRoot(s: State, respId: Option<Id>): State
    requires s.turn.Some?
  {
    var t := s.turn.value;
    var t1 := t.(nativeId := respId, requestAccepted := true, startPending := false);
    var t2 :=
      if !t.completed && respId.Some? then
        t1.(canonical := respId,
            proof := if t.proof.Some? then t.proof
                     else Some(if t.kind == SteerRequest then GoalSnapshot else StartResponse),
            phase := if t.phase == Starting then Open else t.phase)
      else t1;
    var native :=
      if !t.completed && respId.Some? && (s.nativeActive.None? || s.nativeActive == respId) then respId
      else s.nativeActive;
    With(s, t2).(nativeActive := native, pc := AwaitDone)
  }

  predicate SettlesBuffered(s: State) {
    && s.turn.Some?
    && var t := s.turn.value;
    && !t.completed && t.completionSeen && t.terminal.Some? && !Steering(s, t)
    && t.terminal.value.id.Some? && t.terminal.value.id == t.canonical
    && RootSteerable(t)
    && (|t.accepted| > 1 || ExactProof(t))
  }

  function SettleAfterResponse(s: State): State {
    var s1 := ResumeBuffered(s);
    if SettlesBuffered(s) && s1.turn.Some? then SettleSteered(s1, s.turn.value.terminal.value) else s1
  }

  function ReplayNotes(s: State): State {
    match s.turn
    case None => s
    case Some(t) => Replay(With(s, t.(pendingNotes := [])), t.pendingNotes)
  }

  /** The kick that ends runTurn's request loop, the only one guarded by the lookup. */
  function KickAfterResponse(s: State): State {
    if s.turn.Some? && !s.turn.value.completed && s.turn.value.lookup == NoLookup then TryAdmitSteer(s) else s
  }

  /** Everything runTurn does between an accepted response and its await of the turn. */
  function AfterAccept(s: State): State {
    KickAfterResponse(SettlePendings(ReplayNotes(SettleAfterResponse(s))))
  }

  /** runTurn returns on a fence, leaving its turn in place. */
  function FenceRoot(s: State): State
    requires s.turn.Some?
  {
    FenceTurn(With(s, s.turn.value.(startPending := false))).(pc := Returned)
  }

  predicate ContradictsProof(t: Turn, respId: Option<Id>) {
    ExactProof(t) && respId.Some? && Contradicts(t, respId.value)
  }

  function OnRootResponse(s: State, responseId: Option<Id>): State {
    if s.pc != AwaitResponse || s.turn.None? then s
    else
      var respId := if responseId.Some? then responseId else s.turn.value.nativeId;
      if ContradictsProof(s.turn.value, respId) then FenceRoot(s) else AfterAccept(AcceptRoot(s, respId))
  }

  predicate PositiveEvidence(t: Turn) {
    t.serverStarted || t.proof.Some? || t.canonical.Some? || |t.accepted| > 1
  }

  /** A Goal-steer root whose Goal is gone starts over as a plain turn/start. */
  function FallBack(s: State): State
    requires s.turn.Some?
  {
    var t := s.turn.value;
    With(s, t.(rpc := t.rpc.(expected := None, fellBack := true), kind := StartRequest, nativeId := None,
               serverStarted := false, pendingCompletions := [], pendingNotes := [],
               finalText := Said(""), allAgentText := "", seenItems := {}))
  }

  function OnRootError(s: State, failure: Failure): State {
    if s.pc != AwaitResponse || s.turn.None? then s
    else
      var t := s.turn.value;
      var r := t.rpc;
      if r.expected.Some? && !r.fellBack && s.nativeActive.None? && failure.rpc && failure.inactive then
        FallBack(s)
      else if r.capabilityRetried || !r.structured || (r.expected.None? && t.serverStarted) || !failure.capability then
        if PositiveEvidence(t) || !failure.rpc then FenceTurn(s).(pc := Returned)
        else s.(pc := Threw(failure.message))
      else
        With(s.(cleanUnsupported := true), t.(rpc := r.(capabilityRetried := true, structured := false)))
  }

  // ---- Finals and the drain loop --------------------------------------------------

  function UsageOf(usage: map<Id, Usage>, nativeId: Option<Id>): Option<nat> {
    if nativeId.Some? && nativeId.value in usage then usage[nativeId.value] else None
  }

  /** emitFinalMarker: only a real final reads and drains the usage of its native turn. */
  function EmitFinal(s: State, input: Input, nativeId: Option<Id>, content: Answer, superseded: bool): State {
    var usage := if superseded then None else UsageOf(s.usage, nativeId);
    s.(finals := s.finals + [Final(input, nativeId, content, superseded, usage)],
       usage := if nativeId.Some? && !superseded then s.usage - {nativeId.value} else s.usage)
  }

  function TrimAnswer(a: Answer): Answer {
    match a
    case Said(text) => Said(Trim(text))
    case NativeFailure(message) => NativeFailure(TrimEnd(message))
    case _ => a
  }

  function DeliveredText(t: Turn): Answer {
    TrimAnswer(if t.finalText != Said("") then t.finalText else Said(t.allAgentText))
  }

  function EmitGroup(s: State, t: Turn, from: nat): State
    requires from <= |t.accepted|
    decreases |t.accepted| - from
  {
    if from == |t.accepted| then s
    else
      var isReal := from + 1 == |t.accepted|;
      EmitGroup(EmitFinal(s, t.accepted[from].input, t.nativeId, if isReal then DeliveredText(t) else Said(""), !isReal),
                t, from + 1)
  }

  /** finalizeAcceptedGroup */
  function Finalize(s: State, t: Turn): State {
    if t.phase == Fenced then s else EmitGroup(s, t, 0)
  }

  function OnTurnDone(s: State): State {
    if s.pc == AwaitDone && s.turn.Some? && s.turn.value.completed
    then Finalize(s, s.turn.value).(turn := None, pc := Returned)
    else s
  }

  predicate GateCloses(s: State) {
    |s.queue| > 0 && s.nativeActive.Some? && !s.queue[0].steerable
  }

  /** The head of the drain loop. */
  function DrainLoop(s: State): State {
    if |s.queue| == 0 || s.fenced || GateCloses(s) then s.(pc := Idle)
    else s.(queue := s.queue[1..], pc := Dequeued(s.queue[0]))
  }

  function KickDrain(s: State): State {
    if s.pc != Idle then s else DrainLoop(s)
  }

  /** The tail of the drain loop's body, then its head. */
  function EndOfBody(s: State): State {
    DrainLoop(if |s.queue| == 0 || GateCloses(s) then SettleState(s) else s)
  }

  /** The failure final of an input whose runTurn threw. */
  function FailureFinal(s: State, input: Input, message: string): State {
    EmitFinal(s, input, if s.turn.Some? then s.turn.value.nativeId else None, RunnerError(message), false)
    .(turn := None, pc := Returned)
  }

  /** The drain loop's catch clause, and what follows it. */
  function AnswerFailure(s: State, input: Input, message: string): State {
    if s.fenced then s.(turn := None, pc := Idle) else EndOfBody(FailureFinal(s, input, message))
  }

  function OnDrainResumed(s: State): State {
    match s.pc
    case Returned => EndOfBody(s)
    case Threw(message) =>
      if s.turn.Some? && |s.turn.value.accepted| > 0 then AnswerFailure(s, s.turn.value.accepted[0].input, message) else s
    case _ => s
  }

  function Receive(s: State, content: string, sidecar: Option<Sidecar>, replyId: Option<Id>, steerable: bool): State {
    var reply := if replyId.Some? then replyId else if sidecar.Some? then sidecar.value.clientId else None;
    var input := Input(|s.inbound|, content, sidecar, reply, steerable);
    s.(queue := s.queue + [input], inbound := s.inbound + [input])
  }

  /** Events of the input line, the drain loop and the state timer. */
  predicate IsLoopEvent(e: Event) {
    || e.Framed? || e.PlainLine? || e.ThreadReady? || e.ThreadFailed?
    || e.TurnDone? || e.DrainResumed? || e.IdleTimerFired? || e.ControlReaccepted?
  }

  function Step(s: State, e: Event): State {
    match e
    case Framed(content, sidecar, replyId, steerable) =>
      KickDrain(TryAdmitSteer(Receive(s, content, sidecar, replyId, steerable)))
    case PlainLine(line) => KickDrain(Receive(s, line, None, None, false))
    case ThreadReady => if s.pc.Dequeued? then BeginTurn(s, s.pc.input) else s
    case ThreadFailed(message) => if s.pc.Dequeued? then AnswerFailure(s, s.pc.input, message) else s
    case RootResponse(responseId) => OnRootResponse(s, responseId)
    case RootError(failure) => OnRootError(s, failure)
    case SteerResponse(steeredId) => OnSteerResponse(s, steeredId)
    case SteerError(refusal) => OnSteerError(s, refusal)
    case Notify(note) => OnNote(s, note, false)
    case HistoryScanned(candidates, failed, expired) => OnHistoryScanned(s, candidates, failed, expired)
    case TurnDone => OnTurnDone(s)
    case DrainResumed => OnDrainResumed(s)
    case IdleTimerFired => FireIdleTimer(s)
    case ControlReaccepted => SettleState(s)
  }

  function Run(s: State, events: seq<Event>): State
    decreases |events|
  {
    if events == [] then s else Run(Step(s, events[0]), events[1..])
  }
}
