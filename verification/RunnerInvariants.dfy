/** What every step of the runner keeps. */
module RunnerInvariants {
  import opened Prelude
  import opened NativeTurns
  import opened RunnerTypes
  import opened RunnerSteps
  import opened RunnerIdentity

  function Members(group: seq<Dispatch>): seq<Input> {
    if group == [] then [] else Members(group[..|group| - 1]) + [group[|group| - 1].input]
  }

  function Answered(finals: seq<Final>): seq<Input> {
    if finals == [] then [] else Answered(finals[..|finals| - 1]) + [finals[|finals| - 1].input]
  }

  lemma MembersAppend(group: seq<Dispatch>, d: Dispatch)
    ensures Members(group + [d]) == Members(group) + [d.input]
  {
    assert (group + [d])[..|group|] == group;
  }

  lemma AnsweredAppend(finals: seq<Final>, f: Final)
    ensures Answered(finals + [f]) == Answered(finals) + [f.input]
  {
    assert (finals + [f])[..|finals|] == finals;
  }

  /** The inputs the drain loop holds: the one just dequeued, or the turn's ordered group. */
  function InHand(s: State): seq<Input> {
    if s.pc.Dequeued? then [s.pc.input]
    else if HasTurn(s.pc) && s.turn.Some? then Members(s.turn.value.accepted)
    else []
  }

  /** No input is lost, repeated or reordered. */
  predicate Conserved(s: State) {
    Answered(s.finals) + InHand(s) + s.queue == s.inbound
  }

  predicate Numbered(s: State) {
    forall i | 0 <= i < |s.inbound| :: s.inbound[i].uid == i
  }

  /** Every group of several members, and every steer in flight, has an explicitly
      authorized root and members, and a proved canonical native id. */
  predicate GroupOk(t: Turn) {
    && |t.accepted| >= 1
    && (forall k | 1 <= k < |t.accepted| :: t.accepted[k].input.steerable)
    && (|t.accepted| > 1 ==>
        && t.accepted[0].input.steerable
        && t.canonical.Some?
        && (t.completed || PendingsIdle(t.pendingCompletions, t.clientId, t.canonical, t.nativeId, t.kind))
        && !t.lookup.SingleLookup?)
  }

  predicate TurnOk(s: State, t: Turn) {
    && GroupOk(t)
    && t.phase != Fenced
    && (t.canonical.Some? && !t.requestAccepted ==> ExactProof(t))
    && (t.proof.Some? ==> t.canonical.Some?)
    && (t.completionSeen ==> t.steeringClosed)
    && (t.lookup == GroupLookup ==> t.steeringClosed && t.canonical.Some?)
    && (t.requestAccepted <==> s.pc == AwaitDone)
    && (t.lookup.SingleLookup? ==> t.requestAccepted && t.clientId.Some?)
    && (s.pc.Threw? ==> |t.accepted| == 1)
    && (t.requestAccepted && !t.completed && t.nativeId.Some? ==> t.nativeId == t.canonical)
  }

  /** At most one follow-up steer is in flight; it belongs to the active turn, carries the
      queue's head, and targets the turn's canonical id. */
  predicate SteerOk(s: State) {
    s.steer.Some? ==>
      && s.turn.Some?
      && var t := s.turn.value;
      && var rpc := s.steer.value;
      && rpc.epoch == t.epoch
      && !t.completed
      && |s.queue| > 0 && s.queue[0] == rpc.dispatch.input && s.queue[0].steerable
      && t.canonical == Some(rpc.expected)
      && RootSteerable(t)
      && PendingsIdle(t.pendingCompletions, t.clientId, t.canonical, t.nativeId, t.kind)
      && t.lookup == NoLookup && !s.pc.Threw?
  }

  predicate Live(s: State) {
    && Conserved(s)
    && Numbered(s)
    && (s.turn.Some? <==> HasTurn(s.pc))
    && (s.turn.Some? ==> TurnOk(s, s.turn.value))
    && SteerOk(s)
  }

  /** A fenced generation: its turn is settled as fenced and nothing is in hand to start. */
  predicate Dead(s: State) {
    && (s.turn.Some? ==> s.turn.value.phase == Fenced && s.turn.value.completed && |s.turn.value.accepted| >= 1)
    && !s.pc.Dequeued?
    && Answered(s.finals) <= s.inbound
    && Numbered(s)
  }

  predicate Sound(s: State) {
    s.overlapped || if s.fenced then Dead(s) else Live(s)
  }

  /** A parked head: no drain is running although inputs wait, because a native turn is
      open that the head may not enter. */
  predicate ParkedOk(s: State) {
    s.pc == Idle && |s.queue| > 0 && !s.fenced ==> GateCloses(s)
  }

  // ---- Settlements and fences --------------------------------------------------

  lemma AnsweredPrefix(s: State)
    requires Conserved(s)
    ensures Answered(s.finals) <= s.inbound
  {}

  lemma FenceTurnSound(s: State)
    requires Sound(s) && s.turn.Some?
    ensures Sound(FenceTurn(s))
  {}

  /** The turn may be settled: no follow-up steer is in flight for it. */
  predicate Settleable(s: State) {
    Sound(s) && s.turn.Some? && (s.overlapped || s.fenced || s.steer.None?)
  }

  /** `s'` changes no more than the active turn, outside its group, and the native-busy
      slot; the turn may become settled and its lookup may start or end. */
  predicate Reworks(s: State, s': State) {
    && s.turn.Some? && s'.turn.Some?
    && s' == s.(turn := s'.turn, nativeActive := s'.nativeActive)
    && var t := s.turn.value;
    && var t' := s'.turn.value;
    && t'.accepted == t.accepted
    && t'.epoch == t.epoch
    && t'.requestAccepted == t.requestAccepted
    && t'.clientId == t.clientId
    && t'.pendingCompletions == t.pendingCompletions
    && t'.kind == t.kind
    && (t'.completed || (t'.canonical == t.canonical && t'.nativeId == t.nativeId))
    && t'.proof == t.proof
    && t'.canonical.Some? == t.canonical.Some?
    && (t.completed ==> t'.completed)
    && (t'.phase == Fenced <==> t.phase == Fenced)
    && t'.steeringClosed == t.steeringClosed
    && t'.completionSeen == t.completionSeen
    && (t'.lookup == t.lookup
        || t'.lookup == Done
        || (t'.lookup == GroupLookup && (s.fenced || (t.steeringClosed && t.canonical.Some?)))
        || (t'.lookup.SingleLookup? && (s.fenced || (|t.accepted| == 1 && t.requestAccepted && t.clientId.Some?))))
  }

  lemma ReworkSound(s: State, s': State)
    requires Settleable(s)
    requires s.overlapped || Reworks(s, s')
    requires s'.overlapped == s.overlapped
    ensures Sound(s')
  {}

  lemma ReportConflictSound(s: State, reason: Reason)
    requires Settleable(s)
    ensures Settleable(ReportConflict(s, reason))
  {
    ReworkSound(s, ReportConflict(s, reason));
  }

  lemma CompleteSingleSound(s: State, rec: NativeTurn, index: Option<nat>)
    requires Settleable(s)
    ensures Settleable(CompleteSingle(s, rec, index))
  {
    ReworkSound(s, CompleteSingle(s, rec, index));
  }

  lemma SettleSteeredSound(s: State, rec: NativeTurn)
    requires Settleable(s)
    ensures Settleable(SettleSteered(s, rec))
  {
    if !s.turn.value.completed && VerifyGroup(rec, SentIds(s.turn.value.accepted)).Refused? {
      ReportConflictSound(s, VerifyGroup(rec, SentIds(s.turn.value.accepted)).reason);
    } else if !s.overlapped {
      // A fenced turn is already completed.
      assert !s.turn.value.completed ==> !s.fenced;
      ReworkSound(s, SettleSteered(s, rec));
    }
  }

  lemma SingleLookupSound(s: State, keepPending: bool)
    requires Settleable(s)
    requires s.overlapped || s.fenced || (|s.turn.value.accepted| == 1 && s.turn.value.requestAccepted)
    ensures Settleable(StartSingleLookup(s, keepPending))
  {
    if s.turn.value.lookup == NoLookup && !s.turn.value.completed {
      if s.turn.value.clientId.None? {
        ReportConflictSound(s, NoClientId);
      } else {
        ReworkSound(s, StartSingleLookup(s, keepPending));
      }
    }
  }

  lemma GroupLookupSound(s: State)
    requires Settleable(s)
    requires s.overlapped || s.fenced || (s.turn.value.steeringClosed && s.turn.value.canonical.Some?)
    ensures Settleable(StartGroupLookup(s))
  {
    ReworkSound(s, StartGroupLookup(s));
  }

  lemma RouteBufferedSound(s: State, rec: NativeTurn)
    requires Settleable(s)
    requires s.overlapped || s.fenced || (s.turn.value.steeringClosed && s.turn.value.canonical.Some?)
    ensures Settleable(RouteBuffered(s, rec))
  {
    SettleSteeredSound(s, rec);
    GroupLookupSound(s);
  }

  lemma ResumeBufferedSound(s: State)
    requires Sound(s) && s.turn.Some?
    ensures Sound(ResumeBuffered(s)) && ResumeBuffered(s).turn.Some?
    ensures ResumeBuffered(s).steer == s.steer
  {
    if CanResume(s) {
      RouteBufferedSound(s, s.turn.value.terminal.value);
    }
  }

  // ---- Steering --------------------------------------------------------------

  lemma TryAdmitSteerSound(s: State)
    requires Sound(s)
    ensures Sound(TryAdmitSteer(s))
  {}

  lemma FenceSteerSound(s: State, epoch: nat)
    requires Sound(s.(steer := None))
    requires !s.overlapped && !s.fenced ==> s.turn.Some? && s.turn.value.epoch == epoch
    ensures Sound(FenceSteer(s.(steer := None), epoch))
  {
    if s.turn.Some? {
      FenceTurnSound(s.(steer := None));
    }
  }

  lemma JoinGroupSound(s: State)
    requires Sound(s) && s.steer.Some? && |s.queue| > 0 && s.queue[0] == s.steer.value.dispatch.input
    ensures Sound(JoinGroup(s, s.steer.value))
    ensures !s.overlapped && !s.fenced ==> JoinGroup(s, s.steer.value).turn.Some?
  {
    hide Members, Answered;
    if !s.overlapped && !s.fenced {
      var t := s.turn.value;
      var rpc := s.steer.value;
      MembersAppend(t.accepted, rpc.dispatch);
      assert s.queue == [rpc.dispatch.input] + s.queue[1..];
      assert Answered(s.finals) + (Members(t.accepted) + [rpc.dispatch.input]) + s.queue[1..]
          == Answered(s.finals) + Members(t.accepted) + s.queue;
    }
  }

  lemma AfterJoinSound(s: State, epoch: nat)
    requires Sound(s)
    ensures Sound(AfterJoin(s, epoch))
  {
    if CanResume(s) {
      ResumeBufferedSound(s);
    } else {
      TryAdmitSteerSound(s);
    }
  }

  lemma SteerResponseSound(s: State, steeredId: Option<Id>)
    requires Sound(s)
    ensures Sound(OnSteerResponse(s, steeredId))
  {
    if SteerAccepted(s, steeredId) {
      JoinGroupSound(s);
      AfterJoinSound(JoinGroup(s, s.steer.value), s.steer.value.epoch);
    } else if s.steer.Some? {
      FenceSteerSound(s, s.steer.value.epoch);
    }
  }

  lemma RouteHeldSound(s: State)
    requires Settleable(s)
    requires s.overlapped || s.fenced || (s.turn.value.steeringClosed && s.turn.value.canonical.Some?)
    ensures Sound(RouteHeld(s))
  {
    if s.turn.value.terminal.Some? {
      RouteBufferedSound(s, s.turn.value.terminal.value);
    }
  }

  lemma SteerErrorSound(s: State, refusal: Failure)
    requires Sound(s)
    ensures Sound(OnSteerError(s, refusal))
  {
    hide RouteHeld, PendingsIdle, Members, Answered;
    if s.steer.Some? {
      if !(refusal.rpc && refusal.definite) {
        FenceSteerSound(s, s.steer.value.epoch);
      } else if s.turn.Some? && s.turn.value.epoch == s.steer.value.epoch {
        RouteHeldSound(CloseSteering(s));
      }
    }
  }

  // ---- Notifications ----------------------------------------------------------

  lemma PublishBusySound(s: State)
    requires Sound(s)
    ensures Sound(PublishBusy(s)) && Sound(SettleState(s)) && Sound(s.(idleTimer := true))
  {}

  lemma NativeSlotSound(s: State, native: Option<Id>)
    requires Sound(s)
    ensures Sound(s.(nativeActive := native))
  {}

  /** The steps of turn/started before its kick. */
  lemma ProveStartedSound(s: State, id: Id, exact: bool)
    requires Sound(s) && s.turn.Some?
    requires exact ==> !Contradicts(s.turn.value, id)
    ensures Sound(With(s, ProveStarted(s.turn.value, id, exact)))
  {}

  lemma ServerStartedSound(s: State)
    requires Sound(s) && s.turn.Some?
    ensures Sound(With(s, s.turn.value.(serverStarted := true)))
  {}

  lemma HoldNoteSound(s: State, note: Note)
    requires Sound(s) && s.turn.Some?
    ensures Sound(With(s, s.turn.value.(pendingNotes := s.turn.value.pendingNotes + [note])))
  {}

  lemma AfterStartedSound(s: State, id: Id, note: Note)
    requires Sound(s) && s.turn.Some? && note.Started?
    ensures Sound(AfterStarted(s, id, note))
  {
    var t := s.turn.value;
    if t.nativeId == Some(id) {
      ServerStartedSound(s);
      TryAdmitSteerSound(With(s, t.(serverStarted := true)));
    } else if !t.requestAccepted && t.kind == StartRequest {
      HoldNoteSound(s, note);
    } else {
      PublishBusySound(s);
    }
  }

  lemma OnStartedForSound(s: State, id: Id, turnParam: Option<Id>, rec: NativeTurn)
    requires Sound(s) && s.turn.Some?
    ensures Sound(OnStartedFor(s, s.turn.value, id, turnParam, rec))
  {
    var t := s.turn.value;
    var exact := |ExactFor(rec, t.clientId)| == 1;
    assert With(s, t) == s;
    if exact && Contradicts(t, id) {
      FenceTurnSound(s);
    } else {
      ProveStartedSound(s, id, exact);
      AfterStartedSound(With(s, ProveStarted(t, id, exact)), id, Started(turnParam, rec));
    }
  }

  lemma OnStartedSound(s: State, turnParam: Option<Id>, rec: NativeTurn, replayed: bool)
    requires Sound(s)
    ensures Sound(OnStarted(s, turnParam, rec, replayed))
  {
    var id := NoteId(turnParam, rec);
    NativeSlotSound(s, id);
    var s1 :=
      if id.Some? && (!replayed || s.nativeActive.None? || s.nativeActive == id) then s.(nativeActive := id) else s;
    PublishBusySound(s1);
    if s1.turn.Some? && id.Some? {
      OnStartedForSound(s1, id.value, turnParam, rec);
    }
  }

  /** Holding a completion closes steering and changes nothing else that matters. */
  lemma HoldCompletionSound(s: State, id: Option<Id>, rec: NativeTurn)
    requires Sound(s) && s.turn.Some?
    ensures Sound(With(s, HoldCompletion(s.turn.value, id, rec)))
  {}

  lemma OnGroupCompletedSound(s: State, id: Option<Id>, rec: NativeTurn)
    requires Sound(s) && s.turn.Some? && InGroupMode(s, s.turn.value)
    ensures Sound(OnGroupCompleted(s, s.turn.value, id, rec))
  {
    var t := s.turn.value;
    HoldCompletionSound(s, id, rec);
    if !Steering(s, t) && !t.startPending {
      SettleSteeredSound(With(s, HoldCompletion(t, id, rec)), rec);
      GroupLookupSound(With(s, HoldCompletion(t, id, rec)));
    }
  }

  lemma ProveCompletedSound(s: State, id: Id, rec: NativeTurn)
    requires Sound(s) && s.turn.Some? && !Contradicts(s.turn.value, id)
    ensures Sound(With(s, ProveCompleted(s.turn.value, id, rec)))
  {}

  lemma BufferCompletionSound(s: State, rec: NativeTurn)
    requires Sound(s) && s.turn.Some? && !InGroupMode(s, s.turn.value)
    ensures Sound(With(s, s.turn.value.(pendingCompletions := s.turn.value.pendingCompletions + [rec])))
  {}

  lemma UpgradeByCompletionSound(s: State, id: Id, rec: NativeTurn)
    requires Sound(s) && s.turn.Some?
    ensures Sound(UpgradeByCompletion(s, id, rec))
  {
    if Contradicts(s.turn.value, id) {
      FenceTurnSound(s);
    } else {
      ProveCompletedSound(s, id, rec);
    }
  }

  lemma OnSingleCompletedSound(s: State, id: Option<Id>, rec: NativeTurn)
    requires Sound(s) && s.turn.Some? && !InGroupMode(s, s.turn.value)
    ensures Sound(OnSingleCompleted(s, s.turn.value, id, rec))
  {
    var t := s.turn.value;
    assert With(s, t) == s;
    var exact := ExactFor(rec, t.clientId);
    if |exact| == 1 && UpgradesToProof(t, id) {
      UpgradeByCompletionSound(s, id.value, rec);
    } else if |exact| == 1 {
      CompleteSingleSound(s, rec, Some(exact[0]));
    } else if !t.requestAccepted {
      BufferCompletionSound(s, rec);
    } else if t.nativeId.Some? && id == t.nativeId && t.kind == StartRequest {
      CompleteSingleSound(s, rec, None);
    } else {
      SingleLookupSound(s, false);
    }
  }

  lemma TextSound(s: State, seen: set<Id>, agent: string, final: Answer)
    requires Sound(s) && s.turn.Some?
    ensures Sound(With(s, s.turn.value.(seenItems := seen, allAgentText := agent, finalText := final)))
  {}

  lemma OnProgressSound(s: State, note: Note)
    requires Sound(s)
    ensures Sound(OnProgress(s, note))
  {
    if s.turn.Some? {
      var t := s.turn.value;
      if !t.requestAccepted {
        HoldNoteSound(s, note);
      } else {
        TextSound(s, Heard(t, note).0, Heard(t, note).1, Heard(t, note).2);
      }
    }
  }

  // ---- The drain loop ----------------------------------------------------------

  /** The drain loop takes the head only when nothing is in hand. */
  lemma DrainLoopSound(s: State)
    requires Sound(s)
    requires s.overlapped || s.fenced || (s.turn.None? && !s.pc.Dequeued?)
    ensures Sound(DrainLoop(s))
  {
    hide Members, Answered;
    if !s.overlapped && !s.fenced && !(|s.queue| == 0 || GateCloses(s)) {
      assert s.queue == [s.queue[0]] + s.queue[1..];
      assert InHand(s) == [];
      assert InHand(DrainLoop(s)) == [s.queue[0]];
      assert Answered(s.finals) + [s.queue[0]] + s.queue[1..] == Answered(s.finals) + [] + s.queue;
    }
  }

  lemma KickDrainSound(s: State)
    requires Sound(s)
    ensures Sound(KickDrain(s))
  {
    if s.pc == Idle {
      DrainLoopSound(s);
    }
  }

  lemma EndOfBodySound(s: State)
    requires Sound(s)
    requires s.overlapped || s.fenced || (s.turn.None? && !s.pc.Dequeued?)
    ensures Sound(EndOfBody(s))
  {
    PublishBusySound(s);
    DrainLoopSound(if |s.queue| == 0 || GateCloses(s) then SettleState(s) else s);
  }

  lemma OnCompletedSound(s: State, turnParam: Option<Id>, rec: NativeTurn)
    requires Sound(s)
    ensures Sound(OnCompleted(s, turnParam, rec))
  {
    var id := NoteId(turnParam, rec);
    NativeSlotSound(s, None);
    var s1 := ClearNative(s, id);
    if s1.turn.None? {
      PublishBusySound(s1);
      KickDrainSound(SettleState(s1));
    } else if InGroupMode(s1, s1.turn.value) {
      OnGroupCompletedSound(s1, id, rec);
    } else {
      OnSingleCompletedSound(s1, id, rec);
    }
  }

  lemma OnNoteSound(s: State, note: Note, replayed: bool)
    requires Sound(s)
    ensures Sound(OnNote(s, note, replayed))
  {
    match note {
      case Started(turnParam, rec) => OnStartedSound(s, turnParam, rec, replayed);
      case Completed(turnParam, rec) => OnCompletedSound(s, turnParam, rec);
      case TokenUsage(_, _) =>
      case _ => OnProgressSound(s, note);
    }
  }

  // ---- History lookups -----------------------------------------------------------

  lemma FinishLookupSound(s: State)
    requires Settleable(s)
    ensures Settleable(FinishLookup(s))
  {
    ReworkSound(s, FinishLookup(s));
  }

  lemma OnSingleScannedSound(s: State, candidates: seq<NativeTurn>, failed: bool, expired: bool)
    requires Settleable(s) && s.turn.value.lookup.SingleLookup? && s.turn.value.clientId.Some?
    ensures Sound(OnSingleScanned(s, candidates, failed, expired))
  {
    FinishLookupSound(s);
    var s1 := FinishLookup(s);
    var matches := SingleMatches(candidates, s.turn.value.clientId.value);
    if |matches| == 1 { CompleteSingleSound(s1, matches[0].0, Some(matches[0].1)); }
    forall reason ensures Sound(ReportConflict(s1, reason)) { ReportConflictSound(s1, reason); }
  }

  lemma AdoptMatchSound(s: State, rec: NativeTurn, lastIndex: nat)
    requires Settleable(s) && !s.turn.value.completed
    requires s.overlapped || s.turn.value.canonical.Some?
    ensures Sound(AdoptMatch(s, rec, lastIndex))
  {
    if !s.overlapped {
      assert !s.fenced;
      ReworkSound(s, AdoptMatch(s, rec, lastIndex));
    }
  }

  lemma ResolveGroupSound(s: State, matches: seq<(NativeTurn, nat)>)
    requires Settleable(s) && !s.turn.value.completed
    requires s.overlapped || s.turn.value.canonical.Some?
    ensures Sound(ResolveGroup(s, matches))
  {
    if |matches| == 1 {
      AdoptMatchSound(s, matches[0].0, matches[0].1);
    } else {
      ReportConflictSound(s, if |matches| == 0 then NoFullGroup else ManyFullGroups);
    }
  }

  lemma OnGroupScannedSound(s: State, candidates: seq<NativeTurn>, failed: bool)
    requires Settleable(s) && s.turn.value.lookup == GroupLookup
    ensures Sound(OnGroupScanned(s, candidates, failed))
  {
    FinishLookupSound(s);
    var s1 := FinishLookup(s);
    ReportConflictSound(s1, GroupLookupFailed);
    if !s.turn.value.completed {
      ResolveGroupSound(s1, GroupMatches(candidates, SentIds(s.turn.value.accepted)));
    }
  }

  lemma OnHistoryScannedSound(s: State, candidates: seq<NativeTurn>, failed: bool, expired: bool)
    requires Sound(s)
    ensures Sound(OnHistoryScanned(s, candidates, failed, expired))
  {
    if s.turn.Some? {
      match s.turn.value.lookup {
        case SingleLookup(_, _) =>
          if s.turn.value.clientId.Some? { OnSingleScannedSound(s, candidates, failed, expired); }
        case GroupLookup => OnGroupScannedSound(s, candidates, failed);
        case _ =>
      }
    }
  }

  // ---- The root request ----------------------------------------------------------

  lemma BeginTurnSound(s: State)
    requires Sound(s) && s.pc.Dequeued?
    ensures Sound(BeginTurn(s, s.pc.input))
  {
    var t := BeginTurn(s, s.pc.input).turn.value;
    assert Members(t.accepted) == [s.pc.input] by { MembersAppend([], t.accepted[0]); }
  }

  lemma AcceptRootSound(s: State, respId: Option<Id>)
    requires Sound(s) && s.pc == AwaitResponse && s.turn.Some?
    requires !ContradictsProof(s.turn.value, respId)
    requires respId.None? ==> s.turn.value.nativeId.None?
    ensures Sound(AcceptRoot(s, respId))
  {
    hide IdlePendings;
  }

  lemma SettleAfterResponseSound(s: State)
    requires Sound(s)
    ensures Sound(SettleAfterResponse(s))
  {
    if s.turn.Some? {
      ResumeBufferedSound(s);
      if SettlesBuffered(s) {
        SettleSteeredSound(ResumeBuffered(s), s.turn.value.terminal.value);
      }
    }
  }

  lemma {:induction false} ReplaySound(s: State, notes: seq<Note>)
    requires Sound(s)
    ensures Sound(Replay(s, notes))
    decreases |notes|
  {
    if notes != [] && s.turn.Some? {
      OnNoteSound(s, notes[0], true);
      var note := notes[0];
      var id := if note.Started? || note.Completed? then NoteId(note.turnParam, note.rec) else note.turnParam;
      ReplaySound(if id == s.turn.value.nativeId then OnNote(s, note, true) else s, notes[1..]);
    }
  }

  lemma ReplayNotesSound(s: State)
    requires Sound(s)
    ensures Sound(ReplayNotes(s))
  {
    if s.turn.Some? {
      var t := s.turn.value;
      assert Sound(With(s, t.(pendingNotes := [])));
      ReplaySound(With(s, t.(pendingNotes := [])), t.pendingNotes);
    }
  }

  lemma IdlePendingsSettleNothing(s: State, pendings: seq<NativeTurn>)
    requires s.turn.Some? && IdlePendings(pendings, s.turn.value.clientId, s.turn.value.nativeId, s.turn.value.kind)
    ensures SettleFrom(s, pendings) == s
  {
    hide ExactPendings, NativePendings;
  }

  lemma SettleFromSound(s: State, pendings: seq<NativeTurn>)
    requires Sound(s) && s.turn.Some?
    requires var t := s.turn.value;
             pendings != [] && !s.overlapped && !s.fenced && !IdlePendings(pendings, t.clientId, t.nativeId, t.kind) ==>
             t.completed || (s.steer.None? && |t.accepted| == 1 && t.requestAccepted)
    ensures Sound(SettleFrom(s, pendings))
  {
    var t := s.turn.value;
    if IdlePendings(pendings, t.clientId, t.nativeId, t.kind) {
      IdlePendingsSettleNothing(s, pendings);
    } else if !t.completed {
      var exact := ExactPendings(pendings, t.clientId);
      var native := NativePendings(pendings, t.nativeId);
      if |exact| == 1 { CompleteSingleSound(s, exact[0].0, Some(exact[0].1)); }
      else if |exact| > 1 || |native| > 1 { ReportConflictSound(s, ManyPreResponse); }
      else if |native| == 1 && t.kind == SteerRequest { SingleLookupSound(s, false); }
      else if |native| == 1 { CompleteSingleSound(s, native[0], None); }
      else { SingleLookupSound(s, true); }
    }
  }

  /** An accepted group, or one with a steer out, has nothing buffered that settles it. */
  lemma AcceptedPendingsIdle(s: State)
    requires Live(s) && !s.fenced && s.pc == AwaitDone && !s.turn.value.completed
    ensures var t := s.turn.value;
            |t.accepted| > 1 || s.steer.Some? ==> IdlePendings(t.pendingCompletions, t.clientId, t.nativeId, t.kind)
  {
    hide IdlePendings;
  }

  lemma ClearedPendingsSound(s: State)
    requires Sound(s)
    ensures s.turn.Some? ==> Sound(With(s, s.turn.value.(pendingCompletions := [])))
  {
    hide Members, Answered, ExactPendings, NativePendings;
  }

  lemma SettlePendingsSound(s: State)
    requires Sound(s) && s.pc == AwaitDone
    ensures Sound(SettlePendings(s))
  {
    hide SettleFrom, IdlePendings, Members, Answered;
    ClearedPendingsSound(s);
    if s.turn.Some? {
      var s1 := With(s, s.turn.value.(pendingCompletions := []));
      if !s.overlapped && !s.fenced && !s.turn.value.completed { AcceptedPendingsIdle(s); }
      SettleFromSound(s1, s.turn.value.pendingCompletions);
    }
  }

  lemma AfterAcceptSound(s: State)
    requires Sound(s) && s.pc == AwaitDone && s.turn.Some?
    ensures Sound(AfterAccept(s))
  {
    SettleAfterResponseSound(s);
    SettleAfterResponseSteady(s);
    var s1 := SettleAfterResponse(s);
    ReplayNotesSound(s1);
    ReplayNotesSteady(s1);
    var s2 := ReplayNotes(s1);
    SettlePendingsSound(s2);
    TryAdmitSteerSound(SettlePendings(s2));
  }

  lemma FenceRootSound(s: State)
    requires Sound(s) && s.turn.Some?
    ensures Sound(FenceRoot(s))
  {
    FenceTurnSound(With(s, s.turn.value.(startPending := false)));
  }

  lemma OnRootResponseSound(s: State, responseId: Option<Id>)
    requires Sound(s)
    ensures Sound(OnRootResponse(s, responseId))
  {
    if s.pc == AwaitResponse && s.turn.Some? {
      var respId := if responseId.Some? then responseId else s.turn.value.nativeId;
      if ContradictsProof(s.turn.value, respId) {
        FenceRootSound(s);
      } else {
        AcceptRootSound(s, respId);
        AfterAcceptSound(AcceptRoot(s, respId));
      }
    }
  }

  lemma FallBackSound(s: State)
    requires Sound(s) && s.turn.Some? && s.pc == AwaitResponse
    ensures Sound(FallBack(s))
  {}

  lemma RetrySound(s: State, r: RootRpc)
    requires Sound(s) && s.turn.Some?
    ensures Sound(With(s.(cleanUnsupported := true), s.turn.value.(rpc := r)))
  {}

  /** Without positive evidence the group is still its root, and no steer is in flight. */
  lemma ThrowSound(s: State, message: string)
    requires Sound(s) && s.turn.Some? && s.pc == AwaitResponse && !PositiveEvidence(s.turn.value)
    ensures Sound(s.(pc := Threw(message)))
  {}

  lemma FenceAndReturnSound(s: State)
    requires Sound(s) && s.turn.Some?
    ensures Sound(FenceTurn(s).(pc := Returned))
  {
    FenceTurnSound(s);
  }

  lemma OnRootErrorSound(s: State, failure: Failure)
    requires Sound(s)
    ensures Sound(OnRootError(s, failure))
  {
    if s.pc == AwaitResponse && s.turn.Some? {
      var s' := OnRootError(s, failure);
      if s' == FallBack(s) {
        FallBackSound(s);
      } else if s'.pc == s.pc {
        RetrySound(s, s.turn.value.rpc.(capabilityRetried := true, structured := false));
      } else if s'.pc == Returned {
        FenceAndReturnSound(s);
      } else {
        ThrowSound(s, failure.message);
      }
    }
  }

  // ---- Finals ----------------------------------------------------------------------

  lemma {:induction false} MembersAt(group: seq<Dispatch>)
    ensures |Members(group)| == |group|
    ensures forall i | 0 <= i < |group| :: Members(group)[i] == group[i].input
  {
    if group != [] { MembersAt(group[..|group| - 1]); }
  }

  lemma {:induction false} AnsweredAt(finals: seq<Final>)
    ensures |Answered(finals)| == |finals|
    ensures forall i | 0 <= i < |finals| :: Answered(finals)[i] == finals[i].input
  {
    if finals != [] { AnsweredAt(finals[..|finals| - 1]); }
  }

  /** The final of one member: only the last carries the answer and the turn's usage. */
  function MemberFinal(t: Turn, k: nat, usage: map<Id, Usage>): Final
    requires k < |t.accepted|
  {
    if k + 1 == |t.accepted|
    then Final(t.accepted[k].input, t.nativeId, DeliveredText(t), false, UsageOf(usage, t.nativeId))
    else Final(t.accepted[k].input, t.nativeId, Said(""), true, None)
  }

  lemma {:induction false} EmitGroupFinals(s: State, t: Turn, from: nat)
    requires from < |t.accepted|
    ensures var s' := EmitGroup(s, t, from);
            && s' == s.(finals := s'.finals, usage := if t.nativeId.Some? then s.usage - {t.nativeId.value} else s.usage)
            && |s'.finals| == |s.finals| + |t.accepted| - from
            && (forall i | 0 <= i < |s.finals| :: s'.finals[i] == s.finals[i])
            && forall k | from <= k < |t.accepted| :: s'.finals[|s.finals| + k - from] == MemberFinal(t, k, s.usage)
    decreases |t.accepted| - from
  {
    var isReal := from + 1 == |t.accepted|;
    var s1 := EmitFinal(s, t.accepted[from].input, t.nativeId, if isReal then DeliveredText(t) else Said(""), !isReal);
    assert EmitGroup(s, t, from) == EmitGroup(s1, t, from + 1);
    if isReal {
      assert EmitGroup(s1, t, from + 1) == s1;
    } else {
      EmitGroupFinals(s1, t, from + 1);
    }
  }

  lemma FinalizeAnswers(s: State, t: Turn)
    requires |t.accepted| >= 1 && t.phase != Fenced
    ensures Answered(Finalize(s, t).finals) == Answered(s.finals) + Members(t.accepted)
    ensures Finalize(s, t) == s.(finals := Finalize(s, t).finals, usage := Finalize(s, t).usage)
  {
    hide Members, Answered, EmitGroup;
    EmitGroupFinals(s, t, 0);
    var s' := EmitGroup(s, t, 0);
    AnsweredAt(s'.finals);
    AnsweredAt(s.finals);
    MembersAt(t.accepted);
    forall i | 0 <= i < |s'.finals|
      ensures Answered(s'.finals)[i] == (Answered(s.finals) + Members(t.accepted))[i]
    {
      if i >= |s.finals| {
        var k := i - |s.finals|;
        assert s'.finals[|s.finals| + k - 0] == MemberFinal(t, k, s.usage);
      }
    }
  }

  lemma OnTurnDoneSound(s: State)
    requires Sound(s)
    ensures Sound(OnTurnDone(s))
  {
    hide PendingsIdle, Members, Answered;
    if s.pc == AwaitDone && s.turn.Some? && s.turn.value.completed {
      EmitGroupFrame(s, s.turn.value, 0);
      if !s.overlapped && !s.fenced {
        FinalizeAnswers(s, s.turn.value);
        assert Answered(s.finals) + Members(s.turn.value.accepted) + s.queue
            == (Answered(s.finals) + Members(s.turn.value.accepted)) + [] + s.queue;
      }
    }
  }

  /** A failure final answers the whole of what is in hand: the input just dequeued, or a
      group that is still its root. */
  lemma FailureFinalSound(s: State, input: Input, message: string)
    requires Sound(s) && !s.fenced
    requires s.overlapped || (InHand(s) == [input] && s.steer.None?)
    ensures Sound(FailureFinal(s, input, message))
  {
    if !s.overlapped {
      var s' := FailureFinal(s, input, message);
      AnsweredAppend(s.finals, s'.finals[|s.finals|]);
      assert InHand(s') == [];
      assert Answered(s.finals) + [input] + [] + s.queue == Answered(s.finals) + [input] + s.queue;
    }
  }

  lemma AnswerFailureSound(s: State, input: Input, message: string)
    requires Sound(s)
    requires s.overlapped || s.fenced || (InHand(s) == [input] && s.steer.None?)
    ensures Sound(AnswerFailure(s, input, message))
  {
    if !s.fenced {
      FailureFinalSound(s, input, message);
      EndOfBodySound(FailureFinal(s, input, message));
    }
  }

  lemma OnDrainResumedSound(s: State)
    requires Sound(s)
    ensures Sound(OnDrainResumed(s))
  {
    match s.pc {
      case Returned => EndOfBodySound(s);
      case Threw(message) =>
        if s.turn.Some? && |s.turn.value.accepted| > 0 {
          MembersAt(s.turn.value.accepted);
          AnswerFailureSound(s, s.turn.value.accepted[0].input, message);
        }
      case _ =>
    }
  }

  // ---- Every step --------------------------------------------------------------------

  lemma ReceiveSound(s: State, content: string, sidecar: Option<Sidecar>, replyId: Option<Id>, steerable: bool)
    requires Sound(s)
    ensures Sound(Receive(s, content, sidecar, replyId, steerable))
  {
    if !s.overlapped && !s.fenced {
      var s' := Receive(s, content, sidecar, replyId, steerable);
      var input := s'.inbound[|s.inbound|];
      assert Answered(s.finals) + InHand(s) + (s.queue + [input])
          == (Answered(s.finals) + InHand(s) + s.queue) + [input];
    }
  }

  lemma StepSound(s: State, e: Event)
    requires Sound(s)
    ensures Sound(Step(s, e))
  {
    match e {
      case Framed(content, sidecar, replyId, steerable) =>
        ReceiveSound(s, content, sidecar, replyId, steerable);
        var s1 := Receive(s, content, sidecar, replyId, steerable);
        TryAdmitSteerSound(s1);
        KickDrainSound(TryAdmitSteer(s1));
      case PlainLine(line) =>
        ReceiveSound(s, line, None, None, false);
        KickDrainSound(Receive(s, line, None, None, false));
      case ThreadReady => if s.pc.Dequeued? { BeginTurnSound(s); }
      case ThreadFailed(message) => if s.pc.Dequeued? { AnswerFailureSound(s, s.pc.input, message); }
      case RootResponse(responseId) => OnRootResponseSound(s, responseId);
      case RootError(failure) => OnRootErrorSound(s, failure);
      case SteerResponse(steeredId) => SteerResponseSound(s, steeredId);
      case SteerError(refusal) => SteerErrorSound(s, refusal);
      case Notify(note) => OnNoteSound(s, note, false);
      case HistoryScanned(candidates, failed, expired) => OnHistoryScannedSound(s, candidates, failed, expired);
      case TurnDone => OnTurnDoneSound(s);
      case DrainResumed => OnDrainResumedSound(s);
      case IdleTimerFired =>
      case ControlReaccepted => PublishBusySound(s);
    }
  }
}
