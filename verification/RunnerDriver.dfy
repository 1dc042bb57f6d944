/** The runner as the program has it: one record of module-level variables, and one mutable
    ActiveTurn object that its handlers and continuations share. Every method is proved to
    change the state exactly as RunnerSteps says. */
module RunnerDriver {
  import opened Prelude
  import opened NativeTurns
  import opened RunnerTypes
  import Spec = RunnerSteps

  lemma {:induction false} VerdictFromIndex(rec: NativeTurn, ids: seq<Id>, previous: int)
    requires previous >= -1 && VerifyFrom(rec, ids, previous).Matched?
    ensures VerifyFrom(rec, ids, previous).lastIndex >= previous
    decreases |ids|
  {
    if ids != [] { VerdictFromIndex(rec, ids[1..], ExactIndexes(rec, ids[0])[0]); }
  }

  lemma VerdictIndex(rec: NativeTurn, ids: seq<Id>)
    requires VerifyGroup(rec, ids).Matched?
    ensures VerifyGroup(rec, ids).lastIndex >= -1
  {
    if rec.full && ids != [] { VerdictFromIndex(rec, ids, -1); }
  }

  lemma {:induction false} SingleMatchesSnoc(records: seq<NativeTurn>, cid: Id, rec: NativeTurn)
    ensures Spec.SingleMatches(records + [rec], cid) == Spec.SingleMatches(records, cid) + Spec.SingleMatch(rec, cid)
  {
    if records != [] {
      assert (records + [rec])[1..] == records[1..] + [rec];
      SingleMatchesSnoc(records[1..], cid, rec);
    }
  }

  lemma {:induction false} GroupMatchesSnoc(records: seq<NativeTurn>, ids: seq<Id>, rec: NativeTurn)
    ensures Spec.GroupMatches(records + [rec], ids) == Spec.GroupMatches(records, ids) + Spec.GroupMatch(rec, ids)
  {
    if records != [] {
      assert (records + [rec])[1..] == records[1..] + [rec];
      GroupMatchesSnoc(records[1..], ids, rec);
    }
  }

  lemma {:induction false} ExactPendingsSnoc(records: seq<NativeTurn>, clientId: Option<Id>, rec: NativeTurn)
    ensures Spec.ExactPendings(records + [rec], clientId)
            == Spec.ExactPendings(records, clientId) + Spec.ExactPending(rec, clientId)
  {
    if records != [] {
      assert (records + [rec])[1..] == records[1..] + [rec];
      ExactPendingsSnoc(records[1..], clientId, rec);
    }
  }

  class ActiveTurn {
    const epoch: nat
    const clientId: Option<Id>
    var kind: RequestKind
    var rpc: RootRpc
    var nativeId: Option<Id>
    var canonical: Option<Id>
    var proof: Option<Proof>
    var phase: Phase
    var accepted: seq<Dispatch>
    var requestAccepted: bool
    var startPending: bool
    var serverStarted: bool
    var steeringClosed: bool
    var completionSeen: bool
    var terminal: Option<NativeTurn>
    var pendingCompletions: seq<NativeTurn>
    var pendingNotes: seq<Note>
    var lookup: Lookup
    var conflictReported: bool
    var completed: bool
    var finalText: Answer
    var allAgentText: string
    var seenItems: set<Id>

    function View(): Turn
      reads this
    {
      Turn(epoch, clientId, kind, rpc, nativeId, canonical, proof, phase, accepted, requestAccepted, startPending,
           serverStarted, steeringClosed, completionSeen, terminal, pendingCompletions, pendingNotes, lookup,
           conflictReported, completed, finalText, allAgentText, seenItems)
    }

    /** makeTurn, with the assignments runTurn makes before publishing the turn. */
    constructor (epoch: nat, clientId: Option<Id>, root: Dispatch, into: Option<Id>, structured: bool)
      ensures View() == Spec.NewTurn(epoch, clientId, root, into, structured)
    {
      this.epoch, this.clientId := epoch, clientId;
      kind := if into.Some? then SteerRequest else StartRequest;
      rpc := RootRpc(into, structured, false, false);
      nativeId, canonical, proof, phase, accepted := into, None, None, Starting, [root];
      requestAccepted, startPending, serverStarted := false, into.None?, into.Some?;
      steeringClosed, completionSeen, terminal := false, false, None;
      pendingCompletions, pendingNotes, lookup := [], [], NoLookup;
      conflictReported, completed, finalText, allAgentText, seenItems := false, false, Said(""), "", {};
    }

    /** Attribution failed closed: one explicit error, none of the streamed text. */
    method GiveUp(reason: Reason)
      modifies this
      ensures View() == old(View()).(conflictReported := true, finalText := IdentityConflict(reason),
                                     allAgentText := "", completed := true)
    {
      conflictReported := true;
      finalText := IdentityConflict(reason);
      allAgentText := "";
      completed := true;
    }

    method Complete(rec: NativeTurn, exactIndex: Option<nat>)
      requires !completed && rec.terminal
      modifies this
      ensures forall s: State | s.turn == Some(old(View())) :: Some(View()) == Spec.CompleteSingle(s, rec, exactIndex).turn
    {
      if exactIndex.Some? {
        finalText := Rebuild(rec, exactIndex.value);
        allAgentText := "";
      } else if rec.error.Some? && finalText == Said("") {
        finalText := NativeFailure(rec.error.value);
      }
      if rec.id.Some? { nativeId := rec.id; }
      completed := true;
    }

    /** Closes a verified group; without an index the streamed text stands. */
    method Close(rec: NativeTurn, lastIndex: int)
      requires lastIndex >= -1
      modifies this
      ensures View() == old(View()).(finalText := if lastIndex >= 0 then Rebuild(rec, lastIndex) else old(finalText),
                                     allAgentText := if lastIndex >= 0 then "" else old(allAgentText),
                                     terminal := Some(rec), completed := true, phase := Closing)
    {
      if lastIndex >= 0 {
        finalText := Rebuild(rec, lastIndex);
        allAgentText := "";
      }
      terminal := Some(rec);
      completed := true;
      phase := Closing;
    }

    /** The matched record's id becomes the turn's native identity. */
    method Rekey(id: Option<Id>)
      modifies this
      ensures View() == old(View()).(nativeId := if id.Some? then id else old(nativeId),
                                     canonical := if id.Some? then id else old(canonical))
    {
      if id.Some? {
        nativeId := id;
        canonical := id;
      }
    }

    method LeaveStarting()
      modifies `phase
      ensures View() == old(View()).(phase := if old(phase) == Starting then Open else old(phase))
    {
      if phase == Starting { phase := Open; }
    }

    method BindNative(id: Id)
      modifies `nativeId
      ensures View() == old(View()).(nativeId := if old(nativeId).None? then Some(id) else old(nativeId))
    {
      if nativeId.None? { nativeId := Some(id); }
    }

    /** proveCanonicalExact without its fence: the first exact proof wins; false on contradiction. */
    method ProveCanonicalExact(id: Id, witnessed: Proof) returns (consistent: bool)
      modifies `canonical, `proof
      ensures consistent == !Spec.Contradicts(old(View()), id)
      ensures View() == if consistent
                        then old(View()).(canonical := Some(id), proof := if old(canonical).None? then Some(witnessed) else old(proof))
                        else old(View())
    {
      if canonical.None? {
        canonical := Some(id);
        proof := Some(witnessed);
        return true;
      }
      return canonical == Some(id);
    }

    /** What an exact turn/started does to the turn before its kick. */
    method ProveByStart(id: Id) returns (consistent: bool)
      modifies this
      ensures consistent == !Spec.Contradicts(old(View()), id)
      ensures View() == if consistent then Spec.ProveStarted(old(View()), id, true) else old(View())
    {
      consistent := ProveCanonicalExact(id, ExactStarted);
      if !consistent { return; }
      BindNative(id);
      LeaveStarting();
    }

    method Hold(id: Option<Id>, rec: NativeTurn)
      modifies this
      ensures View() == Spec.HoldCompletion(old(View()), id, rec)
    {
      completionSeen := true;
      steeringClosed := true;
      var bufferedId := if terminal.Some? then terminal.value.id else None;
      if terminal.None? || id == canonical || bufferedId != canonical { terminal := Some(rec); }
    }

    /** What an exact turn/completed does while the root's start response is out. */
    method ProveByCompletion(id: Id, rec: NativeTurn) returns (consistent: bool)
      modifies this
      ensures consistent == !Spec.Contradicts(old(View()), id)
      ensures View() == if consistent then Spec.ProveCompleted(old(View()), id, rec) else old(View())
    {
      consistent := ProveCanonicalExact(id, ExactCompleted);
      if !consistent { return; }
      completionSeen := true;
      steeringClosed := true;
      terminal := Some(rec);
    }

    method Hear(note: Note)
      modifies this
      ensures View() == Spec.Hear(old(View()), note)
    {
      match note {
        case Delta(_, itemId, text) =>
          seenItems := seenItems + {itemId};
          allAgentText := allAgentText + text;
        case AgentItem(_, itemId, finalAnswer, text) =>
          if finalAnswer { finalText := Said(text); }
          else if itemId !in seenItems { allAgentText := allAgentText + text; }
        case _ =>
      }
    }

    method Accept(respId: Option<Id>)
      modifies this
      ensures View() == old(View()).(nativeId := respId, requestAccepted := true, startPending := false)
    {
      nativeId := respId;
      requestAccepted := true;
      startPending := false;
    }

    /** The response proves the canonical id, unless an exact proof has done so before. */
    method ProveByResponse(respId: Option<Id>)
      modifies this
      ensures View() == if old(completed) || respId.None? then old(View())
                        else old(View()).(canonical := respId,
                                          proof := if old(proof).Some? then old(proof)
                                                   else Some(if kind == SteerRequest then GoalSnapshot else StartResponse),
                                          phase := if old(phase) == Starting then Open else old(phase))
    {
      if !completed && respId.Some? {
        canonical := respId;
        if proof.None? { proof := Some(if kind == SteerRequest then GoalSnapshot else StartResponse); }
        LeaveStarting();
      }
    }

    /** The inactive-steer fallback: the request becomes a plain start. */
    method BecomeStart()
      modifies this
      ensures View() == old(View()).(rpc := old(rpc).(expected := None, fellBack := true), kind := StartRequest,
                                     nativeId := None, serverStarted := false)
    {
      rpc := rpc.(expected := None, fellBack := true);
      kind := StartRequest;
      nativeId := None;
      serverStarted := false;
    }

    method DropBuffers()
      modifies this
      ensures View() == old(View()).(pendingCompletions := [], pendingNotes := [])
    {
      pendingCompletions := [];
      pendingNotes := [];
    }

    method ClearText()
      modifies this
      ensures View() == old(View()).(finalText := Said(""), allAgentText := "", seenItems := {})
    {
      finalText := Said("");
      allAgentText := "";
      seenItems := {};
    }
  }

  /** The follow-up steer in flight, with the turn object its continuation holds on to. */
  datatype SteerInFlight = SteerInFlight(turn: ActiveTurn, dispatch: Dispatch, expected: Id)

  class Runner {
    const cfg: Config
    var queue: seq<Input>
    var pc: DrainPc
    var activeTurn: ActiveTurn?
    var epochs: nat
    var nativeActive: Option<Id>
    var steering: Option<SteerInFlight>
    var fenced: bool
    var cleanUnsupported: bool
    var idleTimer: bool
    var usage: map<Id, Usage>
    var finals: seq<Final>
    var published: seq<bool>
    // Every input received. The program keeps no such list: an object's identity is its own.
    var inbound: seq<Input>
    ghost var overlapped: bool

    ghost function View(): State
      reads this, activeTurn
    {
      State(cfg, queue, pc, if activeTurn == null then None else Some(activeTurn.View()), epochs, nativeActive,
            if steering.None? then None
            else Some(SteerRpc(steering.value.turn.epoch, steering.value.dispatch, steering.value.expected)),
            fenced, cleanUnsupported, idleTimer, usage, finals, published, inbound, overlapped)
    }

    /** Turn objects are told apart by their epoch. */
    ghost predicate Valid()
      reads this
    {
      && (activeTurn != null ==> activeTurn.epoch <= epochs)
      && (steering.Some? ==> steering.value.turn.epoch <= epochs)
      && (steering.Some? && activeTurn != null && steering.value.turn.epoch == activeTurn.epoch
          ==> steering.value.turn == activeTurn)
    }

    constructor (cfg: Config)
      ensures Valid() && View() == InitialState(cfg)
    {
      this.cfg := cfg;
      queue, pc, activeTurn, epochs, nativeActive, steering := [], Idle, null, 0, None, None;
      fenced, cleanUnsupported, idleTimer, usage, finals, published := false, false, false, map[], [], [false];
      inbound, overlapped := [], false;
    }

    // ---- Runner state markers --------------------------------------------------------

    method PublishBusy()
      modifies this`idleTimer, this`published
      ensures View() == Spec.PublishBusy(old(View()))
    {
      idleTimer := false;
      published := published + [true];
    }

    method SettleRunnerState()
      modifies this`idleTimer, this`published
      ensures View() == Spec.SettleState(old(View()))
    {
      if fenced { return; }
      if nativeActive.Some? { PublishBusy(); return; }
      if idleTimer { return; }
      idleTimer := true;
    }

    method IdleTimerFired()
      modifies this`idleTimer, this`published
      ensures View() == Spec.FireIdleTimer(old(View()))
    {
      if !idleTimer { return; }
      idleTimer := false;
      if fenced { return; }
      var busy := pc != Idle || |queue| > 0 || nativeActive.Some?;
      published := published + [busy];
    }

    // ---- Settlements -------------------------------------------------------------------

    /** fenceUnknown, and settling the fenced turn. */
    method FenceUnknown(turn: ActiveTurn)
      modifies this`fenced, turn
      ensures activeTurn == turn ==> View() == Spec.FenceTurn(old(View()))
      ensures activeTurn != turn ==> View() == old(View()).(fenced := true)
    {
      if !fenced {
        fenced := true;
        turn.phase := Fenced;
      }
      turn.completed := true;
    }

    /** Compare and clear: a newer native turn in the slot is never overwritten. */
    method ClearNative(id: Option<Id>)
      modifies this`nativeActive
      ensures View() == Spec.ClearNative(old(View()), id)
    {
      if id.Some? && nativeActive == id { nativeActive := None; }
    }

    method ReportIdentityConflict(reason: Reason)
      requires activeTurn != null
      modifies this`nativeActive, activeTurn
      ensures View() == Spec.ReportConflict(old(View()), reason)
    {
      var turn := activeTurn;
      if turn.conflictReported { return; }
      ClearNative(turn.nativeId);
      turn.GiveUp(reason);
    }

    method CompleteFromNative(rec: NativeTurn, exactIndex: Option<nat>)
      requires activeTurn != null
      modifies this`nativeActive, activeTurn
      ensures View() == Spec.CompleteSingle(old(View()), rec, exactIndex)
    {
      var turn := activeTurn;
      if turn.completed || !rec.terminal { return; }
      ClearNative(rec.id);
      turn.Complete(rec, exactIndex);
    }

    method SentClientIds(group: seq<Dispatch>) returns (ids: seq<Id>)
      ensures ids == Spec.SentIds(group)
    {
      ids := [];
      var k := 0;
      while k < |group|
        invariant k <= |group|
        invariant ids + Spec.SentIds(group[k..]) == Spec.SentIds(group)
      {
        assert group[k..][1..] == group[k + 1..];
        if group[k].clientId.Some? { ids := ids + [group[k].clientId.value]; }
        k := k + 1;
      }
    }

    method SettleSteeredCompletion(rec: NativeTurn)
      requires activeTurn != null
      modifies this`nativeActive, activeTurn
      ensures View() == Spec.SettleSteered(old(View()), rec)
    {
      var turn := activeTurn;
      if turn.completed { return; }
      var ids := SentClientIds(turn.accepted);
      var verdict := CheckGroup(rec, ids);
      if verdict.Refused? {
        ReportIdentityConflict(verdict.reason);
        return;
      }
      ClearNative(rec.id);
      VerdictIndex(rec, ids);
      turn.Close(rec, verdict.lastIndex);
    }

    /** reconcileCompletedTurn up to its first await. */
    method ReconcileCompletedTurn(keepPending: bool)
      requires activeTurn != null
      modifies this`nativeActive, activeTurn
      ensures View() == Spec.StartSingleLookup(old(View()), keepPending)
    {
      var turn := activeTurn;
      if turn.lookup != NoLookup || turn.completed { return; }
      if turn.clientId.None? {
        ReportIdentityConflict(NoClientId);
        return;
      }
      turn.lookup := SingleLookup(keepPending, keepPending && turn.nativeId.Some?);
    }

    /** reconcileSteeredGroupFromHistory up to its first await. */
    method ReconcileSteeredGroup()
      requires activeTurn != null
      modifies activeTurn
      ensures View() == Spec.StartGroupLookup(old(View()))
    {
      if activeTurn.lookup == NoLookup && !activeTurn.completed { activeTurn.lookup := GroupLookup; }
    }

    method RouteBufferedCompletion(rec: NativeTurn)
      requires activeTurn != null
      modifies this`nativeActive, activeTurn
      ensures View() == Spec.RouteBuffered(old(View()), rec)
    {
      if rec.id.Some? && rec.id == activeTurn.canonical {
        SettleSteeredCompletion(rec);
      } else {
        ReconcileSteeredGroup();
      }
    }

    /** resumeBufferedGroupCompletion; true when the held completion was taken up. */
    method ResumeBufferedGroup() returns (resumed: bool)
      modifies this`nativeActive, activeTurn
      ensures resumed == Spec.CanResume(old(View()))
      ensures View() == Spec.ResumeBuffered(old(View()))
    {
      var turn := activeTurn;
      if turn == null { return false; }
      if turn.completed || !GroupMode(turn) || !turn.completionSeen || turn.terminal.None?
         || IsSteering(turn) || turn.startPending {
        return false;
      }
      RouteBufferedCompletion(turn.terminal.value);
      return true;
    }

    // ---- Follow-up steering --------------------------------------------------------------

    /** turn.steerInFlight !== undefined */
    function IsSteering(turn: ActiveTurn): (r: bool)
      reads this, turn, activeTurn
      ensures r == Spec.Steering(View(), turn.View())
    {
      steering.Some? && steering.value.turn.epoch == turn.epoch
    }

    function GroupMode(turn: ActiveTurn): (r: bool)
      reads this, turn, activeTurn
      ensures r == Spec.InGroupMode(View(), turn.View())
    {
      |turn.accepted| > 0 && turn.accepted[0].input.steerable && (IsSteering(turn) || |turn.accepted| > 1)
    }

    function MaySteer(turn: ActiveTurn, head: Input): (r: bool)
      reads this, turn, activeTurn
      ensures r == Spec.CanSteer(View(), turn.View(), head)
    {
      && !fenced
      && !turn.completed
      && turn.phase != Fenced
      && turn.phase != Closing
      && !turn.steeringClosed
      && !IsSteering(turn)
      && steering.None?
      && turn.canonical.Some?
      && |turn.accepted| > 0
      && turn.accepted[0].input.steerable
      && head.steerable
    }

    method RequestClientId(input: Input) returns (cid: Option<Id>)
      ensures cid == Spec.RequestClientId(input, cleanUnsupported, cfg)
    {
      if input.sidecar.None? { return None; }
      if !cleanUnsupported && cfg.clientIds && input.replyId.Some? { return input.replyId; }
      return input.sidecar.value.clientId;
    }

    /** tryAdmitSteer, up to its await. */
    method TryAdmitSteer()
      requires Valid()
      modifies this`steering, this`overlapped
      ensures Valid() && View() == Spec.TryAdmitSteer(old(View()))
    {
      var turn := activeTurn;
      if turn == null || |queue| == 0 { return; }
      var head := queue[0];
      if !MaySteer(turn, head) { return; }
      var cid := RequestClientId(head);
      overlapped := overlapped || !Spec.Unclaimed(View(), turn.View());
      steering := Some(SteerInFlight(turn, Dispatch(head, cid), turn.canonical.value));
    }

    method JoinGroup()
      requires Valid() && steering.Some? && |queue| > 0
      modifies this`queue, this`steering, steering.value.turn
      ensures Valid() && View() == Spec.JoinGroup(old(View()), old(View()).steer.value)
    {
      var flight := steering.value;
      queue := queue[1..];
      flight.turn.accepted := flight.turn.accepted + [flight.dispatch];
      steering := None;
    }

    /** The steer's continuation. The joined turn need not be the active one any more. */
    method SteerResponse(steeredId: Option<Id>)
      requires Valid()
      modifies this, activeTurn, if steering.Some? then {steering.value.turn} else {}
      ensures Valid() && View() == Spec.OnSteerResponse(old(View()), steeredId)
    {
      if steering.None? { return; }
      var flight := steering.value;
      if steeredId != Some(flight.expected) || |queue| == 0 || queue[0] != flight.dispatch.input {
        FenceSteer();
      } else {
        JoinGroup();
        AfterJoin(flight.turn);
      }
    }

    method FenceSteer()
      requires Valid() && steering.Some?
      modifies this`steering, this`fenced, steering.value.turn
      ensures Valid()
      ensures View() == Spec.FenceSteer(old(View()).(steer := None), old(steering.value.turn.epoch))
    {
      var turn := steering.value.turn;
      steering := None;
      FenceUnknown(turn);
    }

    method AfterJoin(turn: ActiveTurn)
      requires Valid() && (activeTurn != null && activeTurn.epoch == turn.epoch ==> activeTurn == turn)
      modifies this`nativeActive, this`steering, this`overlapped, activeTurn
      ensures Valid() && View() == Spec.AfterJoin(old(View()), turn.epoch)
    {
      var resumed := false;
      if turn == activeTurn { resumed := ResumeBufferedGroup(); }
      if !resumed { TryAdmitSteer(); }
    }

    method SteerError(refusal: Failure)
      requires Valid()
      modifies this, activeTurn, if steering.Some? then {steering.value.turn} else {}
      ensures Valid() && View() == Spec.OnSteerError(old(View()), refusal)
    {
      if steering.None? { return; }
      var turn := steering.value.turn;
      if !(refusal.rpc && refusal.definite) {
        FenceSteer();
      } else {
        CloseSteering();
        if turn == activeTurn && turn.completionSeen && turn.terminal.Some? {
          RouteBufferedCompletion(turn.terminal.value);
        }
      }
    }

    method CloseSteering()
      requires Valid() && steering.Some?
      modifies this`steering, steering.value.turn
      ensures Valid()
      ensures View() == if activeTurn == old(steering.value.turn) then Spec.CloseSteering(old(View()))
                        else old(View()).(steer := None)
    {
      steering.value.turn.steeringClosed := true;
      steering := None;
    }

    // ---- Notifications ---------------------------------------------------------------------

    method ExactFor(rec: NativeTurn, clientId: Option<Id>) returns (indexes: seq<nat>)
      ensures indexes == Spec.ExactFor(rec, clientId)
    {
      if clientId.None? { return []; }
      indexes := FindExactIndexes(rec, clientId.value);
    }

    method HoldStart(id: Id, note: Note)
      requires activeTurn != null && note.Started?
      modifies activeTurn
      ensures View() == Spec.With(old(View()),
                if Spec.HoldsStart(old(activeTurn.pendingNotes), id) then old(activeTurn.View())
                else old(activeTurn.View()).(pendingNotes := old(activeTurn.pendingNotes) + [note]))
    {
      var turn := activeTurn;
      var k := 0;
      while k < |turn.pendingNotes|
        invariant k <= |turn.pendingNotes|
        invariant forall i | 0 <= i < k :: !(turn.pendingNotes[i].Started?
                    && Spec.NoteId(turn.pendingNotes[i].turnParam, turn.pendingNotes[i].rec) == Some(id))
      {
        var held := turn.pendingNotes[k];
        if held.Started? && Spec.NoteId(held.turnParam, held.rec) == Some(id) { return; }
        k := k + 1;
      }
      turn.pendingNotes := turn.pendingNotes + [note];
    }

    method OwnTurnStarted()
      requires Valid() && activeTurn != null
      modifies this`steering, this`overlapped, activeTurn
      ensures Valid()
      ensures var s := Spec.With(old(View()), old(activeTurn.View()).(serverStarted := true));
              View() == if Spec.ExactProof(old(activeTurn.View())) && !old(activeTurn.completed)
                        then Spec.TryAdmitSteer(s) else s
    {
      var turn := activeTurn;
      turn.serverStarted := true;
      assert View() == Spec.With(old(View()), old(activeTurn.View()).(serverStarted := true));
      if (turn.proof == Some(ExactStarted) || turn.proof == Some(ExactCompleted)) && !turn.completed { TryAdmitSteer(); }
    }

    method AfterStarted(id: Id, note: Note)
      requires Valid() && activeTurn != null && note.Started?
      modifies this`steering, this`overlapped, this`idleTimer, this`published, activeTurn
      ensures Valid() && View() == Spec.AfterStarted(old(View()), id, note)
    {
      var turn := activeTurn;
      if turn.nativeId == Some(id) {
        OwnTurnStarted();
      } else if !turn.requestAccepted && turn.kind == StartRequest {
        HoldStart(id, note);
      } else {
        PublishBusy();
      }
    }

    method StartedFor(id: Id, turnParam: Option<Id>, rec: NativeTurn)
      requires Valid() && activeTurn != null
      modifies this`fenced, this`steering, this`overlapped, this`idleTimer, this`published, activeTurn
      ensures Valid() && View() == Spec.OnStartedFor(old(View()), old(activeTurn.View()), id, turnParam, rec)
    {
      var turn := activeTurn;
      var exact := ExactFor(rec, turn.clientId);
      if |exact| == 1 {
        var consistent := turn.ProveByStart(id);
        if !consistent {
          FenceUnknown(turn);
          return;
        }
      }
      AfterStarted(id, Started(turnParam, rec));
    }

    /** A started native turn takes the busy slot; a replayed start never evicts a newer one. */
    method ClaimNative(id: Option<Id>, replayed: bool)
      modifies this`nativeActive
      ensures View() == if id.Some? && (!replayed || old(nativeActive).None? || old(nativeActive) == id)
                        then old(View()).(nativeActive := id) else old(View())
    {
      if id.Some? && (!replayed || nativeActive.None? || nativeActive == id) { nativeActive := id; }
    }

    method HandleStarted(turnParam: Option<Id>, rec: NativeTurn, replayed: bool)
      requires Valid()
      modifies this`nativeActive, this`fenced, this`steering, this`overlapped, this`idleTimer, this`published, activeTurn
      ensures Valid() && View() == Spec.OnStarted(old(View()), turnParam, rec, replayed)
    {
      var id := Spec.NoteId(turnParam, rec);
      ClaimNative(id, replayed);
      if activeTurn == null || id.None? {
        PublishBusy();
      } else {
        StartedFor(id.value, turnParam, rec);
      }
    }

    method GroupCompleted(id: Option<Id>, rec: NativeTurn)
      requires activeTurn != null
      modifies this`nativeActive, activeTurn
      ensures View() == Spec.OnGroupCompleted(old(View()), old(activeTurn.View()), id, rec)
    {
      var turn := activeTurn;
      turn.Hold(id, rec);
      var isCanonical := turn.canonical.Some? && id == turn.canonical;
      if IsSteering(turn) || turn.startPending { return; }
      if isCanonical {
        SettleSteeredCompletion(rec);
      } else {
        ReconcileSteeredGroup();
      }
    }

    method SingleCompleted(id: Option<Id>, rec: NativeTurn)
      requires activeTurn != null
      modifies this`nativeActive, this`fenced, activeTurn
      ensures View() == Spec.OnSingleCompleted(old(View()), old(activeTurn.View()), id, rec)
    {
      var turn := activeTurn;
      var exact := ExactFor(rec, turn.clientId);
      if |exact| == 1 && Spec.UpgradesToProof(turn.View(), id) {
        var consistent := turn.ProveByCompletion(id.value, rec);
        if !consistent { FenceUnknown(turn); }
      } else if |exact| == 1 {
        CompleteFromNative(rec, Some(exact[0]));
      } else if !turn.requestAccepted {
        turn.pendingCompletions := turn.pendingCompletions + [rec];
      } else if turn.nativeId.Some? && id == turn.nativeId && turn.kind == StartRequest {
        CompleteFromNative(rec, None);
      } else {
        ReconcileCompletedTurn(false);
      }
    }

    /** A native turn ended with no turn of ours open: wake a head parked behind it. */
    method GoalCompleted()
      modifies this`idleTimer, this`published, this`queue, this`pc
      ensures var s := Spec.SettleState(old(View()));
              View() == if |s.queue| > 0 && s.nativeActive.None? then Spec.KickDrain(s) else s
    {
      SettleRunnerState();
      if |queue| > 0 && nativeActive.None? { DrainQueue(); }
    }

    method HandleCompleted(turnParam: Option<Id>, rec: NativeTurn)
      requires Valid()
      modifies this`nativeActive, this`fenced, this`idleTimer, this`published, this`queue, this`pc, activeTurn
      ensures Valid() && View() == Spec.OnCompleted(old(View()), turnParam, rec)
    {
      var id := Spec.NoteId(turnParam, rec);
      ClearNative(id);
      var turn := activeTurn;
      if turn == null {
        GoalCompleted();
      } else if GroupMode(turn) {
        GroupCompleted(id, rec);
      } else {
        SingleCompleted(id, rec);
      }
    }

    method HandleProgress(note: Note)
      modifies activeTurn
      ensures View() == Spec.OnProgress(old(View()), note)
    {
      var turn := activeTurn;
      if turn == null { return; }
      if !turn.requestAccepted {
        if turn.kind == StartRequest && note.turnParam.Some? { turn.pendingNotes := turn.pendingNotes + [note]; }
        return;
      }
      if turn.nativeId.Some? && note.turnParam.Some? && note.turnParam != turn.nativeId { return; }
      turn.Hear(note);
    }

    method HandleTokenUsage(turnParam: Option<Id>, reading: Option<nat>)
      modifies this`usage
      ensures View() == Spec.OnTokenUsage(old(View()), turnParam, reading)
    {
      if turnParam.None? { return; }
      var id := turnParam.value;
      var poisoned := id in usage && usage[id].None?;
      usage := usage[id := if poisoned then None else reading];
    }

    method HandleNotification(note: Note, replayed: bool)
      requires Valid()
      modifies this`nativeActive, this`fenced, this`steering, this`overlapped, this`idleTimer, this`published,
        this`queue, this`pc, this`usage, activeTurn
      ensures Valid() && View() == Spec.OnNote(old(View()), note, replayed)
    {
      match note {
        case Started(turnParam, rec) => HandleStarted(turnParam, rec, replayed);
        case Completed(turnParam, rec) => HandleCompleted(turnParam, rec);
        case TokenUsage(turnParam, reading) => HandleTokenUsage(turnParam, reading);
        case _ => HandleProgress(note);
      }
    }

    // ---- The drain loop --------------------------------------------------------------------

    /** The head of the drain loop: the next input, or the end of the loop. */
    method NextInput()
      modifies this`queue, this`pc
      ensures View() == Spec.DrainLoop(old(View()))
    {
      if |queue| == 0 || fenced || (nativeActive.Some? && !queue[0].steerable) {
        pc := Idle;
        return;
      }
      pc := Dequeued(queue[0]);
      queue := queue[1..];
    }

    method DrainQueue()
      modifies this`queue, this`pc
      ensures View() == Spec.KickDrain(old(View()))
    {
      if pc != Idle { return; }
      NextInput();
    }

    /** The tail of the drain loop's body, then its head. */
    method EndOfBody()
      modifies this`idleTimer, this`published, this`queue, this`pc
      ensures View() == Spec.EndOfBody(old(View()))
    {
      var parkedBehindGoal := |queue| > 0 && nativeActive.Some? && !queue[0].steerable;
      if |queue| == 0 || parkedBehindGoal { SettleRunnerState(); }
      NextInput();
    }

    /** emitFinalMarker: only a real final reads and drains the usage of its native turn. */
    method EmitFinal(input: Input, nativeId: Option<Id>, content: Answer, superseded: bool)
      modifies this`finals, this`usage
      ensures View() == Spec.EmitFinal(old(View()), input, nativeId, content, superseded)
    {
      var drained := None;
      if nativeId.Some? && !superseded {
        if nativeId.value in usage { drained := usage[nativeId.value]; }
        usage := usage - {nativeId.value};
      }
      finals := finals + [Final(input, nativeId, content, superseded, drained)];
    }

    /** finalizeAcceptedGroup: one final for each member, the last one real. */
    method FinalizeAcceptedGroup(turn: ActiveTurn)
      modifies this`finals, this`usage
      ensures View() == Spec.Finalize(old(View()), turn.View())
    {
      if turn.phase == Fenced { return; }
      var text := Spec.DeliveredText(turn.View());
      var index := 0;
      while index < |turn.accepted|
        invariant index <= |turn.accepted|
        invariant Spec.EmitGroup(View(), turn.View(), index) == Spec.EmitGroup(old(View()), turn.View(), 0)
      {
        var isReal := index + 1 == |turn.accepted|;
        EmitFinal(turn.accepted[index].input, turn.nativeId, if isReal then text else Said(""), !isReal);
        index := index + 1;
      }
    }

    method TurnDone()
      requires Valid()
      modifies this
      ensures Valid() && View() == Spec.OnTurnDone(old(View()))
    {
      var turn := activeTurn;
      if pc != AwaitDone || turn == null || !turn.completed { return; }
      FinalizeAcceptedGroup(turn);
      activeTurn := null;
      pc := Returned;
    }

    method AnswerFailure(input: Input, message: string)
      requires Valid()
      modifies this
      ensures Valid() && View() == Spec.AnswerFailure(old(View()), input, message)
    {
      if fenced {
        activeTurn := null;
        pc := Idle;
        return;
      }
      EmitFinal(input, if activeTurn == null then None else activeTurn.nativeId, RunnerError(message), false);
      activeTurn := null;
      pc := Returned;
      assert View() == Spec.FailureFinal(old(View()), input, message);
      EndOfBody();
    }

    method ThreadFailed(message: string)
      requires Valid()
      modifies this
      ensures Valid() && View() == Spec.Step(old(View()), Event.ThreadFailed(message))
    {
      if pc.Dequeued? { AnswerFailure(pc.input, message); }
    }

    method DrainResumed()
      requires Valid()
      modifies this
      ensures Valid() && View() == Spec.OnDrainResumed(old(View()))
    {
      if pc == Returned {
        EndOfBody();
      } else if pc.Threw? && activeTurn != null && |activeTurn.accepted| > 0 {
        AnswerFailure(activeTurn.accepted[0].input, pc.message);
      }
    }

    // ---- History lookups -----------------------------------------------------------------

    /** One scan for a single root; it stops at a record that repeats the client id. */
    method ScanForSingle(candidates: seq<NativeTurn>, cid: Id) returns (repeated: bool, matches: seq<(NativeTurn, nat)>)
      ensures repeated <==> exists c :: c in candidates && c.terminal && |ExactIndexes(c, cid)| > 1
      ensures !repeated ==> matches == Spec.SingleMatches(candidates, cid)
    {
      repeated, matches := false, [];
      var k := 0;
      while k < |candidates|
        invariant k <= |candidates|
        invariant forall c | c in candidates[..k] :: !(c.terminal && |ExactIndexes(c, cid)| > 1)
        invariant matches == Spec.SingleMatches(candidates[..k], cid)
      {
        var candidate := candidates[k];
        SingleMatchesSnoc(candidates[..k], cid, candidate);
        assert candidates[..k + 1] == candidates[..k] + [candidate];
        var indexes := FindExactIndexes(candidate, cid);
        if candidate.terminal && |indexes| > 1 { return true, matches; }
        matches := matches + if candidate.terminal && |indexes| == 1 then [(candidate, indexes[0])] else [];
        k := k + 1;
      }
      assert candidates[..k] == candidates;
    }

    /** Whether the accepted turn's own terminal record is among those scanned. */
    method WentTerminal(candidates: seq<NativeTurn>, nativeId: Option<Id>) returns (found: bool)
      ensures found <==> nativeId.Some? && exists c :: c in candidates && c.terminal && c.id == nativeId
    {
      var k := 0;
      while k < |candidates|
        invariant k <= |candidates|
        invariant forall c | c in candidates[..k] :: !(nativeId.Some? && c.terminal && c.id == nativeId)
      {
        if nativeId.Some? && candidates[k].terminal && candidates[k].id == nativeId { return true; }
        assert candidates[..k + 1] == candidates[..k] + [candidates[k]];
        k := k + 1;
      }
      assert candidates[..k] == candidates;
      return false;
    }

    method ScanForGroup(candidates: seq<NativeTurn>, ids: seq<Id>) returns (matches: seq<(NativeTurn, nat)>)
      ensures matches == Spec.GroupMatches(candidates, ids)
    {
      matches := [];
      var k := 0;
      while k < |candidates|
        invariant k <= |candidates|
        invariant matches == Spec.GroupMatches(candidates[..k], ids)
      {
        var candidate := candidates[k];
        GroupMatchesSnoc(candidates[..k], ids, candidate);
        assert candidates[..k + 1] == candidates[..k] + [candidate];
        k := k + 1;
        if candidate.terminal {
          var verdict := CheckGroup(candidate, ids);
          if verdict.Matched? && verdict.lastIndex >= 0 { matches := matches + [(candidate, verdict.lastIndex as nat)]; }
        }
      }
      assert candidates[..k] == candidates;
    }

    /** The rest of reconcileCompletedTurn's loop body, after its scan. */
    method SingleScanned(candidates: seq<NativeTurn>, failed: bool, expired: bool)
      requires activeTurn != null && activeTurn.lookup.SingleLookup? && activeTurn.clientId.Some?
      modifies this`nativeActive, activeTurn
      ensures View() == Spec.OnSingleScanned(old(View()), candidates, failed, expired)
    {
      var turn := activeTurn;
      var keepPending, armed := turn.lookup.keepPending, turn.lookup.armed;
      if failed {
        turn.lookup := Done;
        if !turn.completed { ReportIdentityConflict(LookupFailed); }
        return;
      }
      var repeated, matches := ScanForSingle(candidates, turn.clientId.value);
      var wentTerminal := WentTerminal(candidates, turn.nativeId);
      if !repeated && !turn.completed && |matches| == 0 && keepPending && !wentTerminal && armed && !expired {
        return; // keep pending: scan again later
      }
      turn.lookup := Done;
      SingleVerdict(repeated, matches, keepPending, wentTerminal);
    }

    method SingleVerdict(repeated: bool, matches: seq<(NativeTurn, nat)>, keepPending: bool, wentTerminal: bool)
      requires activeTurn != null
      modifies this`nativeActive, activeTurn
      ensures var s := old(View());
              View() == if repeated then Spec.ReportConflict(s, ClientIdRepeated)
                        else if old(activeTurn.completed) then s
                        else if |matches| == 1 then Spec.CompleteSingle(s, matches[0].0, Some(matches[0].1))
                        else if |matches| > 1 then Spec.ReportConflict(s, ManyMatches)
                        else if !keepPending then Spec.ReportConflict(s, NoMatch)
                        else Spec.ReportConflict(s, if wentTerminal then TerminatedWithoutMatch else DeadlineWithoutMatch)
    {
      if repeated {
        ReportIdentityConflict(ClientIdRepeated);
      } else if activeTurn.completed {
      } else if |matches| == 1 {
        CompleteFromNative(matches[0].0, Some(matches[0].1));
      } else if |matches| > 1 {
        ReportIdentityConflict(ManyMatches);
      } else if !keepPending {
        ReportIdentityConflict(NoMatch);
      } else {
        ReportIdentityConflict(if wentTerminal then TerminatedWithoutMatch else DeadlineWithoutMatch);
      }
    }

    method AdoptMatch(rec: NativeTurn, lastIndex: nat)
      requires activeTurn != null
      modifies this`nativeActive, activeTurn
      ensures View() == Spec.AdoptMatch(old(View()), rec, lastIndex)
    {
      var turn := activeTurn;
      if rec.id.Some? {
        ClearNative(turn.canonical);
        ClearNative(rec.id);
      }
      turn.Rekey(rec.id);
      turn.Close(rec, lastIndex);
    }

    method GroupScanned(candidates: seq<NativeTurn>, failed: bool)
      requires activeTurn != null && activeTurn.lookup.GroupLookup?
      modifies this`nativeActive, activeTurn
      ensures View() == Spec.OnGroupScanned(old(View()), candidates, failed)
    {
      var turn := activeTurn;
      var ids := SentClientIds(turn.accepted);
      var matches := ScanForGroup(candidates, ids);
      turn.lookup := Done;
      if turn.completed { return; }
      if failed {
        ReportIdentityConflict(GroupLookupFailed);
      } else if |matches| == 1 {
        AdoptMatch(matches[0].0, matches[0].1);
      } else {
        ReportIdentityConflict(if |matches| == 0 then NoFullGroup else ManyFullGroups);
      }
    }

    method HistoryScanned(candidates: seq<NativeTurn>, failed: bool, expired: bool)
      modifies this`nativeActive, activeTurn
      ensures View() == Spec.OnHistoryScanned(old(View()), candidates, failed, expired)
    {
      var turn := activeTurn;
      if turn == null { return; }
      if turn.lookup.SingleLookup? {
        if turn.clientId.Some? { SingleScanned(candidates, failed, expired); }
      } else if turn.lookup.GroupLookup? {
        GroupScanned(candidates, failed);
      }
    }

    // ---- The root request ------------------------------------------------------------------

    /** runTurn from ensureThread to its request. */
    method BeginTurn(input: Input)
      requires Valid()
      modifies this
      ensures Valid() && View() == Spec.BeginTurn(old(View()), input)
    {
      var cid := RequestClientId(input);
      var structured := input.sidecar.Some? && !cleanUnsupported && cfg.cleanInput;
      epochs := epochs + 1;
      activeTurn := new ActiveTurn(epochs, cid, Dispatch(input, cid), nativeActive, structured);
      pc := AwaitResponse;
    }

    /** The bindings made by an accepted root response. */
    method AcceptRoot(respId: Option<Id>)
      requires activeTurn != null
      modifies this`nativeActive, this`pc, activeTurn
      ensures View() == Spec.AcceptRoot(old(View()), respId)
    {
      var turn := activeTurn;
      if !turn.completed && respId.Some? && (nativeActive.None? || nativeActive == respId) { nativeActive := respId; }
      pc := AwaitDone;
      turn.Accept(respId);
      turn.ProveByResponse(respId);
    }

    method SettleAfterResponse()
      requires activeTurn != null
      modifies this`nativeActive, activeTurn
      ensures View() == Spec.SettleAfterResponse(old(View()))
    {
      var turn := activeTurn;
      var held := turn.terminal;
      var settles :=
        !turn.completed && turn.completionSeen && held.Some? && !IsSteering(turn)
        && held.value.id.Some? && held.value.id == turn.canonical
        && |turn.accepted| > 0 && turn.accepted[0].input.steerable
        && (|turn.accepted| > 1 || turn.proof == Some(ExactStarted) || turn.proof == Some(ExactCompleted));
      var resumed := ResumeBufferedGroup();
      if settles { SettleSteeredCompletion(held.value); }
    }

    method ReplayPendingNotes()
      requires Valid() && activeTurn != null
      modifies this`nativeActive, this`fenced, this`steering, this`overlapped, this`idleTimer, this`published,
        this`queue, this`pc, this`usage, activeTurn
      ensures Valid() && View() == Spec.ReplayNotes(old(View()))
    {
      var turn := activeTurn;
      var notes := turn.pendingNotes;
      turn.pendingNotes := [];
      ghost var start := View();
      var k := 0;
      while k < |notes|
        invariant k <= |notes| && Valid() && activeTurn == turn
        invariant Spec.Replay(View(), notes[k..]) == Spec.Replay(start, notes)
      {
        assert notes[k..][1..] == notes[k + 1..];
        ReplayNote(notes[k]);
        k := k + 1;
      }
    }

    method ReplayNote(note: Note)
      requires Valid() && activeTurn != null
      modifies this`nativeActive, this`fenced, this`steering, this`overlapped, this`idleTimer, this`published,
        this`queue, this`pc, this`usage, activeTurn
      ensures Valid()
      ensures var id := if note.Started? || note.Completed? then Spec.NoteId(note.turnParam, note.rec) else note.turnParam;
              View() == if id == old(activeTurn.nativeId) then Spec.OnNote(old(View()), note, true) else old(View())
    {
      var id := if note.Started? || note.Completed? then Spec.NoteId(note.turnParam, note.rec) else note.turnParam;
      if id == activeTurn.nativeId { HandleNotification(note, true); }
    }

    method ExactPendings(pendings: seq<NativeTurn>, clientId: Option<Id>) returns (matches: seq<(NativeTurn, nat)>)
      ensures matches == Spec.ExactPendings(pendings, clientId)
    {
      matches := [];
      var k := 0;
      while k < |pendings|
        invariant k <= |pendings|
        invariant matches == Spec.ExactPendings(pendings[..k], clientId)
      {
        ExactPendingsSnoc(pendings[..k], clientId, pendings[k]);
        assert pendings[..k + 1] == pendings[..k] + [pendings[k]];
        var indexes := ExactFor(pendings[k], clientId);
        matches := matches + if |indexes| == 1 then [(pendings[k], indexes[0])] else [];
        k := k + 1;
      }
      assert pendings[..k] == pendings;
    }

    method NativePendings(pendings: seq<NativeTurn>, nativeId: Option<Id>) returns (matches: seq<NativeTurn>)
      ensures matches == Spec.NativePendings(pendings, nativeId)
    {
      matches := [];
      var k := 0;
      while k < |pendings|
        invariant k <= |pendings|
        invariant matches + Spec.NativePendings(pendings[k..], nativeId) == Spec.NativePendings(pendings, nativeId)
      {
        assert pendings[k..][1..] == pendings[k + 1..];
        if pendings[k].id == nativeId { matches := matches + [pendings[k]]; }
        k := k + 1;
      }
    }

    /** Completions seen before the response, now that the response names the native turn. */
    method SettlePendings()
      requires activeTurn != null
      modifies this`nativeActive, activeTurn
      ensures View() == Spec.SettlePendings(old(View()))
    {
      var turn := activeTurn;
      var pendings := turn.pendingCompletions;
      turn.pendingCompletions := [];
      assert View() == Spec.With(old(View()), old(turn.View()).(pendingCompletions := []));
      SettleFrom(pendings);
    }

    method SettleFrom(pendings: seq<NativeTurn>)
      requires activeTurn != null
      modifies this`nativeActive, activeTurn
      ensures View() == Spec.SettleFrom(old(View()), pendings)
    {
      var turn := activeTurn;
      if |pendings| == 0 || turn.completed { return; }
      var exactMatches := ExactPendings(pendings, turn.clientId);
      var nativeMatches := NativePendings(pendings, turn.nativeId);
      if |exactMatches| == 1 {
        CompleteFromNative(exactMatches[0].0, Some(exactMatches[0].1));
      } else if |exactMatches| > 1 || |nativeMatches| > 1 {
        ReportIdentityConflict(ManyPreResponse);
      } else if turn.kind == SteerRequest && |nativeMatches| == 1 {
        ReconcileCompletedTurn(false);
      } else if turn.kind == StartRequest && |nativeMatches| == 1 {
        CompleteFromNative(nativeMatches[0], None);
      } else {
        ReconcileCompletedTurn(true);
      }
    }

    /** Everything runTurn does between an accepted response and its await of the turn. */
    method AfterAccept()
      requires Valid() && activeTurn != null
      modifies this`nativeActive, this`fenced, this`steering, this`overlapped, this`idleTimer, this`published,
        this`queue, this`pc, this`usage, activeTurn
      ensures Valid() && View() == Spec.AfterAccept(old(View()))
    {
      SettleAfterResponse();
      ReplayPendingNotes();
      SettlePendings();
      if !activeTurn.completed && activeTurn.lookup == NoLookup { TryAdmitSteer(); }
    }

    method FenceRoot()
      requires activeTurn != null
      modifies this`fenced, this`pc, activeTurn
      ensures View() == Spec.FenceRoot(old(View()))
    {
      activeTurn.startPending := false;
      assert View() == Spec.With(old(View()), old(activeTurn.View()).(startPending := false));
      FenceUnknown(activeTurn);
      pc := Returned;
    }

    method AcceptedRoot(respId: Option<Id>)
      requires Valid() && activeTurn != null
      modifies this`nativeActive, this`fenced, this`steering, this`overlapped, this`idleTimer, this`published,
        this`queue, this`pc, this`usage, activeTurn
      ensures Valid() && View() == Spec.AfterAccept(Spec.AcceptRoot(old(View()), respId))
    {
      AcceptRoot(respId);
      AfterAccept();
    }

    method RootResponse(responseId: Option<Id>)
      requires Valid()
      modifies this`nativeActive, this`fenced, this`steering, this`overlapped, this`idleTimer, this`published,
        this`queue, this`pc, this`usage, activeTurn
      ensures Valid() && View() == Spec.OnRootResponse(old(View()), responseId)
    {
      hide Spec.AfterAccept, Spec.AcceptRoot, Spec.FenceTurn;
      if pc != AwaitResponse || activeTurn == null { return; }
      var respId := if responseId.Some? then responseId else activeTurn.nativeId;
      if Spec.ContradictsProof(activeTurn.View(), respId) {
        FenceRoot();
      } else {
        AcceptedRoot(respId);
      }
    }

    method FallBack()
      requires activeTurn != null
      modifies activeTurn
      ensures View() == Spec.FallBack(old(View()))
    {
      activeTurn.BecomeStart();
      activeTurn.DropBuffers();
      activeTurn.ClearText();
    }

    /** The failure branches of runTurn's request loop. */
    method RootFailed(failure: Failure)
      requires activeTurn != null
      modifies this`fenced, this`pc, activeTurn
      ensures View() == if Spec.PositiveEvidence(old(activeTurn.View())) || !failure.rpc
                        then Spec.FenceTurn(old(View())).(pc := Returned)
                        else old(View()).(pc := Threw(failure.message))
    {
      var turn := activeTurn;
      var positiveEvidence := turn.serverStarted || turn.proof.Some? || turn.canonical.Some? || |turn.accepted| > 1;
      if positiveEvidence || !failure.rpc {
        FenceUnknown(turn);
        pc := Returned;
      } else {
        pc := Threw(failure.message);
      }
    }

    method RetryPlainly()
      requires activeTurn != null
      modifies this`cleanUnsupported, activeTurn
      ensures View() == Spec.With(old(View()).(cleanUnsupported := true),
                old(activeTurn.View()).(rpc := old(activeTurn.rpc).(capabilityRetried := true, structured := false)))
    {
      cleanUnsupported := true;
      activeTurn.rpc := activeTurn.rpc.(capabilityRetried := true, structured := false);
    }

    method RootError(failure: Failure)
      modifies this`fenced, this`pc, this`cleanUnsupported, activeTurn
      ensures View() == Spec.OnRootError(old(View()), failure)
    {
      var turn := activeTurn;
      if pc != AwaitResponse || turn == null { return; }
      var r := turn.rpc;
      if r.expected.Some? && !r.fellBack && nativeActive.None? && failure.rpc && failure.inactive {
        FallBack();
      } else if r.capabilityRetried || !r.structured || (r.expected.None? && turn.serverStarted) || !failure.capability {
        RootFailed(failure);
      } else {
        RetryPlainly();
      }
    }

    // ---- The input line and the events -----------------------------------------------------

    method Receive(content: string, sidecar: Option<Sidecar>, replyId: Option<Id>, steerable: bool)
      modifies this`queue, this`inbound
      ensures View() == Spec.Receive(old(View()), content, sidecar, replyId, steerable)
    {
      var reply := if replyId.Some? then replyId else if sidecar.Some? then sidecar.value.clientId else None;
      var input := Input(|inbound|, content, sidecar, reply, steerable);
      inbound := inbound + [input];
      queue := queue + [input];
    }

    method EnqueueFramed(content: string, sidecar: Option<Sidecar>, replyId: Option<Id>, steerable: bool)
      requires Valid()
      modifies this`queue, this`inbound, this`steering, this`overlapped, this`pc
      ensures Valid() && View() == Spec.Step(old(View()), Framed(content, sidecar, replyId, steerable))
    {
      Receive(content, sidecar, replyId, steerable);
      TryAdmitSteer();
      DrainQueue();
    }

    method EnqueuePlain(line: string)
      requires Valid()
      modifies this`queue, this`inbound, this`pc
      ensures Valid() && View() == Spec.Step(old(View()), PlainLine(line))
    {
      Receive(line, None, None, false);
      DrainQueue();
    }

    method ThreadReady()
      requires Valid()
      modifies this
      ensures Valid() && View() == Spec.Step(old(View()), Event.ThreadReady)
    {
      if pc.Dequeued? { BeginTurn(pc.input); }
    }

    /** Events of the input line, the drain loop and the state timer. */
    method HandleLoopEvent(e: Event)
      requires Valid() && Spec.IsLoopEvent(e)
      modifies this
      ensures Valid() && View() == Spec.Step(old(View()), e)
    {
      match e {
        case Framed(content, sidecar, replyId, steerable) => EnqueueFramed(content, sidecar, replyId, steerable);
        case PlainLine(line) => EnqueuePlain(line);
        case ThreadReady => ThreadReady();
        case ThreadFailed(message) => ThreadFailed(message);
        case TurnDone => TurnDone();
        case DrainResumed => DrainResumed();
        case IdleTimerFired => IdleTimerFired();
        case ControlReaccepted => SettleRunnerState();
      }
    }

    /** Every event, handled in place, does what the state machine of RunnerSteps does. */
    method Handle(e: Event)
      requires Valid()
      modifies this, activeTurn, if steering.Some? then {steering.value.turn} else {}
      ensures Valid() && View() == Spec.Step(old(View()), e)
    {
      if Spec.IsLoopEvent(e) {
        HandleLoopEvent(e);
        return;
      }
      match e {
        case RootResponse(responseId) => RootResponse(responseId);
        case RootError(failure) => RootError(failure);
        case SteerResponse(steeredId) => SteerResponse(steeredId);
        case SteerError(refusal) => SteerError(refusal);
        case Notify(note) => HandleNotification(note, false);
        case HistoryScanned(candidates, failed, expired) => HistoryScanned(candidates, failed, expired);
      }
    }
  }
}
