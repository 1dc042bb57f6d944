/** What a turn answers that no group record decides: the text it heard, from the acceptance of its
    request over its completion to its final, or what its own record says. */
module RunnerAnswers {
  import opened Prelude
  import opened NativeTurns
  import opened RunnerTypes
  import opened RunnerSteps
  import opened RunnerIdentity
  import opened RunnerInvariants
  import opened RunnerRuns
  import opened RunnerGuarantees
  import opened RunnerSettlements
  import opened RunnerShortfalls
  import opened RunnerProofs
  import opened RunnerGoalEntry
  import opened RunnerBarriers
  import opened RunnerDelivery
  import opened RunnerReplacements

  // ---- While the turn is open, it only hears -----------------------------------------------

  /** An accepted turn that is still open. */
  predicate Speaking(s: State) {
    && Sound(s) && Identified(s) && !s.overlapped && !s.fenced
    && s.turn.Some? && !s.turn.value.completed && s.turn.value.requestAccepted
  }

  /** The note of an event that the open turn hears. */
  function HeardIn(s: State, e: Event): seq<Note> {
    if s.turn.Some? && e.Notify? && Heeds(s.turn.value, e.note) then [e.note] else []
  }

  /** The turn's text, if it is still open, is what it was. */
  predicate KeepsOpenText(s: State, s': State) {
    s.turn.Some? && s'.turn.Some? && (!s'.turn.value.completed ==> SameText(s.turn.value, s'.turn.value))
  }

  lemma KeepsOpenTextThen(s: State, s1: State, s2: State)
    requires KeepsOpenText(s, s1) && !s1.turn.value.completed && KeepsOpenText(s1, s2)
    ensures KeepsOpenText(s, s2)
  {}

  lemma ConflictEndsOpen(s: State, reason: Reason)
    requires s.turn.Some? && !s.turn.value.conflictReported
    ensures KeepsOpenText(s, ReportConflict(s, reason))
  {}

  lemma SettleEndsOpen(s: State, rec: NativeTurn)
    requires s.turn.Some? && !s.turn.value.conflictReported
    ensures KeepsOpenText(s, SettleSteered(s, rec))
  {
    hide SettleSteered;
    if s.turn.value.completed {
      assert SettleSteered(s, rec) == s by { SettledGroupStays(s, rec); }
    } else {
      SettleSteeredCompletes(s, rec);
    }
  }

  lemma SettledGroupStays(s: State, rec: NativeTurn)
    requires s.turn.Some? && s.turn.value.completed
    ensures SettleSteered(s, rec) == s
  {}

  lemma GroupLookupKeepsOpenText(s: State)
    requires s.turn.Some?
    ensures KeepsOpenText(s, StartGroupLookup(s))
  {}

  lemma SingleLookupKeepsOpenText(s: State)
    requires s.turn.Some? && !s.turn.value.conflictReported
    ensures KeepsOpenText(s, StartSingleLookup(s, false))
  {
    hide ReportConflict;
    ConflictEndsOpen(s, NoClientId);
  }

  lemma BufferKeepsOpenText(s: State, rec: NativeTurn)
    requires s.turn.Some?
    ensures KeepsOpenText(s, With(s, s.turn.value.(pendingCompletions := s.turn.value.pendingCompletions + [rec])))
  {}

  lemma RoutedKeepsOpenText(s: State, rec: NativeTurn)
    requires s.turn.Some? && !s.turn.value.conflictReported
    ensures KeepsOpenText(s, RouteBuffered(s, rec))
  {
    hide SettleSteered, StartGroupLookup;
    SettleEndsOpen(s, rec);
    GroupLookupKeepsOpenText(s);
  }

  lemma ResumedKeepsOpenText(s: State)
    requires s.turn.Some? && !s.turn.value.conflictReported
    ensures KeepsOpenText(s, ResumeBuffered(s))
  {
    hide RouteBuffered, CanResume;
    if CanResume(s) {
      ResumableTerminal(s);
      RoutedKeepsOpenText(s, s.turn.value.terminal.value);
    }
  }

  lemma JoinKeepsOpenText(s: State, rpc: SteerRpc)
    requires s.turn.Some? && |s.queue| > 0
    ensures var s1 := JoinGroup(s, rpc);
            && KeepsOpenText(s, s1) && s1.turn.value.completed == s.turn.value.completed
            && s1.turn.value.conflictReported == s.turn.value.conflictReported
  {}

  lemma SteerResponseKeepsOpenText(s: State, steeredId: Option<Id>)
    requires s.turn.Some? && !s.turn.value.completed && !s.turn.value.conflictReported && !OnSteerResponse(s, steeredId).fenced
    ensures KeepsOpenText(s, OnSteerResponse(s, steeredId))
  {
    hide JoinGroup, ResumeBuffered, TryAdmitSteer, CanResume;
    if SteerAccepted(s, steeredId) {
      var s1 := JoinGroup(s, s.steer.value);
      JoinKeepsOpenText(s, s.steer.value);
      ResumedKeepsOpenText(s1);
      AdmissionKeepsText(s1);
      KeepsOpenTextThen(s, s1, OnSteerResponse(s, steeredId));
    }
  }

  lemma SteerErrorKeepsOpenText(s: State, refusal: Failure)
    requires s.turn.Some? && !s.turn.value.completed && !s.turn.value.conflictReported
    ensures OnSteerError(s, refusal).fenced || KeepsOpenText(s, OnSteerError(s, refusal))
  {
    hide RouteBuffered;
    var s1 := CloseSteering(s);
    if s1.turn.value.terminal.Some? { RoutedKeepsOpenText(s1, s1.turn.value.terminal.value); }
  }

  lemma GroupCompletionKeepsOpenText(s: State, id: Option<Id>, rec: NativeTurn)
    requires s.turn.Some? && !s.turn.value.conflictReported
    ensures KeepsOpenText(s, OnGroupCompleted(s, s.turn.value, id, rec))
  {
    hide SettleSteered, StartGroupLookup;
    var s1 := With(s, HoldCompletion(s.turn.value, id, rec));
    SettleEndsOpen(s1, rec);
    GroupLookupKeepsOpenText(s1);
  }

  lemma CompleteKeepsOpenText(s: State, rec: NativeTurn, index: Option<nat>)
    requires s.turn.Some?
    ensures KeepsOpenText(s, CompleteSingle(s, rec, index))
  {}

  lemma SingleCompletionKeepsOpenText(s: State, id: Option<Id>, rec: NativeTurn)
    requires s.turn.Some? && !s.turn.value.conflictReported
    ensures KeepsOpenText(s, OnSingleCompleted(s, s.turn.value, id, rec))
  {
    hide ExactFor, CompleteSingle, StartSingleLookup, UpgradeByCompletion, KeepsOpenText;
    WithOwn(s);
    var exact := ExactFor(rec, s.turn.value.clientId);
    CompleteKeepsOpenText(s, rec, if |exact| == 1 then Some(exact[0]) else None);
    SingleLookupKeepsOpenText(s);
    BufferKeepsOpenText(s, rec);
    if id.Some? { UpgradeKeepsOpenText(s, id.value, rec); }
  }

  lemma WithOwn(s: State)
    requires s.turn.Some?
    ensures With(s, s.turn.value) == s
  {}

  lemma UpgradeKeepsOpenText(s: State, id: Id, rec: NativeTurn)
    requires s.turn.Some?
    ensures KeepsOpenText(s, UpgradeByCompletion(s, id, rec))
  {
    hide UpgradeByCompletion;
    UpgradeKeepsText(s, id, rec);
  }

  lemma CompletionKeepsOpenText(s: State, turnParam: Option<Id>, rec: NativeTurn)
    requires s.turn.Some? && !s.turn.value.conflictReported
    ensures KeepsOpenText(s, OnCompleted(s, turnParam, rec))
  {
    hide OnGroupCompleted, OnSingleCompleted;
    var id := NoteId(turnParam, rec);
    var s1 := ClearNative(s, id);
    assert s1 == s.(nativeActive := s1.nativeActive);
    GroupCompletionKeepsOpenText(s1, id, rec);
    SingleCompletionKeepsOpenText(s1, id, rec);
  }

  lemma ScanKeepsOpenText(s: State, candidates: seq<NativeTurn>, failed: bool, expired: bool)
    requires s.turn.Some? && !s.turn.value.completed && !s.turn.value.conflictReported
    ensures KeepsOpenText(s, OnHistoryScanned(s, candidates, failed, expired))
  {
    hide ExactIndexes, SingleMatches, GroupMatches, ReportConflict, CompleteSingle, Rebuild;
    var s1 := FinishLookup(s);
    forall reason ensures KeepsOpenText(s, ReportConflict(s1, reason)) {
      ConflictEndsOpen(s1, reason);
      KeepsOpenTextThen(s, s1, ReportConflict(s1, reason));
    }
    forall rec, index ensures KeepsOpenText(s, CompleteSingle(s1, rec, index)) {
      CompleteKeepsOpenText(s1, rec, index);
      KeepsOpenTextThen(s, s1, CompleteSingle(s1, rec, index));
    }
  }

  lemma NoteIsHeard(s: State, note: Note)
    requires s.turn.Some? && !s.turn.value.conflictReported
    ensures var s' := OnNote(s, note, false);
            && s'.turn.Some?
            && (Heeds(s.turn.value, note) ==> SameText(s'.turn.value, Hear(s.turn.value, note)))
            && (!Heeds(s.turn.value, note) ==> KeepsOpenText(s, s'))
  {
    hide OnStarted, OnCompleted, OnProgress, Hear;
    if note.Started? { StartedKeepsText(s, note.turnParam, note.rec); }
    else if note.Completed? { CompletionKeepsOpenText(s, note.turnParam, note.rec); }
    else if !note.TokenUsage? { ProgressRewrites(s, note); }
  }

  lemma SpeakingIsOpen(s: State)
    requires Speaking(s)
    ensures s.turn.Some? && !s.turn.value.completed && !s.turn.value.conflictReported && s.turn.value.requestAccepted
    ensures s.pc != AwaitResponse && !s.fenced && Live(s)
  {}

  /** A step that leaves the turn open leaves its text as what it heard. */
  lemma OpenStepHears(s: State, e: Event)
    requires Speaking(s) && Speaking(Step(s, e))
    ensures TextAfter(s.turn.value, HeardIn(s, e), Step(s, e).turn.value)
    ensures Step(s, e).turn.value.seenItems == SeenAfter(s.turn.value.seenItems, HeardIn(s, e))
  {
    hide Speaking, Sound, Identified;
    SpeakingIsOpen(s);
    SpeakingIsOpen(Step(s, e));
    var t, s' := s.turn.value, Step(s, e);
    NothingHeard(t, s'.turn.value);
    if IsLoopEvent(e) {
      LoopProvesNothing(s, e);
    } else {
      match e {
        case RootResponse(responseId) =>
        case RootError(failure) =>
        case SteerResponse(steeredId) => SteerResponseKeepsOpenText(s, steeredId);
        case SteerError(refusal) => SteerErrorKeepsOpenText(s, refusal);
        case Notify(note) =>
          NoteIsHeard(s, note);
          if Heeds(t, note) { OneNote(t, note); OneSeen(t, note); }
        case HistoryScanned(candidates, failed, expired) => ScanKeepsOpenText(s, candidates, failed, expired);
      }
    }
  }

  lemma NothingHeard(t: Turn, t': Turn)
    ensures SameText(t, t') ==> TextAfter(t, [], t')
  {
    assert t.allAgentText + "" == t.allAgentText;
  }

  /** The items streamed so far. */
  function SeenAfter(seen: set<Id>, notes: seq<Note>): set<Id>
    decreases |notes|
  {
    if notes == [] then seen
    else SeenAfter(if notes[0].Delta? then seen + {notes[0].itemId} else seen, notes[1..])
  }

  lemma OneSeen(t: Turn, note: Note)
    requires IsText(note)
    ensures Hear(t, note).seenItems == SeenAfter(t.seenItems, [note])
  {
    assert [note][1..] == [];
    assert forall seen :: SeenAfter(seen, []) == seen;
  }

  // ---- The text heard over a run -------------------------------------------------------------

  lemma {:induction false} LastFinalOfBoth(before: seq<Note>, after: seq<Note>)
    ensures LastFinal(before + after) == if LastFinal(after).Some? then LastFinal(after) else LastFinal(before)
    decreases |before|
  {
    if before == [] {
      assert before + after == after;
    } else {
      assert (before + after)[1..] == before[1..] + after;
      LastFinalOfBoth(before[1..], after);
    }
  }

  /** Text is streamed in order, and an item streamed in the first part is not repeated in the second. */
  lemma {:induction false} StreamedInOrder(seen: set<Id>, before: seq<Note>, after: seq<Note>)
    ensures Streamed(seen, before + after) == Streamed(seen, before) + Streamed(SeenAfter(seen, before), after)
    ensures SeenAfter(seen, before + after) == SeenAfter(SeenAfter(seen, before), after)
    decreases |before|
  {
    if before == [] {
      assert before + after == after;
    } else {
      assert (before + after)[1..] == before[1..] + after;
      var first := before[0];
      StreamedInOrder(if first.Delta? then seen + {first.itemId} else seen, before[1..], after);
    }
  }

  lemma TextAfterBoth(t: Turn, before: seq<Note>, t1: Turn, after: seq<Note>, t2: Turn)
    requires TextAfter(t, before, t1) && t1.seenItems == SeenAfter(t.seenItems, before) && TextAfter(t1, after, t2)
    ensures TextAfter(t, before + after, t2)
    ensures SeenAfter(t1.seenItems, after) == SeenAfter(t.seenItems, before + after)
  {
    hide LastFinal, Streamed, SeenAfter;
    LastFinalOfBoth(before, after);
    StreamedInOrder(t.seenItems, before, after);
  }

  /** The turn is accepted and stays open and unfenced over the whole run. */
  predicate SpeaksOn(s: State, events: seq<Event>)
    decreases |events|
  {
    Speaking(s) && (events == [] || SpeaksOn(Step(s, events[0]), events[1..]))
  }

  function HeardOver(s: State, events: seq<Event>): seq<Note>
    decreases |events|
  {
    if events == [] then [] else HeardIn(s, events[0]) + HeardOver(Step(s, events[0]), events[1..])
  }

  /** Over any run on which it stays open, an accepted turn's text is exactly what it heard. */
  lemma {:induction false} OpenRunHears(s: State, events: seq<Event>)
    requires SpeaksOn(s, events)
    ensures Speaking(Run(s, events))
    ensures TextAfter(s.turn.value, HeardOver(s, events), Run(s, events).turn.value)
    decreases |events|
  {
    hide Speaking, Step, TextAfter, HeardIn;
    SpeakingIsOpen(s);
    if events == [] {
      NothingHeard(s.turn.value, s.turn.value);
    } else {
      var s1 := Step(s, events[0]);
      assert Speaking(s1);
      OpenStepHears(s, events[0]);
      OpenRunHears(s1, events[1..]);
      SpeakingIsOpen(s1);
      SpeakingIsOpen(Run(s, events));
      TextAfterBoth(s.turn.value, HeardIn(s, events[0]), s1.turn.value, HeardOver(s1, events[1..]), Run(s, events).turn.value);
    }
  }

  // ---- The turn's own completion ---------------------------------------------------------------

  /** A final text stands; without one a native error is the text. Agent text stays as heard. */
  predicate EndedText(t: Turn, error: Option<string>, t': Turn) {
    && t'.allAgentText == t.allAgentText
    && (t.finalText != Said("") || error.None? ==> t'.finalText == t.finalText)
    && (t.finalText == Said("") && error.Some? ==> t'.finalText == NativeFailure(error.value))
  }

  /** The terminal completion of an accepted start under its own id, whose record does not hold
      the client's item exactly once. Every completion of a plain line is of this kind. */
  predicate EndsOwn(s: State, turnParam: Option<Id>, rec: NativeTurn) {
    && Speaking(s) && !InGroupMode(s, s.turn.value) && s.turn.value.kind == StartRequest
    && s.turn.value.nativeId.Some? && NoteId(turnParam, rec) == s.turn.value.nativeId
    && |ExactFor(rec, s.turn.value.clientId)| != 1 && rec.terminal
  }

  lemma EndsWithoutIndex(s: State, rec: NativeTurn)
    requires s.turn.Some? && !s.turn.value.completed && rec.terminal
    ensures var s' := CompleteSingle(s, rec, None);
            && s'.turn.Some? && s'.turn.value.completed && s'.pc == s.pc && s'.fenced == s.fenced
            && s'.overlapped == s.overlapped && s'.turn.value.accepted == s.turn.value.accepted
            && EndedText(s.turn.value, rec.error, s'.turn.value)
            && (rec.id.Some? ==> s'.turn.value.nativeId == rec.id)
  {}

  lemma OwnCompletionIsTaken(s: State, turnParam: Option<Id>, rec: NativeTurn)
    requires EndsOwn(s, turnParam, rec)
    ensures Step(s, Notify(Completed(turnParam, rec))) == CompleteSingle(ClearNative(s, NoteId(turnParam, rec)), rec, None)
  {
    hide ExactFor, CompleteSingle, Sound, Identified;
    var id := NoteId(turnParam, rec);
    var s1 := ClearNative(s, id);
    assert s1 == s.(nativeActive := s1.nativeActive);
    WithOwn(s1);
  }

  /** The turn's own completion settles it. What it heard stands; a native error is the text
      exactly if it heard no final text. */
  lemma OwnCompletionIsExact(s: State, turnParam: Option<Id>, rec: NativeTurn)
    requires EndsOwn(s, turnParam, rec)
    ensures var t, s' := s.turn.value, Step(s, Notify(Completed(turnParam, rec)));
            && SettledTurn(s') && s'.pc == s.pc && s'.turn.value.accepted == t.accepted
            && EndedText(t, rec.error, s'.turn.value)
            && (rec.id.Some? ==> s'.turn.value.nativeId == rec.id)
  {
    hide CompleteSingle, Sound, Identified, Step, EndedText;
    var e, s1 := Notify(Completed(turnParam, rec)), ClearNative(s, NoteId(turnParam, rec));
    assert s1 == s.(nativeActive := s1.nativeActive);
    OwnCompletionIsTaken(s, turnParam, rec);
    EndsWithoutIndex(s1, rec);
    StepSound(s, e);
    StepKeepsIdentity(s, e);
  }

  /** What a turn answers that hears `notes` from here on and then ends: the last final answer, else
      the native error, else all agent text. */
  function AnswerOf(t: Turn, notes: seq<Note>, error: Option<string>): Answer {
    var final := if LastFinal(notes).Some? then Said(LastFinal(notes).value) else t.finalText;
    if final != Said("") then TrimAnswer(final)
    else if error.Some? then TrimAnswer(NativeFailure(error.value))
    else Said(Trim(t.allAgentText + Streamed(t.seenItems, notes)))
  }

  lemma EndedTextDelivers(t: Turn, notes: seq<Note>, t1: Turn, error: Option<string>, t2: Turn)
    requires TextAfter(t, notes, t1) && EndedText(t1, error, t2)
    ensures DeliveredText(t2) == AnswerOf(t, notes, error)
  {
    hide LastFinal, Streamed, Trim;
  }

  /** From acceptance to final: the final of a turn that its own completion ends is the last final
      answer it heard; without one the native error; without that all agent text it heard. */
  lemma HeardAnswerIsDelivered(
    s: State, events: seq<Event>, turnParam: Option<Id>, rec: NativeTurn, later: seq<Event>)
    requires SpeaksOn(s, events) && EndsOwn(Run(s, events), turnParam, rec)
    requires var s2 := Step(Run(s, events), Notify(Completed(turnParam, rec)));
             Undisturbed(s2, later) && Run(s2, later).pc == AwaitDone
    ensures s.turn.Some? && Run(s, events).turn.Some?
    ensures var s1 := Run(s, events);
            var s2 := Step(s1, Notify(Completed(turnParam, rec)));
            Answers(Run(s2, later), s1.turn.value.accepted, AnswerOf(s.turn.value, HeardOver(s, events), rec.error))
  {
    hide Answers, Undisturbed, Step, Run, Speaking, SettledTurn, EndedText, TextAfter, AnswerOf, HeardOver, DeliveredText;
    OpenRunHears(s, events);
    assert Speaking(s);
    SpeakingIsOpen(s);
    var s1 := Run(s, events);
    SpeakingIsOpen(s1);
    var s2 := Step(s1, Notify(Completed(turnParam, rec)));
    OwnCompletionIsExact(s1, turnParam, rec);
    SettledIsOpen(s2);
    EndedTextDelivers(s.turn.value, HeardOver(s, events), s1.turn.value, rec.error, s2.turn.value);
    SettledAnswerIsDelivered(s2, later);
  }

  /** The terminal completion of a turn without a group whose record holds the client's item once,
      unless it is taken as a proof. */
  predicate EndsExactly(s: State, turnParam: Option<Id>, rec: NativeTurn) {
    && Sound(s) && Identified(s) && !s.overlapped && !s.fenced && s.turn.Some? && !s.turn.value.completed
    && !InGroupMode(s, s.turn.value) && s.turn.value.clientId.Some?
    && |ExactIndexes(rec, s.turn.value.clientId.value)| == 1
    && !UpgradesToProof(s.turn.value, NoteId(turnParam, rec)) && rec.terminal
  }

  lemma ExactCompletionIsTaken(s: State, turnParam: Option<Id>, rec: NativeTurn)
    requires EndsExactly(s, turnParam, rec)
    ensures Step(s, Notify(Completed(turnParam, rec)))
         == CompleteSingle(ClearNative(s, NoteId(turnParam, rec)), rec, Some(ExactIndexes(rec, s.turn.value.clientId.value)[0]))
  {
    hide ExactIndexes, CompleteSingle, Sound, Identified, OnSingleCompleted;
    var id := NoteId(turnParam, rec);
    var s1 := ClearNative(s, id);
    assert s1 == s.(nativeActive := s1.nativeActive);
    SingleCompletionIsTaken(s1, id, rec);
  }

  lemma EndsAtIndex(s: State, rec: NativeTurn, index: nat)
    requires s.turn.Some? && !s.turn.value.completed && rec.terminal
    ensures var s' := CompleteSingle(s, rec, Some(index));
            && s'.turn.Some? && s'.turn.value.completed && s'.pc == s.pc && s'.fenced == s.fenced
            && s'.overlapped == s.overlapped && s'.turn.value.accepted == s.turn.value.accepted
            && s'.turn.value.finalText == Rebuild(rec, index) && s'.turn.value.allAgentText == ""
            && (rec.id.Some? ==> s'.turn.value.nativeId == rec.id)
  {
    hide Rebuild;
  }

  /** Such a completion settles its turn with what its record answers after the client's item, and
      nothing that was streamed is left. */
  lemma ExactCompletionIsExact(s: State, turnParam: Option<Id>, rec: NativeTurn)
    requires EndsExactly(s, turnParam, rec)
    ensures var t, s' := s.turn.value, Step(s, Notify(Completed(turnParam, rec)));
            && SettledTurn(s') && s'.pc == s.pc && s'.turn.value.accepted == t.accepted
            && s'.turn.value.allAgentText == ""
            && (forall k | HoldsAt(rec, t.clientId.value, k) :: AnswersAfter(rec, k, s'.turn.value.finalText))
  {
    hide CompleteSingle, Sound, Identified, Step, AnswersAfter, Rebuild, ExactIndexes;
    var e, s1 := Notify(Completed(turnParam, rec)), ClearNative(s, NoteId(turnParam, rec));
    var cid := s.turn.value.clientId.value;
    assert s1 == s.(nativeActive := s1.nativeActive);
    ExactCompletionIsTaken(s, turnParam, rec);
    EndsAtIndex(s1, rec, ExactIndexes(rec, cid)[0]);
    forall k | HoldsAt(rec, cid, k) ensures AnswersAfter(rec, k, Rebuild(rec, ExactIndexes(rec, cid)[0])) {
      HeldOnceAt(rec, cid, k);
    }
    StepSound(s, e);
    StepKeepsIdentity(s, e);
  }

  /** And so does its final say, unless an event that rewrites a settled turn's text intervenes. */
  lemma RecordAnswerIsDelivered(s: State, turnParam: Option<Id>, rec: NativeTurn, k: nat, later: seq<Event>)
    requires EndsExactly(s, turnParam, rec) && HoldsAt(rec, s.turn.value.clientId.value, k)
    requires var s1 := Step(s, Notify(Completed(turnParam, rec)));
             Undisturbed(s1, later) && Run(s1, later).pc == AwaitDone
    ensures AnswersFrom(Run(Step(s, Notify(Completed(turnParam, rec))), later), s.turn.value.accepted, rec, k)
  {
    hide Answers, Undisturbed, Step, Run, SettledTurn, AnswersAfter, EndsExactly, HoldsAt;
    var s1 := Step(s, Notify(Completed(turnParam, rec)));
    ExactCompletionIsExact(s, turnParam, rec);
    SettledIsOpen(s1);
    DeliveredAlone(s1.turn.value);
    SettledAnswerIsDelivered(s1, later);
    assert AnswersAfter(rec, k, s1.turn.value.finalText);
  }

  /** The turn's own id, on a start. */
  predicate NamesOwn(t: Turn, id: Option<Id>) {
    t.nativeId.Some? && id == t.nativeId && t.kind == StartRequest
  }

  /** The terminal record holds the client's item once and is not taken as a proof; or it does not,
      and is the terminal one of the accepted start itself; or there is no client id to look it up by. */
  predicate EndsAtOnce(t: Turn, id: Option<Id>, once: bool, terminal: bool) {
    || (once && !UpgradesToProof(t, id) && terminal)
    || (!once && t.requestAccepted && NamesOwn(t, id) && terminal)
    || (!once && t.requestAccepted && !NamesOwn(t, id) && t.lookup == NoLookup && t.clientId.None?)
  }

  /** When a completion settles an open turn without a group at once, exactly. */
  lemma SingleCompletionSettlesExactly(s: State, turnParam: Option<Id>, rec: NativeTurn)
    requires Identified(s) && !s.fenced && s.turn.Some? && !s.turn.value.completed && !InGroupMode(s, s.turn.value)
    ensures var t, s' := s.turn.value, Step(s, Notify(Completed(turnParam, rec)));
            var id, once := NoteId(turnParam, rec), |ExactFor(rec, t.clientId)| == 1;
            && s'.turn.Some?
            && (s'.turn.value.completed && !s'.fenced <==> EndsAtOnce(t, id, once, rec.terminal))
  {
    hide ExactFor, OnSingleCompleted, NoCompletions;
    var id := NoteId(turnParam, rec);
    var s1 := ClearNative(s, id);
    assert s1 == s.(nativeActive := s1.nativeActive);
    SingleCompletionVerdict(s1, id, rec);
  }

  lemma SingleCompletionVerdict(s: State, id: Option<Id>, rec: NativeTurn)
    requires !s.fenced && s.turn.Some? && !s.turn.value.completed && !s.turn.value.conflictReported
    ensures var t, s' := s.turn.value, OnSingleCompleted(s, s.turn.value, id, rec);
            var once := |ExactFor(rec, t.clientId)| == 1;
            && s'.turn.Some?
            && (s'.turn.value.completed && !s'.fenced <==> EndsAtOnce(t, id, once, rec.terminal))
  {
    hide ExactFor, OnSingleCompleted, UpgradesToProof;
    if s.turn.value.requestAccepted {
      AcceptedCompletionVerdict(s, id, rec);
      AcceptedUpgradesNothing(s.turn.value, id);
    } else {
      SingleCompletionSettles(s, id, rec);
    }
  }

  lemma AcceptedUpgradesNothing(t: Turn, id: Option<Id>)
    requires t.requestAccepted
    ensures !UpgradesToProof(t, id)
  {}

  lemma AcceptedCompletionVerdict(s: State, id: Option<Id>, rec: NativeTurn)
    requires !s.fenced && s.turn.Some? && !s.turn.value.completed && !s.turn.value.conflictReported
    requires s.turn.value.requestAccepted
    ensures var t, s' := s.turn.value, OnSingleCompleted(s, s.turn.value, id, rec);
            var once := |ExactFor(rec, t.clientId)| == 1;
            && s'.turn.Some? && !s'.fenced
            && (s'.turn.value.completed <==>
                if once || NamesOwn(t, id) then rec.terminal else t.lookup == NoLookup && t.clientId.None?)
  {
    hide ExactFor, CompleteSingle, StartSingleLookup, UpgradeByCompletion, UpgradesToProof;
    WithOwn(s);
    AcceptedUpgradesNothing(s.turn.value, id);
    var exact := ExactFor(rec, s.turn.value.clientId);
    CompleteVerdict(s, rec, if |exact| == 1 then Some(exact[0]) else None);
    LookupVerdict(s);
  }

  lemma CompleteVerdict(s: State, rec: NativeTurn, index: Option<nat>)
    requires s.turn.Some? && !s.turn.value.completed
    ensures var s' := CompleteSingle(s, rec, index);
            s'.turn.Some? && s'.fenced == s.fenced && s'.turn.value.completed == rec.terminal
  {
    hide Rebuild;
  }

  lemma LookupVerdict(s: State)
    requires s.turn.Some? && !s.turn.value.completed && !s.turn.value.conflictReported
    ensures var t, s' := s.turn.value, StartSingleLookup(s, false);
            && s'.turn.Some? && s'.fenced == s.fenced
            && (s'.turn.value.completed <==> t.lookup == NoLookup && t.clientId.None?)
  {
    hide ReportConflict;
    ConflictVerdict(s, NoClientId);
    if s.turn.value.lookup == NoLookup && s.turn.value.clientId.Some? { LookupIsOpen(s); }
  }

  lemma ConflictVerdict(s: State, reason: Reason)
    requires s.turn.Some? && !s.turn.value.conflictReported
    ensures var s' := ReportConflict(s, reason); s'.turn.Some? && s'.fenced == s.fenced && s'.turn.value.completed
  {}

  lemma LookupIsOpen(s: State)
    requires s.turn.Some? && !s.turn.value.completed && s.turn.value.lookup == NoLookup && s.turn.value.clientId.Some?
    ensures var s' := StartSingleLookup(s, false); s'.turn.Some? && s'.fenced == s.fenced && !s'.turn.value.completed
  {}

  // ---- Its own completion, buffered before the response ------------------------------------------

  /** The buffered completion `i` is the only one under the id that the response names, it is
      terminal, and no record holds the client's item once. */
  predicate HeldOwn(s: State, responseId: Option<Id>, i: nat) {
    && Answerable(s, responseId)
    && var t := s.turn.value;
    && var respId := ResponseId(t, responseId);
    && Undecided(t) && !t.completionSeen && t.kind == StartRequest
    && i < |t.pendingCompletions| && t.pendingCompletions[i].id == respId && t.pendingCompletions[i].terminal
    && (forall j | 0 <= j < |t.pendingCompletions| && t.pendingCompletions[j].id == respId :: j == i)
    && (forall j | 0 <= j < |t.pendingCompletions| :: |ExactFor(t.pendingCompletions[j], t.clientId)| != 1)
  }

  lemma {:induction false} OnlyNativePending(pendings: seq<NativeTurn>, native: Option<Id>, i: nat)
    requires i < |pendings| && pendings[i].id == native
    requires forall j | 0 <= j < |pendings| && pendings[j].id == native :: j == i
    ensures NativePendings(pendings, native) == [pendings[i]]
    decreases |pendings|
  {
    var rest := pendings[1..];
    if i == 0 {
      assert forall j | 0 <= j < |rest| :: rest[j] == pendings[j + 1];
      NoNativePendings(rest, native);
    } else {
      assert forall j | 0 <= j < |rest| :: rest[j] == pendings[j + 1];
      assert pendings[0].id != native;
      OnlyNativePending(rest, native, i - 1);
    }
  }

  lemma OwnPendingSettles(s: State, pendings: seq<NativeTurn>, i: nat)
    requires s.turn.Some? && Undecided(s.turn.value) && s.turn.value.kind == StartRequest
    requires i < |pendings| && pendings[i].id == s.turn.value.nativeId
    requires forall j | 0 <= j < |pendings| && pendings[j].id == s.turn.value.nativeId :: j == i
    requires forall j | 0 <= j < |pendings| :: |ExactFor(pendings[j], s.turn.value.clientId)| != 1
    ensures SettleFrom(s, pendings) == CompleteSingle(s, pendings[i], None)
  {
    hide CompleteSingle, ExactFor;
    NoExactPendings(pendings, s.turn.value.clientId);
    OnlyNativePending(pendings, s.turn.value.nativeId, i);
  }

  /** The response up to the buffered completions: the held notes are heard, and nothing settles. */
  lemma ResponseHears(s: State, responseId: Option<Id>)
    requires Answerable(s, responseId) && Undecided(s.turn.value) && !s.turn.value.completionSeen
    ensures var t, respId := s.turn.value, ResponseId(s.turn.value, responseId);
            var s3 := ReplayNotes(SettleAfterResponse(AcceptRoot(s, respId)));
            && s3.turn.Some? && !s3.fenced && Undecided(s3.turn.value)
            && s3.turn.value.kind == t.kind && s3.turn.value.nativeId == respId
            && s3.turn.value.clientId == t.clientId && s3.turn.value.pendingCompletions == t.pendingCompletions
            && TextAfter(t, Own(t.pendingNotes, respId), s3.turn.value)
            && Step(s, RootResponse(responseId)) == KickAfterResponse(SettlePendings(s3))
  {
    hide Replay, SettlePendings, KickAfterResponse, AcceptRoot, SettleAfterResponse, TextAfter, Sound, Identified, Own;
    var t, respId := s.turn.value, ResponseId(s.turn.value, responseId);
    RequestedRoot(s);
    AcceptanceBinds(s, respId);
    AcceptanceDecidesNothing(s, respId);
    AcceptanceKeepsText(s, respId);
    AcceptanceKeepsKind(s, respId);
    var s1 := AcceptRoot(s, respId);
    var s2 := With(s1, s1.turn.value.(pendingNotes := []));
    ReplayStaysOpen(s2, t.pendingNotes);
    ReplayIsHeard(s2, t.pendingNotes);
    SameTextHears(t, s2.turn.value, Own(t.pendingNotes, respId), ReplayNotes(s1).turn.value);
  }

  lemma AcceptanceKeepsKind(s: State, respId: Option<Id>)
    requires s.turn.Some?
    ensures AcceptRoot(s, respId).turn.Some? && AcceptRoot(s, respId).turn.value.kind == s.turn.value.kind
  {}

  lemma SameTextHears(t: Turn, t1: Turn, notes: seq<Note>, t2: Turn)
    requires SameText(t, t1) && TextAfter(t1, notes, t2)
    ensures TextAfter(t, notes, t2)
  {}

  lemma PendingsSettleOwn(s: State, i: nat)
    requires s.turn.Some? && Undecided(s.turn.value) && s.turn.value.kind == StartRequest
    requires var t, pendings := s.turn.value, s.turn.value.pendingCompletions;
             && i < |pendings| && pendings[i].id == t.nativeId && pendings[i].terminal
             && (forall j | 0 <= j < |pendings| && pendings[j].id == t.nativeId :: j == i)
             && (forall j | 0 <= j < |pendings| :: |ExactFor(pendings[j], t.clientId)| != 1)
    ensures var s' := KickAfterResponse(SettlePendings(s));
            && s'.turn.Some? && s'.turn.value.completed && s'.fenced == s.fenced
            && EndedText(s.turn.value, s.turn.value.pendingCompletions[i].error, s'.turn.value)
  {
    hide CompleteSingle, SettleFrom, ExactFor, EndedText;
    var pendings := s.turn.value.pendingCompletions;
    var s1 := With(s, s.turn.value.(pendingCompletions := []));
    OwnPendingSettles(s1, pendings, i);
    EndsWithoutIndex(s1, pendings[i]);
    SameTextEnds(s1.turn.value, s.turn.value, pendings[i].error, CompleteSingle(s1, pendings[i], None).turn.value);
  }

  lemma SameTextEnds(t1: Turn, t: Turn, error: Option<string>, t2: Turn)
    requires SameText(t, t1) && EndedText(t1, error, t2)
    ensures EndedText(t, error, t2)
  {}

  /** A start whose own completion came before its response is settled by that response, and then
      its final says the last final answer that was held for it, else the completion's error, else
      all agent text that was held. */
  lemma BufferedAnswerIsDelivered(s: State, responseId: Option<Id>, i: nat, later: seq<Event>)
    requires HeldOwn(s, responseId, i)
    requires var s1 := Step(s, RootResponse(responseId));
             !s1.overlapped && Undisturbed(s1, later) && Run(s1, later).pc == AwaitDone
    ensures var t, s1 := s.turn.value, Step(s, RootResponse(responseId));
            var held := Own(t.pendingNotes, ResponseId(t, responseId));
            && SettledTurn(s1) && s1.pc == AwaitDone
            && Answers(Run(s1, later), t.accepted, AnswerOf(t, held, t.pendingCompletions[i].error))
  {
    hide Answers, Undisturbed, Step, Run, SettledTurn, EndedText, TextAfter, AnswerOf, DeliveredText, Own, Replay,
         SettlePendings, KickAfterResponse, AcceptRoot, SettleAfterResponse;
    var t, s1 := s.turn.value, Step(s, RootResponse(responseId));
    var respId := ResponseId(t, responseId);
    ResponseHears(s, responseId);
    var s3 := ReplayNotes(SettleAfterResponse(AcceptRoot(s, respId)));
    PendingsSettleOwn(s3, i);
    AnsweredPace(s, responseId);
    EndedTextDelivers(t, Own(t.pendingNotes, respId), s3.turn.value, t.pendingCompletions[i].error, s1.turn.value);
    StepIsSettled(s, RootResponse(responseId));
    SettledAnswerIsDelivered(s1, later);
  }

  lemma StepIsSettled(s: State, e: Event)
    requires Sound(s) && Identified(s)
    requires var s' := Step(s, e); !s'.overlapped && !s'.fenced && s'.turn.Some? && s'.turn.value.completed
    ensures SettledTurn(Step(s, e))
  {
    StepSound(s, e);
    StepKeepsIdentity(s, e);
  }

  /** The buffered completion `i` is terminal and the only one whose record holds the client's item once. */
  predicate HeldExactly(s: State, responseId: Option<Id>, i: nat) {
    && Answerable(s, responseId)
    && var t := s.turn.value;
    && Undecided(t) && !t.completionSeen && t.clientId.Some?
    && i < |t.pendingCompletions| && t.pendingCompletions[i].terminal
    && (forall j | 0 <= j < |t.pendingCompletions| :: |ExactIndexes(t.pendingCompletions[j], t.clientId.value)| == 1 <==> j == i)
  }

  lemma {:induction false} OnlyExactPending(pendings: seq<NativeTurn>, cid: Id, i: nat)
    requires i < |pendings|
    requires forall j | 0 <= j < |pendings| :: |ExactIndexes(pendings[j], cid)| == 1 <==> j == i
    ensures ExactPendings(pendings, Some(cid)) == [(pendings[i], ExactIndexes(pendings[i], cid)[0])]
    decreases |pendings|
  {
    hide ExactIndexes;
    var rest := pendings[1..];
    assert forall j | 0 <= j < |rest| :: rest[j] == pendings[j + 1];
    assert |ExactIndexes(pendings[0], cid)| == 1 <==> 0 == i;
    if i == 0 {
      NoExactPendings(rest, Some(cid));
    } else {
      OnlyExactPending(rest, cid, i - 1);
    }
  }

  lemma PendingsSettleExact(s: State, i: nat)
    requires s.turn.Some? && Undecided(s.turn.value) && s.turn.value.clientId.Some?
    requires i < |s.turn.value.pendingCompletions| && s.turn.value.pendingCompletions[i].terminal
    requires var t := s.turn.value;
             forall j | 0 <= j < |t.pendingCompletions| :: |ExactIndexes(t.pendingCompletions[j], t.clientId.value)| == 1 <==> j == i
    ensures var t, s' := s.turn.value, KickAfterResponse(SettlePendings(s));
            && s'.turn.Some? && s'.turn.value.completed && s'.fenced == s.fenced && s'.turn.value.allAgentText == ""
            && s'.turn.value.finalText
               == Rebuild(t.pendingCompletions[i], ExactIndexes(t.pendingCompletions[i], t.clientId.value)[0])
  {
    hide CompleteSingle, ExactPendings, NativePendings, ExactIndexes, Rebuild;
    var t := s.turn.value;
    var s1 := With(s, t.(pendingCompletions := []));
    OnlyExactPending(t.pendingCompletions, t.clientId.value, i);
    EndsAtIndex(s1, t.pendingCompletions[i], ExactIndexes(t.pendingCompletions[i], t.clientId.value)[0]);
  }

  /** A turn whose own record came before its response is settled by that response, and then its final
      says what that record answers after the client's item; nothing that was held is left. */
  lemma BufferedRecordIsDelivered(s: State, responseId: Option<Id>, i: nat, k: nat, later: seq<Event>)
    requires HeldExactly(s, responseId, i)
    requires HoldsAt(s.turn.value.pendingCompletions[i], s.turn.value.clientId.value, k)
    requires var s1 := Step(s, RootResponse(responseId));
             !s1.overlapped && Undisturbed(s1, later) && Run(s1, later).pc == AwaitDone
    ensures var t, s1 := s.turn.value, Step(s, RootResponse(responseId));
            && SettledTurn(s1) && s1.pc == AwaitDone
            && AnswersFrom(Run(s1, later), t.accepted, t.pendingCompletions[i], k)
  {
    hide Answers, Undisturbed, Step, Run, SettledTurn, TextAfter, DeliveredText, Own, Replay, AnswersAfter, Rebuild,
         SettlePendings, KickAfterResponse, AcceptRoot, SettleAfterResponse, ExactIndexes, HoldsAt;
    var t, s1 := s.turn.value, Step(s, RootResponse(responseId));
    ResponseHears(s, responseId);
    PendingsSettleExact(ReplayNotes(SettleAfterResponse(AcceptRoot(s, ResponseId(t, responseId)))), i);
    AnsweredPace(s, responseId);
    StepIsSettled(s, RootResponse(responseId));
    HeldOnceAt(t.pendingCompletions[i], t.clientId.value, k);
    DeliveredAlone(s1.turn.value);
    SettledAnswerIsDelivered(s1, later);
    assert AnswersAfter(t.pendingCompletions[i], k, s1.turn.value.finalText);
  }

  // ---- A completion held for the response --------------------------------------------------------

  /** The turn holds a completion of the turn that the response confirms, and its identity is beyond doubt:
      an authorized root with a group or an exact proof, and no steer out. */
  predicate HoldsOwnEnd(s: State, responseId: Option<Id>)
    requires s.turn.Some?
  {
    var t := s.turn.value;
    var respId := ResponseId(t, responseId);
    && s.steer.None? && RootSteerable(t) && (|t.accepted| > 1 || ExactProof(t))
    && t.completionSeen && t.terminal.Some? && t.terminal.value.id.Some?
    && t.terminal.value.id == if respId.Some? then respId else t.canonical
  }

  lemma HeldEndIsBuffered(s: State, responseId: Option<Id>)
    requires Answerable(s, responseId) && !s.turn.value.completed
    ensures SettlesBuffered(AcceptRoot(s, ResponseId(s.turn.value, responseId))) <==> HoldsOwnEnd(s, responseId)
  {
    hide Conserved, Numbered, NoCompletions, PendingsIdle, IdlePendings;
  }

  /** Exactly when the response settles an open turn from a completion that was held for it; and from a full
      record the text it is settled with is exact for that record and the group's sent ids. */
  lemma HeldEndSettlesExactly(s: State, responseId: Option<Id>)
    requires Answerable(s, responseId) && !s.turn.value.completed
    ensures SettledAt(s, responseId).completed <==> HoldsOwnEnd(s, responseId)
    ensures HoldsOwnEnd(s, responseId) ==>
              var t := s.turn.value;
              t.terminal.value.full && SentIds(t.accepted) != [] ==>
                TextIsExact(SettledAt(s, responseId), t.terminal.value, SentIds(t.accepted))
  {
    hide AcceptRoot, SettleAfterResponse, SettlesBuffered, Sound, HoldsOwnEnd, TextIsExact;
    var respId := ResponseId(s.turn.value, responseId);
    AnswerableRoot(s, responseId);
    RequestedRoot(s);
    ResponseSettlesExactly(s, respId);
    HeldEndIsBuffered(s, responseId);
    AcceptanceKeepsEnd(s, respId);
    if HoldsOwnEnd(s, responseId) { HeldEndText(AcceptRoot(s, respId)); }
  }

  lemma AnswerableRoot(s: State, responseId: Option<Id>)
    requires Answerable(s, responseId)
    ensures s.turn.Some? && IdentityOk(s.turn.value)
  {}

  lemma AcceptanceKeepsEnd(s: State, respId: Option<Id>)
    requires s.turn.Some? && IdentityOk(s.turn.value)
    ensures var s0 := AcceptRoot(s, respId);
            && s0.turn.Some? && s0.turn.value.accepted == s.turn.value.accepted
            && s0.turn.value.terminal == s.turn.value.terminal
            && s0.turn.value.completed == s.turn.value.completed
            && (s0.turn.value.conflictReported ==> s0.turn.value.completed)
  {
    hide NoCompletions;
  }

  lemma HeldEndText(s: State)
    requires SettlesBuffered(s) && !s.turn.value.conflictReported
    ensures var rec, ids := s.turn.value.terminal.value, SentIds(s.turn.value.accepted);
            var s1 := SettleAfterResponse(s);
            s1.turn.Some? && (rec.full && ids != [] ==> TextIsExact(s1.turn.value, rec, ids))
  {
    hide SettleSteered, TextIsExact, AnswersAfter;
    var rec := s.turn.value.terminal.value;
    SettleSteeredCompletes(s, rec);
    if rec.full && SentIds(s.turn.value.accepted) != [] { SettledTextIsExactFor(s, rec); }
    if CanResume(s) { SettledGroupStays(SettleSteered(s, rec), rec); }
  }

  // ---- A group without items ---------------------------------------------------------------------

  /** The record does not hold full items, or no member was sent with a client id. */
  predicate Unattributable(s: State, rec: NativeTurn)
    requires s.turn.Some?
  {
    !rec.full || SentIds(s.turn.value.accepted) == []
  }

  lemma UnattributableSettles(s: State, rec: NativeTurn)
    requires s.turn.Some? && !s.turn.value.completed && Unattributable(s, rec)
    ensures SettleSteered(s, rec).turn.Some? && EndedText(s.turn.value, None, SettleSteered(s, rec).turn.value)
  {}

  /** From acceptance to final, for a group that its canonical completion settles without items: the
      final is the last final answer heard, else all agent text heard. Unlike for a turn without a
      group, the completion's own error is never delivered. */
  lemma HeardGroupAnswerIsDelivered(
    s: State, events: seq<Event>, turnParam: Option<Id>, rec: NativeTurn, later: seq<Event>)
    requires SpeaksOn(s, events) && SettlesGroup(Run(s, events), turnParam, rec) && Unattributable(Run(s, events), rec)
    requires var s2 := Step(Run(s, events), Notify(Completed(turnParam, rec)));
             Undisturbed(s2, later) && Run(s2, later).pc == AwaitDone
    ensures s.turn.Some?
    ensures var s1 := Run(s, events);
            var s2 := Step(s1, Notify(Completed(turnParam, rec)));
            Answers(Run(s2, later), s1.turn.value.accepted, AnswerOf(s.turn.value, HeardOver(s, events), None))
  {
    hide Answers, Undisturbed, Step, Run, Speaking, SettledTurn, EndedText, TextAfter, AnswerOf, HeardOver,
         DeliveredText, SettleSteered;
    OpenRunHears(s, events);
    assert Speaking(s);
    SpeakingIsOpen(s);
    var s1 := Run(s, events);
    SpeakingIsOpen(s1);
    OpenGroupIsLive(s1, turnParam, rec);
    var s2 := Step(s1, Notify(Completed(turnParam, rec)));
    var id := NoteId(turnParam, rec);
    var s0 := With(ClearNative(s1, id), HoldCompletion(s1.turn.value, id, rec));
    UnattributableSettles(s0, rec);
    SameTextEnds(s0.turn.value, s1.turn.value, None, s2.turn.value);
    SettledIsOpen(s2);
    EndedTextDelivers(s.turn.value, HeardOver(s, events), s1.turn.value, None, s2.turn.value);
    SettledAnswerIsDelivered(s2, later);
  }

  // ---- Runs ----------------------------------------------------------------------------------------

  const HELLO := AgentItem(Some(10), 1, true, "hello")
  const ENDED := NativeTurn(Some(10), true, false, [], None)
  const LINE_ACCEPTED :=
    LINE_TURN.(nativeId := Some(10), canonical := Some(10), proof := Some(StartResponse), phase := Open,
               requestAccepted := true, startPending := false)

  const HELLO_RUN: seq<Event> :=
    [PlainLine("plain")] + ([ThreadReady] + ([RootResponse(Some(10))] + ([Notify(HELLO)]
    + ([Notify(Completed(Some(10), ENDED))] + []))))

  lemma LineResponds(s: State)
    requires s.pc == AwaitResponse && s.turn == Some(LINE_TURN) && s.nativeActive.None? && s.steer.None? && s.queue == []
    ensures Step(s, RootResponse(Some(10))) == s.(pc := AwaitDone, nativeActive := Some(10), turn := Some(LINE_ACCEPTED))
  {
    assert AcceptRoot(s, Some(10)) == s.(pc := AwaitDone, nativeActive := Some(10), turn := Some(LINE_ACCEPTED));
  }

  lemma HelloIsHeard(s: State)
    requires s.turn == Some(LINE_ACCEPTED)
    ensures Step(s, Notify(HELLO)) == s.(turn := Some(LINE_ACCEPTED.(finalText := Said("hello"))))
  {
    assert Hear(LINE_ACCEPTED, HELLO) == LINE_ACCEPTED.(finalText := Said("hello"));
  }

  lemma HelloRunEnds(s0: State, s1: State, s2: State, s3: State, s4: State)
    requires s1 == Step(s0, PlainLine("plain")) && s2 == Step(s1, ThreadReady) && s3 == Step(s2, RootResponse(Some(10)))
    requires s4 == Step(s3, Notify(HELLO))
    ensures Run(s0, HELLO_RUN) == Step(s4, Notify(Completed(Some(10), ENDED)))
  {
    var e4 := [Notify(Completed(Some(10), ENDED))] + [];
    var e3 := [Notify(HELLO)] + e4;
    var e2 := [RootResponse(Some(10))] + e3;
    RunCons(s0, PlainLine("plain"), [ThreadReady] + e2);
    RunCons(s1, ThreadReady, e2);
    RunCons(s2, RootResponse(Some(10)), e3);
    RunCons(s3, Notify(HELLO), e4);
    RunCons(s4, Notify(Completed(Some(10), ENDED)), []);
  }

  /** A plain line is answered with what was streamed for it: its one final says "hello". */
  lemma LineIsAnswered()
    ensures var s := Run(InitialState(CODEX), HELLO_RUN);
            && !s.fenced && !s.overlapped && s.finals == []
            && Answers(s, [Dispatch(PLAIN, None)], Said("hello"))
  {
    hide Answers;
    var s0 := InitialState(CODEX);
    PlainIsDequeued(s0);
    var s1 := s0.(pc := Dequeued(PLAIN), inbound := [PLAIN]);
    var s2 := s1.(pc := AwaitResponse, epochs := 1, turn := Some(LINE_TURN));
    assert Step(s1, ThreadReady) == s2;
    LineResponds(s2);
    var s3 := s2.(pc := AwaitDone, nativeActive := Some(10), turn := Some(LINE_ACCEPTED));
    HelloIsHeard(s3);
    var s4 := s3.(turn := Some(LINE_ACCEPTED.(finalText := Said("hello"))));
    HelloRunEnds(s0, s1, s2, s3, s4);
    HelloEnds(s4);
  }

  lemma HelloEnds(s: State)
    requires s.turn == Some(LINE_ACCEPTED.(finalText := Said("hello"))) && s.pc == AwaitDone && s.steer.None?
    requires s.nativeActive == Some(10) && s.finals == []
    ensures var s' := Step(s, Notify(Completed(Some(10), ENDED)));
            && s'.fenced == s.fenced && s'.overlapped == s.overlapped && s'.finals == []
            && Answers(s', [Dispatch(PLAIN, None)], Said("hello"))
  {
    var t := LINE_ACCEPTED.(finalText := Said("hello"), completed := true);
    var s' := Step(s, Notify(Completed(Some(10), ENDED)));
    assert s' == s.(nativeActive := None, turn := Some(t));
    assert TrimStart("hello") == "hello" && TrimEnd("hello") == "hello";
    GroupYieldsItsFinals(s');
  }

  const QUOTA := NativeTurn(Some(10), true, false, [], Some("quota"))
  const PAIR_ACCEPTED := PAIRED.(requestAccepted := true, startPending := false)

  const QUOTA_RUN: seq<Event> :=
    [Ask("first", 1)] + ([ThreadReady] + ([Notify(Started(None, Record(10, [UserMessage(Some(1))])))]
    + ([Ask("second", 2)] + ([SteerResponse(Some(10))] + ([RootResponse(Some(10))] + [])))))

  lemma PairResponds(s: State)
    requires s.pc == AwaitResponse && s.turn == Some(PAIRED) && s.nativeActive == Some(10) && s.steer.None? && s.queue == []
    ensures Step(s, RootResponse(Some(10))) == s.(pc := AwaitDone, turn := Some(PAIR_ACCEPTED))
  {
    assert AcceptRoot(s, Some(10)) == s.(pc := AwaitDone, turn := Some(PAIR_ACCEPTED));
  }

  lemma QuotaRunEnds()
    ensures var s := Run(InitialState(CODEX), QUOTA_RUN);
            && s.turn == Some(PAIR_ACCEPTED) && s.pc == AwaitDone && s.finals == [] && s.steer.None?
            && Speaking(s)
  {
    hide Sound, Identified;
    var s0 := InitialState(CODEX);
    FirstIsDequeued(s0);
    var s1 := s0.(pc := Dequeued(FIRST), inbound := [FIRST]);
    FirstBegins(s1);
    var s2 := s1.(pc := AwaitResponse, epochs := 1, turn := Some(FreshTurn(None)));
    FirstIsStarted(s2);
    var s3 := s2.(nativeActive := Some(10), turn := Some(STARTED));
    SecondJoins(s3, STARTED, 10);
    var s5 := s3.(inbound := [FIRST, SECOND], turn := Some(PAIRED));
    PairResponds(s5);
    var e4 := [SteerResponse(Some(10))] + ([RootResponse(Some(10))] + []);
    var e3 := [Ask("second", 2)] + e4;
    var e2 := [Notify(Started(None, Record(10, [UserMessage(Some(1))])))] + e3;
    RunCons(s0, Ask("first", 1), [ThreadReady] + e2);
    RunCons(s1, ThreadReady, e2);
    RunCons(s2, Notify(Started(None, Record(10, [UserMessage(Some(1))]))), e3);
    RunCons(s3, Ask("second", 2), e4);
    RunCons(Step(s3, Ask("second", 2)), SteerResponse(Some(10)), [RootResponse(Some(10))] + []);
    RunCons(s5, RootResponse(Some(10)), []);
    InitialSound(CODEX);
    RunFrom(s0, QUOTA_RUN);
  }

  /** A steered pair whose native turn fails with an error and no items is answered with nothing. */
  lemma GroupErrorIsLost()
    ensures var s := Run(InitialState(CODEX), QUOTA_RUN);
            var s1 := Step(s, Notify(Completed(None, QUOTA)));
            && !s1.fenced && !s1.overlapped && s1.finals == []
            && Answers(s1, PAIR, Said(""))
  {
    hide Answers, Speaking, Step, SettledTurn;
    var s := Run(InitialState(CODEX), QUOTA_RUN);
    QuotaRunEnds();
    SpeakingSettlesGroup(s, None, QUOTA);
    NoteKeepsPace(s, Completed(None, QUOTA));
    HeardGroupAnswerIsDelivered(s, [], None, QUOTA, []);
    OpenGroupIsLive(s, None, QUOTA);
    SettledIsUnfenced(Step(s, Notify(Completed(None, QUOTA))));
    assert LastFinal([]) == None && Streamed({}, []) == "";
    assert AnswerOf(PAIR_ACCEPTED, [], None) == Said("");
  }

  lemma NoteKeepsPace(s: State, note: Note)
    requires s.turn.Some? && s.pc == AwaitDone
    ensures var s1 := Step(s, Notify(note)); s1.pc == AwaitDone && s1.finals == s.finals
  {
    hide OnNote, Identified;
    OnNoteSteady(s, note, false);
  }

  lemma SettledIsUnfenced(s: State)
    requires SettledTurn(s)
    ensures !s.fenced && !s.overlapped
  {}

  lemma SpeakingSettlesGroup(s: State, turnParam: Option<Id>, rec: NativeTurn)
    requires Speaking(s) && s.steer.None? && s.turn.value.accepted == PAIR && !s.turn.value.startPending
    requires s.turn.value.canonical.Some? && NoteId(turnParam, rec) == s.turn.value.canonical
    ensures SettlesGroup(s, turnParam, rec)
  {
    hide Sound, Identified;
  }
}
