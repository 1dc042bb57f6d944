/** What a settled turn delivers, from its settlement to its final: which events still change the
    text, and the runs on which a settled answer or an identity error is replaced. */
module RunnerDelivery {
  import opened Prelude
  import opened NativeTurns
  import opened RunnerTypes
  import opened RunnerSteps
  import opened RunnerIdentity
  import opened RunnerInvariants
  import opened RunnerRuns
  import opened RunnerGuarantees
  import opened RunnerSettlements
  import opened RunnerShortfalls
  import opened RunnerProofs
  import opened RunnerBarriers

  // ---- The text of a series of notes ---------------------------------------------------------

  /** The text of the last final-answer item among the notes. */
  function LastFinal(notes: seq<Note>): Option<string> {
    if notes == [] then None
    else
      var later := LastFinal(notes[1..]);
      if later.Some? then later
      else if notes[0].AgentItem? && notes[0].finalAnswer then Some(notes[0].text)
      else None
  }

  /** The agent text that the notes stream; an item that was streamed is not repeated. */
  function Streamed(seen: set<Id>, notes: seq<Note>): string
    decreases |notes|
  {
    if notes == [] then ""
    else
      match notes[0]
      case Delta(_, itemId, text) => text + Streamed(seen + {itemId}, notes[1..])
      case AgentItem(_, itemId, finalAnswer, text) =>
        (if finalAnswer || itemId in seen then "" else text) + Streamed(seen, notes[1..])
      case _ => Streamed(seen, notes[1..])
  }

  /** The turn a note belongs to, as the replay reads it. */
  function Owner(note: Note): Option<Id> {
    if note.Started? || note.Completed? then NoteId(note.turnParam, note.rec) else note.turnParam
  }

  /** The held notes that are replayed once the response names the turn. */
  function Own(notes: seq<Note>, native: Option<Id>): seq<Note> {
    if notes == [] then []
    else (if Owner(notes[0]) == native then [notes[0]] else []) + Own(notes[1..], native)
  }

  function Delivered(final: Answer, agent: string): Answer {
    TrimAnswer(if final != Said("") then final else Said(agent))
  }

  /** The notes change what the turn delivers: by a final-answer item with another text, or, if
      the turn has no final text, by any agent text that does not vanish in trimming. */
  predicate Overwritten(t: Turn, notes: seq<Note>) {
    var agent := t.allAgentText + Streamed(t.seenItems, notes);
    match LastFinal(notes)
    case Some(text) => Delivered(Said(text), agent) != DeliveredText(t)
    case None => t.finalText == Said("") && Trim(agent) != Trim(t.allAgentText)
  }

  /** The turn's text after the notes. */
  predicate TextAfter(t: Turn, notes: seq<Note>, t': Turn) {
    && t'.finalText == (if LastFinal(notes).Some? then Said(LastFinal(notes).value) else t.finalText)
    && t'.allAgentText == t.allAgentText + Streamed(t.seenItems, notes)
  }

  predicate SameText(t: Turn, t': Turn) {
    t'.finalText == t.finalText && t'.allAgentText == t.allAgentText && t'.seenItems == t.seenItems
  }

  lemma OverwrittenExactly(t: Turn, notes: seq<Note>, t': Turn)
    requires TextAfter(t, notes, t')
    ensures DeliveredText(t') != DeliveredText(t) <==> Overwritten(t, notes)
    ensures t.finalText.IdentityConflict? ==> (Overwritten(t, notes) <==> LastFinal(notes).Some?)
  {
    hide LastFinal, Streamed, Trim;
  }

  /** `a` is `text` without the blanks at its ends. */
  ghost predicate TrimmedOf(text: string, a: string) {
    IsTrimmed(a) && exists before, after :: text == before + a + after && IsBlank(before) && IsBlank(after)
  }

  /** What a settled turn delivers: its final text, or all agent text if that is empty, with the blanks taken
      off its ends; an identity error and the runner's own errors as they are. */
  lemma DeliveredIsExact(t: Turn)
    ensures t.finalText.Said? ==>
              && DeliveredText(t).Said?
              && TrimmedOf(if t.finalText.text != "" then t.finalText.text else t.allAgentText, DeliveredText(t).text)
    ensures t.finalText.NativeFailure? ==>
              DeliveredText(t).NativeFailure? && exists after :: IsBlank(after) && t.finalText.message == DeliveredText(t).message + after
    ensures t.finalText.IdentityConflict? || t.finalText.RunnerError? ==> DeliveredText(t) == t.finalText
  {
    hide Trim, TrimEnd;
    if t.finalText.Said? {
      var text := if t.finalText.text != "" then t.finalText.text else t.allAgentText;
      var before, after := TrimIsExact(text);
      assert TrimmedOf(text, Trim(text));
    } else if t.finalText.NativeFailure? {
      var after := TrimEndIsExact(t.finalText.message);
    }
  }

  // ---- The replay of held notes -----------------------------------------------------------------

  lemma OwnStartKeepsText(s: State, turnParam: Option<Id>, rec: NativeTurn)
    requires s.turn.Some?
    ensures var s' := OnStarted(s, turnParam, rec, true); s'.turn.Some? && SameText(s.turn.value, s'.turn.value)
  {
    hide OnStartedFor;
    var id := NoteId(turnParam, rec);
    if id.Some? {
      StartedForKeepsText(s, id.value, turnParam, rec);
      StartedForKeepsText(s.(nativeActive := id), id.value, turnParam, rec);
    }
  }

  lemma StartedForKeepsText(s: State, id: Id, turnParam: Option<Id>, rec: NativeTurn)
    requires s.turn.Some?
    ensures var s' := OnStartedFor(s, s.turn.value, id, turnParam, rec);
            s'.turn.Some? && SameText(s.turn.value, s'.turn.value)
  {
    hide ExactFor, AfterStarted;
    var exact := |ExactFor(rec, s.turn.value.clientId)| == 1;
    AfterStartedKeepsText(With(s, ProveStarted(s.turn.value, id, exact)), id, Started(turnParam, rec));
  }

  lemma AfterStartedKeepsText(s: State, id: Id, note: Note)
    requires s.turn.Some? && note.Started?
    ensures var s' := AfterStarted(s, id, note); s'.turn.Some? && SameText(s.turn.value, s'.turn.value)
  {
    hide TryAdmitSteer, HoldsStart, ExactProof;
    var t := s.turn.value;
    var s2 := With(s, t.(serverStarted := true));
    AdmissionKeepsText(s2);
    if t.nativeId == Some(id) {
      assert AfterStarted(s, id, note).turn == s2.turn;
    } else {
      assert AfterStarted(s, id, note).turn == s.turn
          || AfterStarted(s, id, note).turn == Some(t.(pendingNotes := t.pendingNotes + [note]));
    }
  }

  lemma AdmissionKeepsText(s: State)
    requires s.turn.Some?
    ensures TryAdmitSteer(s).turn == s.turn
  {
    hide Admits;
  }

  /** A replayed note is heard, unless it is no text. */
  lemma OwnNoteIsHeard(s: State, note: Note)
    requires Bound(s) && !note.Completed? && Owner(note) == s.turn.value.nativeId
    ensures var t := s.turn.value;
            var s' := OnNote(s, note, true);
            && s'.turn.Some?
            && SameText(s'.turn.value, Hear(t, note))
  {
    hide OnStarted, Bound;
    BoundIsAccepted(s);
    if note.Started? { OwnStartKeepsText(s, note.turnParam, note.rec); }
  }

  lemma BoundIsAccepted(s: State)
    requires Bound(s)
    ensures s.turn.Some? && s.turn.value.requestAccepted
  {}

  lemma {:induction false} ReplayIsHeard(s: State, notes: seq<Note>)
    requires Bound(s) && NoCompletions(notes)
    ensures var s' := Replay(s, notes);
            s'.turn.Some? && TextAfter(s.turn.value, Own(notes, s.turn.value.nativeId), s'.turn.value)
    decreases |notes|
  {
    if notes != [] {
      hide OnNote, Bound;
      BoundIsAccepted(s);
      var note, rest := notes[0], notes[1..];
      var native := s.turn.value.nativeId;
      assert NoCompletions(rest);
      if Owner(note) == native {
        OwnNoteIsHeard(s, note);
        HeldNoteStaysOpen(s, note);
        var s1 := OnNote(s, note, true);
        StaysBound(s, s1);
        ReplayIsHeard(s1, rest);
        assert Replay(s, notes) == Replay(s1, rest);
        var own := Own(rest, native);
        assert Own(notes, native) == [note] + own;
        HeardFirst(s.turn.value, note, own, s1.turn.value, Replay(s1, rest).turn.value);
      } else {
        ReplayIsHeard(s, rest);
        assert Replay(s, notes) == Replay(s, rest);
        assert Own(notes, native) == Own(rest, native);
      }
    }
  }

  lemma StaysBound(s: State, s': State)
    requires Bound(s) && StaysOpen(s, s')
    ensures Bound(s') && s'.turn.value.nativeId == s.turn.value.nativeId
  {}

  lemma HeardFirst(t: Turn, note: Note, rest: seq<Note>, t1: Turn, t2: Turn)
    requires SameText(t1, Hear(t, note)) && TextAfter(t1, rest, t2)
    ensures TextAfter(t, [note] + rest, t2)
  {
    assert ([note] + rest)[1..] == rest;
    assert t.allAgentText + Heard(t, note).1[|t.allAgentText|..] == Heard(t, note).1;
  }

  // ---- The root's response -----------------------------------------------------------------------

  /** The response settles a turn that held back a canonical completion of an authorized root. */
  lemma ResponseSettlesExactly(s: State, respId: Option<Id>)
    requires Requested(s) && IdentityOk(s.turn.value) && !ContradictsProof(s.turn.value, respId)
    ensures var s1 := SettleAfterResponse(AcceptRoot(s, respId));
            && s1.turn.Some?
            && (s1.turn.value.completed <==> s.turn.value.completed || SettlesBuffered(AcceptRoot(s, respId)))
  {
    hide AcceptRoot, SettleSteered, RouteBuffered;
    var s0 := AcceptRoot(s, respId);
    AcceptanceKeepsText(s, respId);
    SettleAfterResponseKeepsBinding(s0);
    if CanResume(s0) { RouteBufferedSettles(s0, s0.turn.value.terminal.value); }
    if SettlesBuffered(s0) {
      ResumeKeepsBinding(s0);
      ConflictCompletes(s0);
      SettleSteeredCompletes(ResumeBuffered(s0), s0.turn.value.terminal.value);
    }
  }

  lemma AcceptanceKeepsText(s: State, respId: Option<Id>)
    requires s.turn.Some?
    ensures var s0 := AcceptRoot(s, respId);
            && s0.turn.Some? && SameText(s.turn.value, s0.turn.value)
            && s0.turn.value.completed == s.turn.value.completed
            && s0.turn.value.conflictReported == s.turn.value.conflictReported
  {}

  lemma ConflictCompletes(s: State)
    requires s.turn.Some? && (s.turn.value.conflictReported ==> s.turn.value.completed)
    ensures var s1 := ResumeBuffered(s);
            s1.turn.Some? && (s1.turn.value.conflictReported ==> s1.turn.value.completed)
  {
    hide CanResume, VerifyGroup, Rebuild;
    if CanResume(s) { ResumableTerminal(s); }
  }

  lemma ResumableTerminal(s: State)
    requires CanResume(s)
    ensures s.turn.Some? && s.turn.value.terminal.Some?
  {}

  /** Once settled, the rest of the response's work only replays the held notes. */
  lemma AcceptedTextIsHeard(s: State)
    requires Bound(s) && NoCompletions(s.turn.value.pendingNotes)
    requires SettleAfterResponse(s).turn.Some? && SettleAfterResponse(s).turn.value.completed
    ensures var t1 := SettleAfterResponse(s).turn.value;
            var s' := AfterAccept(s);
            && s'.turn.Some? && !s'.fenced && s'.turn.value.completed && s'.overlapped == s.overlapped
            && TextAfter(t1, Own(s.turn.value.pendingNotes, s.turn.value.nativeId), s'.turn.value)
  {
    hide SettleAfterResponse, Replay, TextAfter;
    SettlingAdmitsNothing(s);
    ReplayNotesSteady(SettleAfterResponse(s));
    SettleAfterResponseKeepsBinding(s);
    var s1 := SettleAfterResponse(s);
    var t1 := s1.turn.value;
    var s2 := With(s1, t1.(pendingNotes := []));
    ReplayStaysOpen(s2, t1.pendingNotes);
    ReplayIsHeard(s2, t1.pendingNotes);
    var s3 := ReplayNotes(s1);
    assert s3 == Replay(s2, t1.pendingNotes);
    var s4 := With(s3, s3.turn.value.(pendingCompletions := []));
    assert AfterAccept(s) == s4;
    SameTextAfter(t1, s2.turn.value, Own(t1.pendingNotes, t1.nativeId), s3.turn.value, s4.turn.value);
  }

  lemma SettlingAdmitsNothing(s: State)
    requires s.turn.Some?
    ensures SettleAfterResponse(s).overlapped == s.overlapped
  {
    hide SettleSteered, CanResume;
    if CanResume(s) {
      ResumableTerminal(s);
      SettleSteeredSame(s, s.turn.value.terminal.value);
    }
    ResumeKeepsBinding(s);
    if SettlesBuffered(s) { SettleSteeredSame(ResumeBuffered(s), s.turn.value.terminal.value); }
  }

  lemma SameTextAfter(t1: Turn, t2: Turn, notes: seq<Note>, t3: Turn, t4: Turn)
    requires SameText(t1, t2) && TextAfter(t2, notes, t3)
    requires t4.finalText == t3.finalText && t4.allAgentText == t3.allAgentText
    ensures TextAfter(t1, notes, t4)
  {}

  lemma AcceptanceAdmitsNothing(s: State, respId: Option<Id>)
    requires s.turn.Some?
    ensures AcceptRoot(s, respId).overlapped == s.overlapped
  {}

  function ResponseId(t: Turn, responseId: Option<Id>): Option<Id> {
    if responseId.Some? then responseId else t.nativeId
  }

  /** A root under request whose response does not contradict what was proved. */
  predicate Answerable(s: State, responseId: Option<Id>) {
    && Sound(s) && Identified(s) && !s.overlapped && !s.fenced && s.pc == AwaitResponse && s.turn.Some?
    && !ContradictsProof(s.turn.value, ResponseId(s.turn.value, responseId))
  }

  /** The turn as the response settles it, or found it settled, before the held notes. */
  function SettledAt(s: State, responseId: Option<Id>): Turn
    requires s.turn.Some?
  {
    var s1 := SettleAfterResponse(AcceptRoot(s, ResponseId(s.turn.value, responseId)));
    if s1.turn.Some? then s1.turn.value else s.turn.value
  }

  /** A turn that is settled when its root is answered delivers its settled text exactly if no
      note held for it overwrites that text. An identity error survives exactly if no
      final-answer item was held. */
  lemma SettledTextSurvivesExactly(s: State, responseId: Option<Id>)
    requires Answerable(s, responseId) && SettledAt(s, responseId).completed
    ensures var held := Own(s.turn.value.pendingNotes, ResponseId(s.turn.value, responseId));
            var t1, s' := SettledAt(s, responseId), Step(s, RootResponse(responseId));
            && s'.turn.Some? && !s'.fenced && !s'.overlapped && s'.turn.value.completed
            && TextAfter(t1, held, s'.turn.value)
            && (DeliveredText(s'.turn.value) == DeliveredText(t1) <==> !Overwritten(t1, held))
            && (t1.finalText.IdentityConflict? ==>
                (DeliveredText(s'.turn.value) == DeliveredText(t1) <==> LastFinal(held).None?))
  {
    hide AcceptRoot, SettleAfterResponse, AfterAccept, TextAfter, Overwritten, Sound, Identified;
    var respId := ResponseId(s.turn.value, responseId);
    RequestedRoot(s);
    AcceptanceBinds(s, respId);
    var s0 := AcceptRoot(s, respId);
    SettleAfterResponseKeepsBinding(s0);
    AcceptedTextIsHeard(s0);
    assert Step(s, RootResponse(responseId)) == AfterAccept(s0);
    AcceptanceAdmitsNothing(s, respId);
    OverwrittenExactly(SettledAt(s, responseId), Own(s.turn.value.pendingNotes, respId), AfterAccept(s0).turn.value);
  }

  // ---- Between settlement and final ---------------------------------------------------------------

  /** A settled turn that is not yet answered. */
  predicate SettledTurn(s: State) {
    Sound(s) && Identified(s) && !s.overlapped && !s.fenced && s.turn.Some? && s.turn.value.completed
  }

  predicate SameTurnText(s: State, s': State) {
    s.turn.Some? && s'.turn.Some? && SameText(s.turn.value, s'.turn.value)
  }

  /** A Goal root whose Goal turn is gone starts over, even if it is settled. */
  predicate StartsOver(s: State, failure: Failure)
    requires s.turn.Some?
  {
    var r := s.turn.value.rpc;
    s.pc == AwaitResponse && r.expected.Some? && !r.fellBack && s.nativeActive.None? && failure.rpc && failure.inactive
  }

  /** A scan under way for the turn finds a record that holds its client id twice. */
  predicate FindsRepeat(t: Turn, candidates: seq<NativeTurn>, failed: bool) {
    && t.lookup.SingleLookup? && t.clientId.Some? && !failed && !t.conflictReported
    && exists c :: c in candidates && c.terminal && |ExactIndexes(c, t.clientId.value)| > 1
  }

  predicate IsText(note: Note) {
    note.Delta? || note.AgentItem?
  }

  /** The note is heard by the accepted turn. */
  predicate Heeds(t: Turn, note: Note) {
    IsText(note) && t.requestAccepted && !(t.nativeId.Some? && note.turnParam.Some? && note.turnParam != t.nativeId)
  }

  /** The events that change what a settled turn will deliver. */
  predicate Rewrites(s: State, e: Event)
    requires s.turn.Some?
  {
    var t := s.turn.value;
    match e
    case Notify(note) => Heeds(t, note) && Overwritten(t, [note])
    case RootResponse(responseId) =>
      && s.pc == AwaitResponse
      && var respId := ResponseId(t, responseId);
      && !ContradictsProof(t, respId) && Overwritten(t, Own(t.pendingNotes, respId))
    case RootError(failure) => StartsOver(s, failure) && DeliveredText(t) != Said("")
    case HistoryScanned(candidates, failed, _) =>
      FindsRepeat(t, candidates, failed) && DeliveredText(t) != IdentityConflict(ClientIdRepeated)
    case _ => false
  }

  lemma SameTextDelivers(t: Turn, t': Turn)
    requires SameText(t, t')
    ensures DeliveredText(t') == DeliveredText(t)
  {}

  lemma CompletionKeepsText(s: State, turnParam: Option<Id>, rec: NativeTurn)
    requires s.turn.Some? && s.turn.value.completed
    ensures SameTurnText(s, OnCompleted(s, turnParam, rec))
  {
    hide ExactFor;
    var id := NoteId(turnParam, rec);
    var s1 := ClearNative(s, id);
    assert s1 == s.(nativeActive := s1.nativeActive);
    GroupCompletionKeepsText(s1, id, rec);
    SingleCompletionKeepsText(s1, id, rec);
  }

  lemma GroupCompletionKeepsText(s: State, id: Option<Id>, rec: NativeTurn)
    requires s.turn.Some? && s.turn.value.completed
    ensures SameTurnText(s, OnGroupCompleted(s, s.turn.value, id, rec))
  {
    hide VerifyGroup;
  }

  lemma SingleCompletionOfSettled(s: State, id: Option<Id>, rec: NativeTurn)
    requires s.turn.Some? && s.turn.value.completed
    ensures var t, s' := s.turn.value, OnSingleCompleted(s, s.turn.value, id, rec);
            || s' == s
            || s' == With(s, t.(pendingCompletions := t.pendingCompletions + [rec]))
            || (id.Some? && s' == UpgradeByCompletion(s, id.value, rec))
  {
    hide ExactFor, CompleteSingle, StartSingleLookup, UpgradeByCompletion;
    assert With(s, s.turn.value) == s;
    var exact := ExactFor(rec, s.turn.value.clientId);
    SettledStaysAsItIs(s, rec, if |exact| == 1 then Some(exact[0]) else None);
    SettledStaysAsItIs(s, rec, None);
  }

  lemma SingleCompletionKeepsText(s: State, id: Option<Id>, rec: NativeTurn)
    requires s.turn.Some? && s.turn.value.completed
    ensures SameTurnText(s, OnSingleCompleted(s, s.turn.value, id, rec))
  {
    hide OnSingleCompleted, UpgradeByCompletion;
    SingleCompletionOfSettled(s, id, rec);
    if id.Some? { UpgradeKeepsText(s, id.value, rec); }
  }

  lemma UpgradeKeepsText(s: State, id: Id, rec: NativeTurn)
    requires s.turn.Some?
    ensures SameTurnText(s, UpgradeByCompletion(s, id, rec))
  {}

  lemma SettledStaysAsItIs(s: State, rec: NativeTurn, index: Option<nat>)
    requires s.turn.Some? && s.turn.value.completed
    ensures CompleteSingle(s, rec, index) == s && StartSingleLookup(s, false) == s
  {}

  lemma StartedKeepsText(s: State, turnParam: Option<Id>, rec: NativeTurn)
    requires s.turn.Some?
    ensures SameTurnText(s, OnStarted(s, turnParam, rec, false))
  {
    hide OnStartedFor;
    var id := NoteId(turnParam, rec);
    if id.Some? { StartedForKeepsText(s.(nativeActive := id), id.value, turnParam, rec); }
  }

  lemma OneNote(t: Turn, note: Note)
    requires IsText(note)
    ensures TextAfter(t, [note], Hear(t, note))
  {
    assert [note][1..] == [];
    assert LastFinal([]) == None && Streamed(t.seenItems, []) == "";
    assert Streamed(t.seenItems, [note])
        == if note.Delta? then note.text + Streamed(t.seenItems + {note.itemId}, [])
           else (if note.finalAnswer || note.itemId in t.seenItems then "" else note.text) + Streamed(t.seenItems, []);
  }

  lemma ProgressForms(s: State, note: Note)
    requires s.turn.Some? && !note.Started? && !note.Completed? && !note.TokenUsage?
    ensures var t, s' := s.turn.value, OnProgress(s, note);
            var left := s'.turn == s.turn || s'.turn == Some(t.(pendingNotes := t.pendingNotes + [note]));
            if Heeds(t, note) then s'.turn == Some(Hear(t, note))
            else left || (!IsText(note) && s'.turn == Some(Hear(t, note)))
  {
    hide Hear;
  }

  lemma ProgressRewrites(s: State, note: Note)
    requires s.turn.Some? && !note.Started? && !note.Completed? && !note.TokenUsage?
    ensures var s' := OnProgress(s, note);
            && s'.turn.Some?
            && (if Heeds(s.turn.value, note) then SameText(s'.turn.value, Hear(s.turn.value, note))
                else SameText(s.turn.value, s'.turn.value))
  {
    hide OnProgress, Hear, Heeds;
    ProgressForms(s, note);
    HearsNothing(s.turn.value, note);
  }

  lemma HearsNothing(t: Turn, note: Note)
    ensures !IsText(note) ==> SameText(t, Hear(t, note))
  {}

  lemma NoteRewritesExactly(s: State, note: Note)
    requires s.turn.Some? && s.turn.value.completed
    ensures var s' := OnNote(s, note, false);
            s'.turn.Some? && (DeliveredText(s'.turn.value) != DeliveredText(s.turn.value) <==> Rewrites(s, Notify(note)))
  {
    hide OnStarted, OnCompleted, OnProgress, Overwritten, DeliveredText, Hear, TextAfter;
    var t, s' := s.turn.value, OnNote(s, note, false);
    if IsText(note) || note.Progress? {
      ProgressRewrites(s, note);
      if Heeds(t, note) {
        OneNote(t, note);
        SameTextDelivers(Hear(t, note), s'.turn.value);
        OverwrittenExactly(t, [note], Hear(t, note));
      } else {
        SameTextDelivers(t, s'.turn.value);
      }
    } else if note.Started? {
      StartedKeepsText(s, note.turnParam, note.rec);
      SameTextDelivers(t, s'.turn.value);
    } else if note.Completed? {
      CompletionKeepsText(s, note.turnParam, note.rec);
      SameTextDelivers(t, s'.turn.value);
    }
  }

  lemma SettledAtOnce(s: State, responseId: Option<Id>)
    requires s.turn.Some? && s.turn.value.completed
    ensures SettledAt(s, responseId).completed && SameText(s.turn.value, SettledAt(s, responseId))
  {
    hide AcceptRoot;
    AcceptanceKeepsText(s, ResponseId(s.turn.value, responseId));
  }

  lemma SameTextOverwrites(t: Turn, t': Turn, notes: seq<Note>)
    requires SameText(t, t')
    ensures Overwritten(t, notes) == Overwritten(t', notes)
  {}

  lemma ResponseRewritesExactly(s: State, responseId: Option<Id>)
    requires SettledTurn(s)
    ensures var e, s' := RootResponse(responseId), Step(s, RootResponse(responseId));
            s'.turn.Some? && (DeliveredText(s'.turn.value) != DeliveredText(s.turn.value) <==> Rewrites(s, e))
  {
    hide Sound, Identified, Overwritten, DeliveredText, AfterAccept, AcceptRoot, SettleAfterResponse;
    if s.pc == AwaitResponse {
      var t := s.turn.value;
      var respId := ResponseId(t, responseId);
      if ContradictsProof(t, respId) {
        FencedRootKeepsText(s);
        SameTextDelivers(t, FenceRoot(s).turn.value);
      } else {
        var t1 := SettledAt(s, responseId);
        SettledAtOnce(s, responseId);
        SettledTextSurvivesExactly(s, responseId);
        SameTextDelivers(t, t1);
        SameTextOverwrites(t, t1, Own(t.pendingNotes, respId));
      }
    }
  }

  lemma FencedRootKeepsText(s: State)
    requires s.turn.Some?
    ensures SameTurnText(s, FenceRoot(s))
  {}

  lemma ErrorRewritesExactly(s: State, failure: Failure)
    requires s.turn.Some?
    ensures var e, s' := RootError(failure), OnRootError(s, failure);
            s'.turn.Some? && (DeliveredText(s'.turn.value) != DeliveredText(s.turn.value) <==> Rewrites(s, e))
  {
    hide DeliveredText;
    if StartsOver(s, failure) {
      assert OnRootError(s, failure) == FallBack(s);
      StartedOverIsEmpty(s);
    } else {
      if s.pc == AwaitResponse { SameTextDelivers(s.turn.value, OnRootError(s, failure).turn.value); }
      assert SameTurnText(s, OnRootError(s, failure));
    }
  }

  lemma StartedOverIsEmpty(s: State)
    requires s.turn.Some?
    ensures FallBack(s).turn.Some? && DeliveredText(FallBack(s).turn.value) == Said("")
  {}

  lemma ScanRewritesExactly(s: State, candidates: seq<NativeTurn>, failed: bool, expired: bool)
    requires s.turn.Some? && s.turn.value.completed
    ensures var e, s' := HistoryScanned(candidates, failed, expired), OnHistoryScanned(s, candidates, failed, expired);
            s'.turn.Some? && (DeliveredText(s'.turn.value) != DeliveredText(s.turn.value) <==> Rewrites(s, e))
  {
    hide ExactIndexes, ReportConflict;
    if FindsRepeat(s.turn.value, candidates, failed) {
      RepeatConflicts(s);
      assert OnHistoryScanned(s, candidates, failed, expired) == ReportConflict(FinishLookup(s), ClientIdRepeated);
    } else {
      if s.turn.value.conflictReported { ReportedConflictStays(s); }
      assert SameTurnText(s, OnHistoryScanned(s, candidates, failed, expired));
    }
  }

  lemma RepeatConflicts(s: State)
    requires s.turn.Some? && !s.turn.value.conflictReported
    ensures var s' := ReportConflict(FinishLookup(s), ClientIdRepeated);
            s'.turn.Some? && DeliveredText(s'.turn.value) == IdentityConflict(ClientIdRepeated)
  {}

  lemma ReportedConflictStays(s: State)
    requires s.turn.Some? && s.turn.value.conflictReported
    ensures ReportConflict(FinishLookup(s), ClientIdRepeated) == FinishLookup(s)
  {}

  lemma SteerKeepsText(s: State, e: Event)
    requires SettledTurn(s) && (e.SteerResponse? || e.SteerError?)
    ensures Step(s, e) == s
  {}

  /** Which events change what a settled turn will deliver, exactly, while it waits for its final:
      heard text; the root's response, by the notes held for it; a root error on which a Goal
      root starts over; and a scan that finds the client id repeated. */
  lemma DeliveredTextChangesExactly(s: State, e: Event)
    requires SettledTurn(s) && Step(s, e).turn.Some?
    ensures DeliveredText(Step(s, e).turn.value) != DeliveredText(s.turn.value) <==> Rewrites(s, e)
  {
    if IsLoopEvent(e) {
      LoopProvesNothing(s, e);
    } else {
      hide SettledTurn, DeliveredText, Rewrites;
      SettledIsOpen(s);
      match e {
        case RootResponse(responseId) => ResponseRewritesExactly(s, responseId);
        case RootError(failure) => ErrorRewritesExactly(s, failure);
        case SteerResponse(_) => SteerKeepsText(s, e); SteerRewritesNothing(s, e);
        case SteerError(_) => SteerKeepsText(s, e); SteerRewritesNothing(s, e);
        case Notify(note) => NoteRewritesExactly(s, note);
        case HistoryScanned(candidates, failed, expired) => ScanRewritesExactly(s, candidates, failed, expired);
      }
    }
  }

  lemma SettledIsOpen(s: State)
    requires SettledTurn(s)
    ensures s.turn.Some? && s.turn.value.completed
  {}

  lemma SteerRewritesNothing(s: State, e: Event)
    requires s.turn.Some? && (e.SteerResponse? || e.SteerError?)
    ensures !Rewrites(s, e)
  {}

  // ---- From settlement to final --------------------------------------------------------------------

  lemma LoopKeepsSettled(s: State, e: Event)
    requires SettledTurn(s) && IsLoopEvent(e) && Step(s, e).turn.Some?
    ensures Step(s, e).overlapped == s.overlapped && Step(s, e).turn == s.turn
  {
    LoopProvesNothing(s, e);
  }

  lemma CalmKeepsSettled(s: State, s': State)
    requires s.turn.Some? && s.turn.value.completed && Calm(s, s')
    ensures s'.turn.Some? && s'.turn.value.completed && s'.turn.value.accepted == s.turn.value.accepted
    ensures s'.overlapped == s.overlapped
  {}

  lemma StaysSettled(s: State, e: Event)
    requires SettledTurn(s) && Step(s, e).turn.Some? && !Step(s, e).fenced
    ensures SettledTurn(Step(s, e)) && Step(s, e).turn.value.accepted == s.turn.value.accepted
  {
    hide Sound, Identified, Calm;
    var s' := Step(s, e);
    StepSound(s, e);
    StepKeepsIdentity(s, e);
    if IsLoopEvent(e) {
      LoopKeepsSettled(s, e);
    } else if e.SteerResponse? || e.SteerError? {
      SteerKeepsText(s, e);
    } else {
      match e {
        case RootResponse(responseId) => OnRootResponseCalm(s, responseId);
        case RootError(failure) => OnRootErrorSteady(s, failure);
        case Notify(note) => OnNoteSteady(s, note, false);
        case HistoryScanned(candidates, failed, expired) => OnHistoryScannedSteady(s, candidates, failed, expired);
      }
      CalmKeepsSettled(s, s');
    }
  }

  /** The turn stays open and unfenced, and no event rewrites what it will deliver. */
  predicate Undisturbed(s: State, events: seq<Event>)
    decreases |events|
  {
    events == [] ||
    (var s1 := Step(s, events[0]);
     s.turn.Some? && !Rewrites(s, events[0]) && s1.turn.Some? && !s1.fenced && Undisturbed(s1, events[1..]))
  }

  lemma {:induction false} UndisturbedKeepsText(s: State, events: seq<Event>)
    requires SettledTurn(s) && Undisturbed(s, events)
    ensures var s' := Run(s, events);
            && SettledTurn(s')
            && DeliveredText(s'.turn.value) == DeliveredText(s.turn.value)
            && s'.turn.value.accepted == s.turn.value.accepted
    decreases |events|
  {
    hide SettledTurn, Rewrites, DeliveredText, Step;
    if events != [] {
      SettledIsOpen(s);
      StaysSettled(s, events[0]);
      DeliveredTextChangesExactly(s, events[0]);
      UndisturbedKeepsText(Step(s, events[0]), events[1..]);
    }
  }

  /** The empty final of a member that the next one superseded. */
  predicate SupersededFor(f: Final, d: Dispatch) {
    f.input == d.input && f.superseded && f.content == Said("")
  }

  /** The turn is finalized: empty finals for all members but the last, `answer` for the last. */
  predicate Answers(s: State, group: seq<Dispatch>, answer: Answer) {
    var n, s' := |group|, Step(s, TurnDone);
    && n > 0
    && |s'.finals| == |s.finals| + n
    && (forall k | 0 <= k < n - 1 :: SupersededFor(s'.finals[|s.finals| + k], group[k]))
    && s'.finals[|s.finals| + n - 1].input == group[n - 1].input
    && s'.finals[|s.finals| + n - 1].content == answer && !s'.finals[|s.finals| + n - 1].superseded
  }

  lemma SettledIsFinalized(s: State)
    requires SettledTurn(s) && s.pc == AwaitDone
    ensures Answers(s, s.turn.value.accepted, DeliveredText(s.turn.value))
  {
    hide DeliveredText, Step;
    SettledIsAnswerable(s);
    GroupYieldsItsFinals(s);
    var t, s' := s.turn.value, Step(s, TurnDone);
    forall k | 0 <= k < |t.accepted| - 1 ensures SupersededFor(s'.finals[|s.finals| + k], t.accepted[k]) {
      assert s'.finals[|s.finals| + k] == Final(t.accepted[k].input, t.nativeId, Said(""), true, None);
    }
  }

  lemma SettledIsAnswerable(s: State)
    requires SettledTurn(s)
    ensures s.turn.value.phase != Fenced && |s.turn.value.accepted| >= 1
  {}

  /** From settlement to final: what a settled turn would deliver is what its last member's final
      says, if none of the events that change it intervenes. */
  lemma SettledAnswerIsDelivered(s: State, events: seq<Event>)
    requires SettledTurn(s) && Undisturbed(s, events) && Run(s, events).pc == AwaitDone
    ensures Answers(Run(s, events), s.turn.value.accepted, DeliveredText(s.turn.value))
  {
    hide SettledTurn, DeliveredText, Answers, Undisturbed;
    UndisturbedKeepsText(s, events);
    SettledIsFinalized(Run(s, events));
  }

  lemma SettleSteeredSame(s: State, rec: NativeTurn)
    requires s.turn.Some?
    ensures var s' := SettleSteered(s, rec);
            && s'.turn.Some? && s'.overlapped == s.overlapped && s'.fenced == s.fenced
            && s'.turn.value.accepted == s.turn.value.accepted
  {
    hide VerifyGroup, Rebuild, ReportConflict;
    forall reason ensures SameGroup(s, ReportConflict(s, reason)) { ConflictKeepsGroup(s, reason); }
  }

  predicate SameGroup(s: State, s': State) {
    && s.turn.Some? && s'.turn.Some? && s'.turn.value.accepted == s.turn.value.accepted
    && s'.overlapped == s.overlapped && s'.fenced == s.fenced
  }

  lemma ConflictKeepsGroup(s: State, reason: Reason)
    requires s.turn.Some?
    ensures SameGroup(s, ReportConflict(s, reason))
  {}

  /** The settled text is exact for the record: the answer after the last member's item, or an
      identity error if the sent ids do not occur once each and in order. */
  ghost predicate TextIsExact(t: Turn, rec: NativeTurn, ids: seq<Id>) {
    && t.allAgentText == ""
    && (t.finalText.IdentityConflict? <==> !exists at :: InOrder(rec.items, ids, at))
    && forall at | InOrder(rec.items, ids, at) :: at != [] && AnswersAfter(rec, at[|at| - 1], t.finalText)
  }

  /** The group's finals answer with what the record says after item `index`. */
  ghost predicate AnswersFrom(s: State, group: seq<Dispatch>, rec: NativeTurn, index: nat) {
    exists a :: AnswersAfter(rec, index, a) && Answers(s, group, TrimAnswer(a))
  }

  lemma ExactTextIsDelivered(s: State, rec: NativeTurn, ids: seq<Id>, events: seq<Event>)
    requires SettledTurn(s) && Undisturbed(s, events) && Run(s, events).pc == AwaitDone
    requires TextIsExact(s.turn.value, rec, ids)
    ensures var s2, group := Run(s, events), s.turn.value.accepted;
            && ((exists at :: InOrder(rec.items, ids, at)) || exists reason :: Answers(s2, group, IdentityConflict(reason)))
            && (forall at | InOrder(rec.items, ids, at) ::
                  at != [] && AnswersFrom(s2, group, rec, at[|at| - 1]))
  {
    hide Answers, Undisturbed, SettledTurn, InOrder, AnswersAfter, Run;
    SettledIsOpen(s);
    var t := s.turn.value;
    SettledAnswerIsDelivered(s, events);
    DeliveredAlone(t);
    if !exists at :: InOrder(rec.items, ids, at) {
      assert Answers(Run(s, events), t.accepted, IdentityConflict(t.finalText.reason));
    }
  }

  lemma SettledTextIsExactFor(s: State, rec: NativeTurn)
    requires s.turn.Some? && !s.turn.value.completed && !s.turn.value.conflictReported
    requires rec.full && SentIds(s.turn.value.accepted) != []
    ensures SettleSteered(s, rec).turn.Some?
    ensures TextIsExact(SettleSteered(s, rec).turn.value, rec, SentIds(s.turn.value.accepted))
  {
    hide SettleSteered, AnswersAfter;
    SettledTextIsExact(s, rec);
    SettleSteeredSame(s, rec);
  }

  /** A canonical completion that settles the open group at once. */
  predicate SettlesGroup(s: State, turnParam: Option<Id>, rec: NativeTurn) {
    && Sound(s) && Identified(s) && !s.overlapped && !s.fenced && s.turn.Some? && !s.turn.value.completed
    && InGroupMode(s, s.turn.value) && s.steer.None? && !s.turn.value.startPending
    && s.turn.value.canonical.Some? && NoteId(turnParam, rec) == s.turn.value.canonical
  }

  lemma OpenGroupIsLive(s: State, turnParam: Option<Id>, rec: NativeTurn)
    requires SettlesGroup(s, turnParam, rec)
    ensures var e, id := Notify(Completed(turnParam, rec)), NoteId(turnParam, rec);
            var s0 := With(ClearNative(s, id), HoldCompletion(s.turn.value, id, rec));
            && SettledTurn(Step(s, e)) && Step(s, e) == SettleSteered(s0, rec)
            && s0.turn.Some? && !s0.turn.value.completed && !s0.turn.value.conflictReported
            && s0.turn.value.accepted == s.turn.value.accepted
            && Step(s, e).turn.value.accepted == s.turn.value.accepted
  {
    hide SettleSteered;
    var e, id := Notify(Completed(turnParam, rec)), NoteId(turnParam, rec);
    StepSound(s, e);
    StepKeepsIdentity(s, e);
    GroupCompletionIsRouted(s, turnParam, rec);
    var s1 := ClearNative(s, id);
    assert s1 == s.(nativeActive := s1.nativeActive);
    var s0 := With(s1, HoldCompletion(s.turn.value, id, rec));
    SettleSteeredCompletes(s0, rec);
    SettleSteeredSame(s0, rec);
  }

  /** End to end: the final of a group that its canonical completion settles is the answer found
      after its last member's item, if every sent id occurs once and in accepted order, and the
      explicit identity error otherwise, unless an event rewrites it before the final. */
  lemma GroupFinalIsExact(s: State, turnParam: Option<Id>, rec: NativeTurn, events: seq<Event>)
    requires SettlesGroup(s, turnParam, rec)
    requires rec.full && SentIds(s.turn.value.accepted) != []
    requires var s1 := Step(s, Notify(Completed(turnParam, rec)));
             Undisturbed(s1, events) && Run(s1, events).pc == AwaitDone
    ensures var s2 := Run(Step(s, Notify(Completed(turnParam, rec))), events);
            var group, ids := s.turn.value.accepted, SentIds(s.turn.value.accepted);
            && ((exists at :: InOrder(rec.items, ids, at)) || exists reason :: Answers(s2, group, IdentityConflict(reason)))
            && (forall at | InOrder(rec.items, ids, at) ::
                  at != [] && AnswersFrom(s2, group, rec, at[|at| - 1]))
  {
    hide Answers, Undisturbed, Step, SettledTurn, SettleSteered, InOrder, AnswersFrom, Run, TextIsExact;
    OpenGroupIsLive(s, turnParam, rec);
    var id := NoteId(turnParam, rec);
    SettledTextIsExactFor(With(ClearNative(s, id), HoldCompletion(s.turn.value, id, rec)), rec);
    ExactTextIsDelivered(Step(s, Notify(Completed(turnParam, rec))), rec, SentIds(s.turn.value.accepted), events);
  }

  lemma DeliveredAlone(t: Turn)
    requires t.allAgentText == ""
    ensures DeliveredText(t) == TrimAnswer(t.finalText)
  {}

  /** A settled turn leaves by its finals, or by the failure final of a root that was refused,
      and in no other way. */
  lemma SettledTurnLeavesExactly(s: State, e: Event)
    requires SettledTurn(s)
    ensures Step(s, e).turn.None? <==> (e.TurnDone? && s.pc == AwaitDone) || (e.DrainResumed? && s.pc.Threw?)
  {
    if IsLoopEvent(e) {
      LoopLeavesExactly(s, e);
    } else {
      hide SettledTurn;
      SettledIsOpen(s);
      match e {
        case RootResponse(responseId) => ResponseRewritesExactly(s, responseId);
        case RootError(failure) => ErrorRewritesExactly(s, failure);
        case SteerResponse(_) => SteerKeepsText(s, e);
        case SteerError(_) => SteerKeepsText(s, e);
        case Notify(note) => NoteRewritesExactly(s, note);
        case HistoryScanned(candidates, failed, expired) => ScanRewritesExactly(s, candidates, failed, expired);
      }
    }
  }

  lemma LoopLeavesExactly(s: State, e: Event)
    requires SettledTurn(s) && IsLoopEvent(e)
    ensures Step(s, e).turn.None? <==> (e.TurnDone? && s.pc == AwaitDone) || (e.DrainResumed? && s.pc.Threw?)
  {
    hide Finalize;
    match e {
      case DrainResumed => if s.pc.Threw? { AnswerFailureFrame(s, s.turn.value.accepted[0].input, s.pc.message); }
      case _ =>
    }
  }
}
