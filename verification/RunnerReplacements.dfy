/** Runs on which what was settled is not what is delivered: text streamed before the root's
    response replaces the answer or the identity error of the record, a settled Goal root starts
    over, and a refused root answers a settled input with a failure. */
module RunnerReplacements {
  import opened Prelude
  import opened NativeTurns
  import opened RunnerTypes
  import opened RunnerSteps
  import opened RunnerIdentity
  import opened RunnerInvariants
  import opened RunnerRuns
  import opened RunnerGuarantees
  import opened RunnerSettlements
  import opened RunnerShortfalls
  import opened RunnerProofs
  import opened RunnerBarriers
  import opened RunnerDelivery

  const DRAFT := AgentItem(Some(10), 5, true, "draft")

  function Reply(native: Id, text: string): NativeTurn {
    Record(native, [UserMessage(Some(1)), AgentMessage(true, text)])
  }

  lemma ReplyHoldsFirst(native: Id, text: string)
    ensures ExactIndexes(Reply(native, text), 1) == [0] && Rebuild(Reply(native, text), 0) == Said(text)
    ensures VerifyGroup(Reply(native, text), [1]) == Matched(0)
  {
    var rec := Reply(native, text);
    SingleOccurrence(rec, 1, 0);
    assert rec.items[1..] == [AgentMessage(true, text)];
    assert [1][1..] == [];
    assert VerifyFrom(rec, [1], -1) == VerifyFrom(rec, [1][1..], 0);
  }

  lemma DraftIsHeld(native: Option<Id>)
    requires native == Some(10)
    ensures Own([DRAFT], native) == [DRAFT] && LastFinal([DRAFT]) == Some("draft")
  {
    assert [DRAFT][1..] == [];
    assert Own([], native) == [] && LastFinal([]) == None;
  }

  lemma DraftIsTrim()
    ensures TrimAnswer(Said("draft")) == Said("draft")
  {
    assert TrimStart("draft") == "draft";
    assert TrimEnd("draft") == "draft";
  }

  // ---- The answer is replaced ----------------------------------------------------------------------

  const NOTED := FreshTurn(None).(pendingNotes := [DRAFT])
  const PROVED_DONE :=
    NOTED.(canonical := Some(10), proof := Some(ExactCompleted), completionSeen := true, steeringClosed := true,
           terminal := Some(Reply(10, "done")))

  const DRAFT_RUN: seq<Event> :=
    [Ask("first", 1)] + ([ThreadReady] + ([Notify(DRAFT)] + ([Notify(Completed(None, Reply(10, "done")))] + [])))

  lemma DraftIsNoted(s: State)
    requires s.turn == Some(FreshTurn(None))
    ensures Step(s, Notify(DRAFT)) == s.(turn := Some(NOTED))
  {
    assert [] + [DRAFT] == [DRAFT];
  }

  lemma DoneIsProof(s: State)
    requires s.turn == Some(NOTED) && s.steer.None? && s.nativeActive.None?
    ensures Step(s, Notify(Completed(None, Reply(10, "done")))) == s.(turn := Some(PROVED_DONE))
  {
    ReplyHoldsFirst(10, "done");
    assert With(s, NOTED) == s;
    assert OnSingleCompleted(s, NOTED, Some(10), Reply(10, "done")) == UpgradeByCompletion(s, 10, Reply(10, "done"));
  }

  lemma DraftRunEnds()
    ensures var s := Run(InitialState(CODEX), DRAFT_RUN);
            && s.turn == Some(PROVED_DONE) && s.pc == AwaitResponse && !s.fenced && !s.overlapped && s.steer.None?
            && s.finals == [] && Sound(s) && Identified(s)
  {
    hide Sound, Identified;
    var s0 := InitialState(CODEX);
    FirstIsDequeued(s0);
    var s1 := s0.(pc := Dequeued(FIRST), inbound := [FIRST]);
    FirstBegins(s1);
    var s2 := s1.(pc := AwaitResponse, epochs := 1, turn := Some(FreshTurn(None)));
    DraftIsNoted(s2);
    var s3 := s2.(turn := Some(NOTED));
    DoneIsProof(s3);
    var e3 := [Notify(Completed(None, Reply(10, "done")))] + [];
    var e2 := [Notify(DRAFT)] + e3;
    RunCons(s0, Ask("first", 1), [ThreadReady] + e2);
    RunCons(s1, ThreadReady, e2);
    RunCons(s2, Notify(DRAFT), e3);
    RunCons(s3, Notify(Completed(None, Reply(10, "done"))), []);
    InitialSound(CODEX);
    RunFrom(s0, DRAFT_RUN);
  }

  lemma ResponseSettlesDone(s: State)
    requires s.turn == Some(PROVED_DONE) && s.steer.None?
    ensures !ContradictsProof(PROVED_DONE, Some(10))
    ensures SettledAt(s, Some(10)).completed && SettledAt(s, Some(10)).finalText == Said("done")
  {
    ReplyHoldsFirst(10, "done");
    assert SentIds(PROVED_DONE.accepted) == [1] by {
      assert PROVED_DONE.accepted[1..] == [];
    }
    var s0 := AcceptRoot(s, Some(10));
    assert ResumeBuffered(s0) == s0;
    assert SettlesBuffered(s0);
    MatchedGroupSettles(s0, Reply(10, "done"), 0);
  }

  lemma ResponseKeepsDraft(s: State)
    requires Answerable(s, Some(10)) && SettledAt(s, Some(10)).completed && s.turn.value.pendingNotes == [DRAFT]
    ensures var s1 := Step(s, RootResponse(Some(10)));
            && s1.turn.Some? && !s1.fenced && !s1.overlapped
            && s1.turn.value.completed && s1.turn.value.finalText == Said("draft")
            && DeliveredText(s1.turn.value) == Said("draft")
  {
    hide Answerable, SettledAt;
    SettledTextSurvivesExactly(s, Some(10));
    DraftIsHeld(Some(10));
    DraftIsTrim();
    assert Said("draft") != Said("");
  }

  /** The accepted response leaves the drain loop waiting for the turn. */
  lemma AnsweredPace(s: State, responseId: Option<Id>)
    requires Answerable(s, responseId)
    ensures var s1 := Step(s, RootResponse(responseId));
            && s1.turn.Some? && s1.pc == AwaitDone && s1.finals == s.finals
            && s1.turn.value.accepted == s.turn.value.accepted
  {
    hide AfterAccept, AcceptRoot;
    var respId := ResponseId(s.turn.value, responseId);
    OnRootResponseCalm(s, responseId);
    AcceptedPace(s, respId);
    AfterAcceptSteady(AcceptRoot(s, respId));
  }

  /** The record says "done", the only final says "draft". */
  lemma DraftReplacesAnswer()
    ensures var s := Run(InitialState(CODEX), DRAFT_RUN);
            && s.turn.Some? && SettledAt(s, Some(10)).finalText == Said("done")
            && var s1 := Step(s, RootResponse(Some(10)));
            && !s1.fenced && !s1.overlapped && s1.pc == AwaitDone && s1.finals == []
            && Answers(s1, [Dispatch(FIRST, Some(1))], Said("draft"))
  {
    hide Answers, SettledAt, Step, Sound, Identified;
    var s := Run(InitialState(CODEX), DRAFT_RUN);
    DraftRunEnds();
    ResponseSettlesDone(s);
    DraftDelivered(s, [Dispatch(FIRST, Some(1))]);
  }

  lemma DraftDelivered(s: State, group: seq<Dispatch>)
    requires Answerable(s, Some(10)) && SettledAt(s, Some(10)).completed && s.turn.value.pendingNotes == [DRAFT]
    requires s.turn.value.accepted == group
    ensures var s1 := Step(s, RootResponse(Some(10)));
            && !s1.fenced && !s1.overlapped && s1.pc == AwaitDone && s1.finals == s.finals
            && s1.turn.Some? && s1.turn.value.finalText == Said("draft")
            && Answers(s1, group, Said("draft"))
  {
    hide Answers, SettledAt, Sound, Identified, DeliveredText;
    var s1 := Step(s, RootResponse(Some(10)));
    ResponseKeepsDraft(s);
    AnsweredPace(s, Some(10));
    StepSound(s, RootResponse(Some(10)));
    StepKeepsIdentity(s, RootResponse(Some(10)));
    AnswerableIsLive(s, Some(10));
    SettledIsFinalized(s1);
  }

  lemma AnswerableIsLive(s: State, responseId: Option<Id>)
    requires Answerable(s, responseId)
    ensures Sound(s) && Identified(s)
  {}

  // ---- The identity error is replaced ------------------------------------------------------------

  const FOREIGN := Reply(10, "first answer")
  const NOTED_PAIR := PAIRED.(pendingNotes := [DRAFT])
  const HELD_PAIR := NOTED_PAIR.(completionSeen := true, steeringClosed := true, terminal := Some(FOREIGN))

  const PARTIAL_RUN: seq<Event> :=
    [Ask("first", 1)] + ([ThreadReady] + ([Notify(Started(None, Record(10, [UserMessage(Some(1))])))]
    + ([Ask("second", 2)] + ([SteerResponse(Some(10))] + ([Notify(DRAFT)]
    + ([Notify(Completed(None, FOREIGN))] + []))))))

  lemma DraftIsNotedByPair(s: State)
    requires s.turn == Some(PAIRED)
    ensures Step(s, Notify(DRAFT)) == s.(turn := Some(NOTED_PAIR))
  {
    assert [] + [DRAFT] == [DRAFT];
  }

  lemma ForeignIsHeld(s: State)
    requires s.turn == Some(NOTED_PAIR) && s.steer.None? && s.nativeActive == Some(10)
    ensures Step(s, Notify(Completed(None, FOREIGN))) == s.(nativeActive := None, turn := Some(HELD_PAIR))
  {
    assert HoldCompletion(NOTED_PAIR, Some(10), FOREIGN) == HELD_PAIR;
  }

  lemma PartialRunEnds()
    ensures var s := Run(InitialState(CODEX), PARTIAL_RUN);
            && s.turn == Some(HELD_PAIR) && s.pc == AwaitResponse && !s.fenced && !s.overlapped && s.steer.None?
            && s.finals == [] && Sound(s) && Identified(s)
  {
    hide Sound, Identified;
    var s0 := InitialState(CODEX);
    FirstIsDequeued(s0);
    var s1 := s0.(pc := Dequeued(FIRST), inbound := [FIRST]);
    FirstBegins(s1);
    var s2 := s1.(pc := AwaitResponse, epochs := 1, turn := Some(FreshTurn(None)));
    FirstIsStarted(s2);
    var s3 := s2.(nativeActive := Some(10), turn := Some(STARTED));
    SecondJoins(s3, STARTED, 10);
    var s4 := Step(s3, Ask("second", 2));
    var s5 := s3.(inbound := [FIRST, SECOND], turn := Some(PAIRED));
    DraftIsNotedByPair(s5);
    var s6 := s5.(turn := Some(NOTED_PAIR));
    ForeignIsHeld(s6);
    PartialRunSteps(s0, s1, s2, s3, s4, s5, s6);
    InitialSound(CODEX);
    RunFrom(s0, PARTIAL_RUN);
  }

  lemma PartialRunSteps(s0: State, s1: State, s2: State, s3: State, s4: State, s5: State, s6: State)
    requires s1 == Step(s0, Ask("first", 1)) && s2 == Step(s1, ThreadReady)
    requires s3 == Step(s2, Notify(Started(None, Record(10, [UserMessage(Some(1))]))))
    requires s4 == Step(s3, Ask("second", 2)) && s5 == Step(s4, SteerResponse(Some(10))) && s6 == Step(s5, Notify(DRAFT))
    ensures Run(s0, PARTIAL_RUN) == Step(s6, Notify(Completed(None, FOREIGN)))
  {
    var e6 := [Notify(Completed(None, FOREIGN))] + [];
    var e5 := [Notify(DRAFT)] + e6;
    var e4 := [SteerResponse(Some(10))] + e5;
    var e3 := [Ask("second", 2)] + e4;
    var e2 := [Notify(Started(None, Record(10, [UserMessage(Some(1))])))] + e3;
    RunCons(s0, Ask("first", 1), [ThreadReady] + e2);
    RunCons(s1, ThreadReady, e2);
    RunCons(s2, Notify(Started(None, Record(10, [UserMessage(Some(1))]))), e3);
    RunCons(s3, Ask("second", 2), e4);
    RunCons(s4, SteerResponse(Some(10)), e5);
    RunCons(s5, Notify(DRAFT), e6);
    RunCons(s6, Notify(Completed(None, FOREIGN)), []);
  }

  lemma SecondIsMissing()
    ensures SentIds(PAIR) == [1, 2] && VerifyGroup(FOREIGN, [1, 2]) == Refused(MemberMissing)
  {
    GrownSentIds();
    ReplyHoldsFirst(10, "first answer");
    assert IndexesFrom(FOREIGN.items, 2, 2) == [] && IndexesFrom(FOREIGN.items, 2, 1) == [];
    assert ExactIndexes(FOREIGN, 2) == [];
    assert [1, 2][1..] == [2];
    assert VerifyFrom(FOREIGN, [1, 2], -1) == VerifyFrom(FOREIGN, [2], 0);
  }

  lemma ResponseRefusesPair(s: State)
    requires s.turn == Some(HELD_PAIR) && s.steer.None?
    ensures !ContradictsProof(HELD_PAIR, Some(10))
    ensures SettledAt(s, Some(10)).completed && SettledAt(s, Some(10)).finalText == IdentityConflict(MemberMissing)
  {
    hide VerifyGroup, Rebuild;
    SecondIsMissing();
    var s0 := AcceptRoot(s, Some(10));
    assert CanResume(s0);
    assert ResumeBuffered(s0) == ReportConflict(s0, MemberMissing);
  }

  /** The record does not hold the second member. The identity error is set, and then replaced
      by text streamed before the response: the group's last final says "draft". */
  lemma DraftReplacesIdentityError()
    ensures var s := Run(InitialState(CODEX), PARTIAL_RUN);
            && s.turn.Some? && SettledAt(s, Some(10)).finalText == IdentityConflict(MemberMissing)
            && var s1 := Step(s, RootResponse(Some(10)));
            && !s1.fenced && !s1.overlapped && s1.pc == AwaitDone && s1.finals == []
            && s1.turn.Some? && s1.turn.value.finalText == Said("draft")
            && Answers(s1, PAIR, Said("draft"))
  {
    hide Answers, SettledAt, Step, Sound, Identified;
    var s := Run(InitialState(CODEX), PARTIAL_RUN);
    PartialRunEnds();
    ResponseRefusesPair(s);
    DraftDelivered(s, PAIR);
  }

  // ---- A settled Goal root starts over ---------------------------------------------------------------

  const INACTIVE := Failure(true, true, false, true, "expected turn is not active")
  const GOAL_DONE := FreshTurn(Some(20)).(finalText := Said("done"), completed := true)

  const RESTART_RUN: seq<Event> :=
    [Notify(Started(None, GOAL))] + ([Ask("first", 1)] + ([ThreadReady]
    + ([Notify(Completed(None, Reply(20, "done")))] + [])))

  lemma GoalRootIsDone(s: State)
    requires s.turn == Some(FreshTurn(Some(20))) && s.steer.None? && s.nativeActive == Some(20)
    ensures Step(s, Notify(Completed(None, Reply(20, "done")))) == s.(nativeActive := None, turn := Some(GOAL_DONE))
  {
    ReplyHoldsFirst(20, "done");
    SingleCompletionIsTaken(s.(nativeActive := None), Some(20), Reply(20, "done"));
  }

  lemma RestartRunEnds()
    ensures var s := Run(InitialState(CODEX), RESTART_RUN);
            && s.turn == Some(GOAL_DONE) && s.pc == AwaitResponse && s.nativeActive.None?
            && !s.fenced && !s.overlapped && s.finals == [] && Sound(s) && Identified(s)
  {
    hide Sound, Identified;
    var s0 := InitialState(CODEX);
    var s1 := s0.(nativeActive := Some(20), published := s0.published + [true]);
    assert Step(s0, Notify(Started(None, GOAL))) == s1;
    FirstIsDequeued(s1);
    var s2 := s1.(pc := Dequeued(FIRST), inbound := [FIRST]);
    FirstBegins(s2);
    var s3 := s2.(pc := AwaitResponse, epochs := 1, turn := Some(FreshTurn(Some(20))));
    GoalRootIsDone(s3);
    var e3 := [Notify(Completed(None, Reply(20, "done")))] + [];
    var e2 := [ThreadReady] + e3;
    RunCons(s0, Notify(Started(None, GOAL)), [Ask("first", 1)] + e2);
    RunCons(s1, Ask("first", 1), e2);
    RunCons(s2, ThreadReady, e3);
    RunCons(s3, Notify(Completed(None, Reply(20, "done"))), []);
    InitialSound(CODEX);
    RunFrom(s0, RESTART_RUN);
  }

  /** What a settled root that starts over will deliver. */
  lemma StartedOverDeliversNothing(s: State)
    requires SettledTurn(s) && StartsOver(s, INACTIVE) && s.turn.value.canonical.None?
    ensures var s1 := Step(s, RootError(INACTIVE));
            var s2 := Step(s1, RootResponse(Some(30)));
            && SettledTurn(s1) && SettledTurn(s2) && s2.pc == AwaitDone && s2.finals == s.finals
            && DeliveredText(s2.turn.value) == Said("") && s2.turn.value.accepted == s.turn.value.accepted
  {
    hide Sound, Identified, DeliveredText;
    var s1 := Step(s, RootError(INACTIVE));
    assert s1 == FallBack(s);
    StartedOverIsEmpty(s);
    StaysSettled(s, RootError(INACTIVE));
    var s2 := Step(s1, RootResponse(Some(30)));
    assert Own(s1.turn.value.pendingNotes, Some(30)) == [];
    SettledAtOnce(s1, Some(30));
    AnsweredPace(s1, Some(30));
    SettledTextSurvivesExactly(s1, Some(30));
    NothingIsOverwritten(SettledAt(s1, Some(30)));
    SameTextDelivers(s1.turn.value, SettledAt(s1, Some(30)));
    StaysSettled(s1, RootResponse(Some(30)));
  }

  lemma NothingIsOverwritten(t: Turn)
    ensures !Overwritten(t, [])
  {
    assert t.allAgentText + "" == t.allAgentText;
  }

  /** The Goal turn answered "done" and ended; the steer is then refused as inactive. The settled
      input is submitted once more as a turn of its own, and its final is empty. */
  lemma RestartLosesAnswer()
    ensures var s := Run(InitialState(CODEX), RESTART_RUN);
            && s.turn.Some? && s.turn.value.completed && DeliveredText(s.turn.value) != Said("")
            && var s2 := Step(Step(s, RootError(INACTIVE)), RootResponse(Some(30)));
            && !s2.fenced && !s2.overlapped && s2.pc == AwaitDone && s2.finals == []
            && Answers(s2, [Dispatch(FIRST, Some(1))], Said(""))
  {
    hide Answers, Step, Sound, Identified;
    var s := Run(InitialState(CODEX), RESTART_RUN);
    RestartRunEnds();
    DoneIsDelivered();
    StartedOverDeliversNothing(s);
    SettledIsFinalized(Step(Step(s, RootError(INACTIVE)), RootResponse(Some(30))));
  }

  lemma DoneIsDelivered()
    ensures DeliveredText(GOAL_DONE) == Said("done")
  {
    assert TrimStart("done") == "done";
    assert TrimEnd("done") == "done";
  }

  // ---- A refused root answers a settled input -------------------------------------------------------

  const SERIAL := FIRST.(steerable := false)
  const SERIAL_TURN := NewTurn(1, Some(1), Dispatch(SERIAL, Some(1)), None, true)
  const SERIAL_DONE := SERIAL_TURN.(finalText := Said("done"), nativeId := Some(10), completed := true)
  const SERIAL_ASK := Framed("first", Some(Sidecar(Some(1))), None, false)

  const REFUSAL_RUN: seq<Event> :=
    [SERIAL_ASK] + ([ThreadReady] + ([Notify(Completed(None, Reply(10, "done")))] + ([RootError(OVERLOADED)] + [])))

  lemma SerialIsDequeued(s: State)
    requires s.inbound == [] && s.queue == [] && s.pc == Idle && s.turn.None? && s.nativeActive.None? && !s.fenced
    ensures Step(s, SERIAL_ASK) == s.(pc := Dequeued(SERIAL), inbound := [SERIAL])
  {
    assert Receive(s, "first", Some(Sidecar(Some(1))), None, false) == s.(queue := [SERIAL], inbound := [SERIAL]);
    assert [SERIAL][1..] == [];
  }

  lemma SerialIsDone(s: State)
    requires s.turn == Some(SERIAL_TURN) && s.steer.None? && s.nativeActive.None?
    ensures Step(s, Notify(Completed(None, Reply(10, "done")))) == s.(turn := Some(SERIAL_DONE))
  {
    ReplyHoldsFirst(10, "done");
    SingleCompletionIsTaken(s, Some(10), Reply(10, "done"));
  }

  /** An input that no follow-up may join is settled with its answer before its start is answered;
      the start is then refused, and the failure is what its only final says. */
  lemma RefusalReplacesAnswer()
    ensures var s := Run(InitialState(CODEX), REFUSAL_RUN);
            && !s.fenced && !s.overlapped && s.turn == Some(SERIAL_DONE) && s.finals == []
            && var s1 := Step(s, DrainResumed);
            && |s1.finals| == 1 && s1.finals[0].input == SERIAL && s1.finals[0].content.RunnerError?
  {
    var s0 := InitialState(CODEX);
    SerialIsDequeued(s0);
    var s1 := s0.(pc := Dequeued(SERIAL), inbound := [SERIAL]);
    SerialBegins(s1);
    var s2 := s1.(pc := AwaitResponse, epochs := 1, turn := Some(SERIAL_TURN));
    SerialIsDone(s2);
    var s3 := s2.(turn := Some(SERIAL_DONE));
    SerialIsRefused(s3);
    RefusalRunEnds(s0, s1, s2, s3);
    FailureIsAnswered(s3.(pc := Threw(OVERLOADED.message)), SERIAL, OVERLOADED.message);
  }

  lemma SerialBegins(s: State)
    requires s.pc == Dequeued(SERIAL) && s.epochs == 0 && s.cfg == CODEX && !s.cleanUnsupported && s.nativeActive.None?
    ensures Step(s, ThreadReady) == s.(pc := AwaitResponse, epochs := 1, turn := Some(SERIAL_TURN))
  {}

  lemma SerialIsRefused(s: State)
    requires s.turn == Some(SERIAL_DONE) && s.pc == AwaitResponse
    ensures var s1 := Step(s, RootError(OVERLOADED));
            && s1 == s.(pc := Threw(OVERLOADED.message))
            && Step(s1, DrainResumed) == AnswerFailure(s1, SERIAL, OVERLOADED.message)
  {
    hide AnswerFailure;
  }

  lemma RefusalRunEnds(s0: State, s1: State, s2: State, s3: State)
    requires s1 == Step(s0, SERIAL_ASK) && s2 == Step(s1, ThreadReady)
    requires s3 == Step(s2, Notify(Completed(None, Reply(10, "done"))))
    ensures Run(s0, REFUSAL_RUN) == Step(s3, RootError(OVERLOADED))
  {
    var e3 := [RootError(OVERLOADED)] + [];
    var e2 := [Notify(Completed(None, Reply(10, "done")))] + e3;
    RunCons(s0, SERIAL_ASK, [ThreadReady] + e2);
    RunCons(s1, ThreadReady, e2);
    RunCons(s2, Notify(Completed(None, Reply(10, "done"))), e3);
    RunCons(s3, RootError(OVERLOADED), []);
  }
}
