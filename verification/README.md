# Verified model of the Codex runners

This project models the parts of Botmux that keep one promise for every user message: it is
executed once, in order, and answered under its own identity. Seven source files are covered.

* **The Codex App runner's ordered-steer driver** (`botmux/src/codex-app-runner.ts`). Inputs
  wait in a FIFO. A root input starts a native turn or is steered into a Goal turn the
  app-server started by itself; follow-ups may be steered into that turn before it ends.
  Responses, notifications, history lookups and timers arrive in any order.
  * `RunnerTypes`, `RunnerSteps`: the state, the events, and what each uninterrupted piece of
    the driver does, branch for branch.
  * `RunnerDriver`: the same code in place — a mutable `ActiveTurn` that handlers and
    continuations share, and the `Runner` with its loops — proved equal to `RunnerSteps`.
  * `RunnerIdentity`, `RunnerInvariants`, `RunnerRuns`, `RunnerGuarantees`, `RunnerSettlements`:
    what every step keeps and every run guarantees.
  * `RunnerProofs`: the competing witnesses of a native id. `RunnerBarriers`: which outstanding
    responses hold a turn open. `RunnerGoalEntry`: who may enter a Goal turn. Each states
    exactly when the program keeps its promise, with a run on which it does not.
  * `RunnerDelivery`, `RunnerReplacements`: what a settled turn delivers, from settlement to
    final, and the runs on which that is replaced. `RunnerAnswers`: what a turn answers that no
    group record decides, from the acceptance of its request over its completion to its final.
    `RunnerAutonomy`: what was streamed before that acceptance, and never counts.
  * `RunnerEagerness`: follow-ups are steered as soon as they may be.
  * `RunnerDispatch`: the identity and form in which an input is sent, and what becomes of a
    refused root. `RunnerSlot`: which native turn counts as open, and for how long. `RunnerIdle`:
    when the runner announces itself idle.
  * `RunnerShortfalls`: the missing guard of follow-up steering, and how far it reaches.
  * `NativeTurns`: native turn records and the attribution of a record to an ordered group.
* **The runner's signed control channel and final chunker** (same file): `ControlChannel`,
  `ControlStall`, `FinalChunks`. The receiving side is the worker's fence, assembler and replay window.
* **Line framing** (same file and `botmux/src/dsh-runner.ts`): `LineFraming`.
* **The RPC engine's native-turn ledger** (`botmux/src/codex-rpc-engine.ts`): `RpcLedger`.
* **The first-prompt decision, the engagement fence and the process-tree search**
  (`botmux/src/codex-rpc-lifecycle.ts` with the engine): `FirstPrompt`, `ProcessTree`.
* **The dsh turn** (`botmux/src/dsh-runner.ts`): `DshTurn`.
* **The meeting profile selector** (`botmux/src/bot-registry.ts`): `ProfileSelection`.
* **The supervisor's coalescing drain** (`botmux/src/index-supervisor.ts`): `SupervisorDrain`.

Code that changes state in the source is a class here whose methods are proved equal to a
specification function on its old state; the theorems are about those functions and their runs.

## Where code and comments disagree

The model follows the code. Each point is a theorem, with the run or input on which it shows.

* A history lookup "owns settlement once started", and runTurn's last kick of follow-up steering
  is guarded by it. The kicks from `turn/started` (line 1202) and from an input line (line 2396)
  are not, and no kick looks at completions buffered before the response or at a runTurn that
  threw. An admission over a lookup, a throw, or buffered completions that can settle the turn is
  recorded as `overlapped`. Runs without one conserve and order their inputs and stay silent after
  a fence; any such admission can be continued to a run that does not (`MissingGuardIsNecessary`).
  `OverlapLosesAnInput` is a run from the initial state that loses an input.
* A settled group is said to deliver its record's answer or an explicit identity error, "never
  foreign model text". What `settleSteeredCompletion` sets is exactly that, but notes held for the
  root's response are replayed after it, and a final-answer item among them replaces the answer
  (`DraftReplacesAnswer`) and the identity error (`DraftReplacesIdentityError`).
  `SettledTextSurvivesExactly` says when the settled text survives the response,
  `DeliveredTextChangesExactly` which events change it before the final, and `GroupFinalIsExact`
  what the final then says.
* An accepted response is said never to resurrect a completed lifecycle. The replay of a turn/started
  that was held for the response does: it opens the native slot again for a turn that has ended, exactly
  if such a start was held and no other turn is open by then (`ResponseReopensExactly`). Nothing frees
  that slot. In `EndedTurnParksLine`, a run of ordinary events, a turn is answered in full, the runner
  never goes idle, and every later plain line waits behind the ended turn for as long as the app-server
  starts and ends nothing of its own; a steerable input is sent into the ended turn and its refusal
  fences (`SteerIntoEndedTurnFences`).
* A group settled without items is said to match the contract of a single turn. It does for what it
  heard, but a single turn that heard no final text delivers the native error, and a group does not:
  a steered pair whose native turn fails is answered with nothing (`OwnCompletionIsExact`,
  `HeardGroupAnswerIsDelivered`, `GroupErrorIsLost`).
* A turn/started is said to keep the worker busy for native work. One without an id marks the runner
  busy although nothing is tracked as running; at rest no timer is then set, and it stays reported busy
  until something else happens (`StepAnnouncesExactly`, `NamelessStartLeavesBusy`). On every other run
  a runner at rest has announced itself idle or will (`RestIsAnnounced`).
* Starting a Goal root over when its Goal is gone is said to be safe. It also happens to a root
  that is already settled, whose answer is then lost (`RestartLosesAnswer`); and a start that is
  refused although its turn was settled is answered by the failure (`RefusalReplacesAnswer`).
* A pending start response and a steer response are said to be barriers to settling a group. The
  steer is one (`SteerIsABarrier`). The root's request is not, for any root: a group rooted in a
  Goal turn settles at its completion (`GoalRootSettlesEarly`), and a group whose root was started
  settles when its own follow-up steer is definitely refused while a canonical completion is held
  (`StartedRootSettlesEarly`). `EarlySettlementIsExact` says which events settle a turn before its
  root's response. An error that answers the root afterwards fences, and the settled group's
  finals are never emitted (`SettledGroupIsNeverAnswered`).
* Any later exact proof with a different native id is said to fence. `FirstProofWins` says which
  events are taken as proofs. An exact completion that is not, because the root is accepted, is a
  Goal root or is not authorized, settles its turn with its own answer and under its own id
  (`ContradictingCompletionIsLetThrough`, `OtherTurnSettles`).
* A foreign completion buffered before the root's response is said to leave the accepted turn
  pending. It does exactly if the input has a client id; a plain line is settled at once as an
  identity error (`ForeignCompletionsSettleExactly`, `StaleCompletionSettlesLine`).
* The fence is said to stop every later dequeue. An accepted steer response that arrives after
  the fence still takes the head it carried off the queue, although nothing will answer it
  (`FencedStep` states the queue's exact content, `FencedRunnerTakesHead` is a run).
* Only an authorized head is said to enter a Goal turn. The gate is tested before the await of
  the thread and the native-busy slot is read after it, so an unauthorized input enters exactly if
  a native turn is open when its thread becomes ready (`GoalEntryIsExact`, `GapLetsPlainLineIn`).
* A surviving remote viewer is said to be "always a resume". If it is not, the first prompt is
  sent by RPC and queued as well (`SubmittedTwiceExactly`, `FreshPromptGoesTwice`).
* A supervisor drain that throws while another signal came in forgets that signal
  (`ThrowLosesExactly`, `ThrowLosesSignal`).
* The runner puts the reply turn id into a final's transaction id without a bound, and the
  assembler takes 512 bytes. A longer one is rejected whole, each time it is sent
  (`TransactionRoundTrips`), and nothing emitted from there on is ever acted on
  (`UnreadableStallsForever`, `StallsExactly`, `LongIdStalls`).

## Model

| member | source | states |
|---|---|---|
| NativeTurns.FindExactIndexes | botmux/src/codex-app-runner.ts:950-958 | the scan finds every position of the client id's user item, and none in a record without full items |
| NativeTurns.CheckGroup | botmux/src/codex-app-runner.ts:1649-1670 | the in-place check of a group computes the same verdict as the recursive one proved exact below |
| NativeTurns.GroupCheckIsExact | botmux/src/codex-app-runner.ts:1640-1670 | a full record matches a group exactly when each sent id occurs once and the occurrences follow accepted order; the index reported is then the last member's |
| NativeTurns.GroupRefusalIsExact | botmux/src/codex-app-runner.ts:1656-1668 | a refusal names its cause: the first sent id that does not follow those before it in order, and whether it is missing, repeated or out of order |
| NativeTurns.RebuildIsExact | botmux/src/codex-app-runner.ts:967-977 | by position: the rebuilt answer is the text of the last final-answer item after the member's item; without one the record's error, and without that nothing; no other answer qualifies |
| NativeTurns.AnswerIgnoresEarlierItems | botmux/src/codex-app-runner.ts:967-977 | nothing at or before the member's user item can reach the rebuilt answer |
| RunnerIdentity.StepKeepsIdentity | botmux/src/codex-app-runner.ts:1579-1602 | on every step of every run, an open turn's canonical native id is write-once and a settled turn stays settled; only a history settlement re-keys a turn, in the step that completes it |
| RunnerProofs.FirstProofWins | botmux/src/codex-app-runner.ts:1587-1602 | on every step of a turn, an event that claims a native id (an exact turn/started, an exact turn/completed before an authorized start is answered, the root's response) fences exactly if another id was proved before, and otherwise proves it; without a claim only a history settlement re-keys and only an unknown request outcome fences |
| RunnerProofs.ContradictingCompletionIsLetThrough | botmux/src/codex-app-runner.ts:1285-1356 | an exact completion under another id than the proved one that no branch takes as a proof does not fence: a group waits or is looked up, a turn without a group is settled with that answer and under that id |
| RunnerProofs.OtherTurnSettles | botmux/src/codex-app-runner.ts:1350-1353 | a four-event run in which the response proves one native turn and another one's completion settles the input |
| RunnerIdentity.StepRests | botmux/src/codex-app-runner.ts:2238-2276 | once the root's response is accepted no completion stays buffered between events |
| RunnerInvariants.StepSound | botmux/src/codex-app-runner.ts:1831-1947 | every step keeps the reachable-state invariant: conservation, the ordered group's authorization and canonical id, one steer in flight for the queue's head, and a silent fenced generation |
| RunnerInvariants.FinalizeAnswers | botmux/src/codex-app-runner.ts:1966-1992 | a finalized group answers exactly its members, in accepted order |
| RunnerGuarantees.FinalsComeFrom | botmux/src/codex-app-runner.ts:2318-2338 | a step that emits finals is a finished turn's or the catch clause's |
| RunnerGuarantees.FailureFinalAnswersAll | botmux/src/codex-app-runner.ts:2319-2338 | on every run, when the catch clause answers, what is in hand is one input, not begun or a group that is still its root, and the failure final answers exactly it |
| RunnerRuns.NoInputIsLost | botmux/src/codex-app-runner.ts:2296-2358 | on every run without an overlap, the inputs answered, those in hand and those queued are the inputs received, in order; a fenced run has answered a prefix |
| RunnerRuns.FinalsAnswerInOrder | botmux/src/codex-app-runner.ts:1966-1992 | the i-th final answers the i-th input received: each input gets at most one final and none is out of order |
| RunnerRuns.SteeringIsSafe | botmux/src/codex-app-runner.ts:1625-1637 | at every moment of such a run at most one follow-up steer is in flight, it carries the queue's head and targets the canonical id; every group of several has authorized members and a canonical id |
| RunnerEagerness.NoFollowUpWaits | botmux/src/codex-app-runner.ts:1831-1868 | on every run without an overlap: whenever the head may be steered into the open turn it is on its way under the proved native id, unless a history lookup has claimed the turn or its root is known by another id than the proved one |
| RunnerGuarantees.GroupGrowsExactly | botmux/src/codex-app-runner.ts:1915-1937 | a member joins a group exactly by a steer response that echoes the id it was sent to while its input still heads the queue, and it joins at the end |
| RunnerGuarantees.ParkedHeadIsJustified | botmux/src/codex-app-runner.ts:1232-1241 | on every run, overlapped or not: while inputs wait and no drain runs, an unfenced runner has a native turn open that its head may not enter |
| RunnerGuarantees.FreshTurnIsClosed | botmux/src/codex-app-runner.ts:2011-2036 | a turn just begun holds exactly the input in hand, under a new epoch; it enters the native turn open at that moment, and no head may be steered into it before a proof arrives |
| RunnerGuarantees.FencedStep | botmux/src/codex-app-runner.ts:1557-1577 | every step after a fence is silent, and what it leaves in the queue is stated exactly |
| RunnerBarriers.FencedRunnerTakesHead | botmux/src/codex-app-runner.ts:1915-1937 | a run in which a contradicting turn/started fences and the steer then accepted still takes its input off the queue, unanswered |
| RunnerGuarantees.FenceIsAbsorbing | botmux/src/codex-app-runner.ts:1557-1577 | whatever follows a fence, no final is emitted, no turn started, no steer sent and no idle state announced |
| RunnerSettlements.CompletionSettlesExactly | botmux/src/codex-app-runner.ts:1247-1284 | a turn/completed settles an open group in its own step exactly when no follow-up steer and no start response is outstanding and it names the canonical turn; otherwise it is held and steering is closed |
| RunnerBarriers.SteerIsABarrier | botmux/src/codex-app-runner.ts:1266-1283 | while a follow-up steer is out, no event but its own answer settles its turn, short of a fence |
| RunnerBarriers.EarlySettlementIsExact | botmux/src/codex-app-runner.ts:1247-1349 | over all events: an open turn whose root's request is still out is settled exactly by a canonical completion of a Goal root's group, by an exact completion of a turn without a group that is no authorized start, by the answer to the group's own steer when a canonical completion is held (acceptance for a Goal root, definite rejection for any root), or by a group's history scan |
| RunnerBarriers.StartedRootSettlesEarly | botmux/src/codex-app-runner.ts:1881-1912 | a run in which a group of two is settled with its answer while its root's start is unanswered, by the rejection of the third input's steer |
| RunnerBarriers.SettledGroupIsNeverAnswered | botmux/src/codex-app-runner.ts:2101-2128 | an error that then answers the start fences, and whatever follows no final is ever emitted for that group |
| RunnerBarriers.GoalRootSettlesEarly | botmux/src/codex-app-runner.ts:2025-2036 | a run in which a group rooted in a Goal turn settles at its completion while its root's response is still out |
| RunnerSettlements.SettledTextIsExact | botmux/src/codex-app-runner.ts:1672-1708 | the settlement itself: against full items a group's text becomes what the record's items say after its last member (its last final answer there, else its error, else nothing) exactly when the group matches in order, else the explicit identity error, and nothing streamed before it is left |
| RunnerDelivery.SettledTextSurvivesExactly | botmux/src/codex-app-runner.ts:2225-2237 | a turn settled when or before its root is answered still delivers that text after the response exactly if no note held for it overwrites it (by a final-answer item with another text, or by any agent text when there is no final text); an identity error survives exactly if no final-answer item was held |
| RunnerDelivery.DeliveredTextChangesExactly | botmux/src/codex-app-runner.ts:1363-1419 | over all events, what a settled turn will deliver changes exactly by heard text that overwrites it, by the root's response replaying such text, by a root error on which a Goal root starts over, or by a scan that finds its client id repeated |
| RunnerDelivery.SettledTurnLeavesExactly | botmux/src/codex-app-runner.ts:2318-2357 | a settled turn leaves exactly by its finals, or by the failure final of a root that threw |
| RunnerDelivery.SettledAnswerIsDelivered | botmux/src/codex-app-runner.ts:1966-1992 | from settlement to final: if none of those events intervenes, the last member's final says what the turn was settled with, and every other member's is empty and superseded |
| RunnerDelivery.DeliveredIsExact | botmux/src/codex-app-runner.ts:1971-1981 | what a settled turn delivers is its final text, or all agent text if that is empty, with the blanks taken off its ends; its own error texts are not changed |
| RunnerDelivery.GroupFinalIsExact | botmux/src/codex-app-runner.ts:1684-1708 | end to end: the final of a group that its canonical completion settles is the last final answer among the record's items after its last member (else its error, else nothing) exactly when the group matches in order, else the identity error, unless such an event intervenes |
| RunnerAutonomy.AutonomousOutputIsNotPromoted | botmux/src/codex-app-runner.ts:1361-1373 | on every run, overlapped or not: as long as the request of an open turn is unanswered nothing streamed has reached its text, and for a root steered into a Goal turn none of it is even held: the Goal turn's own output is never promoted into the answer |
| RunnerAnswers.OpenRunHears | botmux/src/codex-app-runner.ts:1363-1419 | over every run on which it stays open, whatever responses, lookups, steers and completions occur, the text of an accepted turn is exactly what it heard: the last final answer, and all agent text in order without repeating a streamed item |
| RunnerAnswers.SingleCompletionSettlesExactly | botmux/src/codex-app-runner.ts:1285-1360 | a turn/completed settles an open turn without a group at once exactly if its terminal record holds the client's item once and is no proof, or it is the terminal one of the accepted start itself, or there is no client id to look it up by |
| RunnerAnswers.OwnCompletionIsExact | botmux/src/codex-app-runner.ts:979-994 | the terminal completion of an accepted start, without an exact item, settles it with the text it heard; a native error becomes the text exactly if no final text was heard |
| RunnerAnswers.HeardAnswerIsDelivered | botmux/src/codex-app-runner.ts:979-994 | from acceptance to final: the final of such a turn says the last final answer heard over the run, without one the native error, without that all agent text heard |
| RunnerAnswers.LineIsAnswered | botmux/src/codex-app-runner.ts:1311-1323 | a run in which a plain line is answered with the "hello" that was streamed for it |
| RunnerAnswers.ExactCompletionIsExact | botmux/src/codex-app-runner.ts:1350-1353 | a terminal completion whose record holds the client's item once settles its turn with what the record answers after that item, and nothing streamed is left |
| RunnerAnswers.RecordAnswerIsDelivered | botmux/src/codex-app-runner.ts:979-994 | and so says its final, unless an event that rewrites a settled text intervenes |
| RunnerAnswers.HeldEndSettlesExactly | botmux/src/codex-app-runner.ts:2202-2232 | the response settles an open turn from a completion held for it exactly if that completion is the confirmed turn's, the root is authorized and the turn a group or exactly proved, and no steer is out; from a full record its text is then exact for that record and the sent ids |
| RunnerAnswers.BufferedAnswerIsDelivered | botmux/src/codex-app-runner.ts:2233-2262 | a start whose own completion came before its response is settled by that response, and its final says the last final answer that was held for it, else the completion's error, else the held agent text |
| RunnerAnswers.BufferedRecordIsDelivered | botmux/src/codex-app-runner.ts:2238-2254 | a turn whose own record came before its response is settled by that response, and its final says what the record answers after the client's item |
| RunnerAnswers.HeardGroupAnswerIsDelivered | botmux/src/codex-app-runner.ts:1684-1708 | the final of a group that its canonical completion settles without items says what the turn heard since acceptance; the completion's own error never reaches it |
| RunnerAnswers.GroupErrorIsLost | botmux/src/codex-app-runner.ts:1640-1650 | a run in which a steered pair whose native turn fails with an error and no items is answered with an empty final |
| RunnerReplacements.DraftReplacesAnswer | botmux/src/codex-app-runner.ts:2225-2237 | a run whose record says "done" and whose only final says "draft", streamed before the response |
| RunnerReplacements.DraftReplacesIdentityError | botmux/src/codex-app-runner.ts:1675-1682 | a run in which a group's identity error is set and then replaced by streamed text, which its last final delivers |
| RunnerReplacements.RestartLosesAnswer | botmux/src/codex-app-runner.ts:2077-2100 | a run in which a settled Goal root is submitted again as a turn of its own and its final is empty |
| RunnerReplacements.RefusalReplacesAnswer | botmux/src/codex-app-runner.ts:2129-2141 | a run in which an input is settled with its answer, its start is then refused, and its only final is the failure |
| RunnerSettlements.MatchesAreFullMatches | botmux/src/codex-app-runner.ts:1745-1753 | the lookup collects one match exactly when exactly one terminal record holds the full ordered group |
| RunnerSettlements.HistorySettlesOnUniqueMatch | botmux/src/codex-app-runner.ts:1757-1789 | a history lookup settles a group on a unique full match only, with that record's answer and under its id; none or several give the identity error |
| RunnerSettlements.SingleLookupIsExact | botmux/src/codex-app-runner.ts:1056-1141 | a single root's scan settles with the answer of the only terminal record holding the client's item once, waits exactly for a turn still running within its deadline that no record holds, and is the identity error otherwise |
| RunnerProofs.ForeignCompletionsSettleExactly | botmux/src/codex-app-runner.ts:2238-2276 | completions of other turns buffered before the root's response leave the accepted turn pending under a lookup exactly if its input has a client id, and settle it as an identity error otherwise |
| RunnerProofs.StaleCompletionSettlesLine | botmux/src/codex-app-runner.ts:1029-1034 | a four-event run in which a late completion of another turn settles a plain line whose own native turn has just been accepted |
| RunnerSettlements.GroupYieldsItsFinals | botmux/src/codex-app-runner.ts:1949-1992 | a settled group of N yields exactly N finals in accepted order: N - 1 empty, superseded and without usage, then the one that carries the answer and drains the usage |
| RunnerSettlements.UsageIsLastReading | botmux/src/codex-app-runner.ts:1148-1174 | a final's usage is the last reading of its native turn, and none once any reading was malformed; no other turn's usage is touched |
| Prelude.TrimIsExact | botmux/src/codex-app-runner.ts:1966-1981 | trimming a text takes the blanks off both its ends, all of them, and nothing else |
| RunnerSettlements.IdleIsAnnouncedTruthfully | botmux/src/codex-app-runner.ts:823-842 | an idle state is announced only by the settle timer, and only when no drain runs, nothing is queued and no native turn is open |
| RunnerSlot.StartOpensSlot | botmux/src/codex-app-runner.ts:1177-1181 | a turn/started opens the native slot for the turn it names, whatever was open; a replayed one opens it only if no turn is open |
| RunnerSlot.EndFreesSlot | botmux/src/codex-app-runner.ts:1228-1241 | a turn/completed never leaves the slot with the turn it names and opens it for no other; without a tracked turn it frees exactly that turn |
| RunnerSlot.ScanFreesSlot | botmux/src/codex-app-runner.ts:1757-1789 | a history lookup that settles its turn, by a match or by the identity error, frees the slot of the turn it settles it under, if the records name their turns |
| RunnerSlot.ResponseReopensExactly | botmux/src/codex-app-runner.ts:2187-2237 | when the response settles its turn or finds it settled, the replay opens the slot again exactly if a turn/started of that turn was held and no other turn is open |
| RunnerSlot.EndedTurnParksLine | botmux/src/codex-app-runner.ts:2233-2237 | a run from the initial state in which a fully answered turn is reopened so; the next plain line is parked over every continuation without native work of the app-server's own |
| RunnerSlot.SteerIntoEndedTurnFences | botmux/src/codex-app-runner.ts:2077-2128 | an authorized input that is then steered into the ended turn is refused as inactive, and the refusal fences because the slot is still open |
| RunnerIdle.StepAnnouncesExactly | botmux/src/codex-app-runner.ts:823-842 | over all events without an overlap: at rest the idle state stays announced, or the timer that announces it set, exactly unless the event is a turn/started without an id |
| RunnerIdle.RestIsAnnounced | botmux/src/codex-app-runner.ts:823-842 | on every run without such an event, a runner at rest has announced itself idle or its settle timer is set, and the firing announces it |
| RunnerIdle.NamelessStartLeavesBusy | botmux/src/codex-app-runner.ts:1218-1225 | one turn/started without an id leaves a resting runner reported busy, with no timer set |
| RunnerGoalEntry.GoalEntryIsExact | botmux/src/codex-app-runner.ts:2306-2315 | on every run, no unauthorized input ever enters a Goal turn exactly if no native turn is open at a moment when the thread becomes ready for one |
| RunnerGoalEntry.OnlyGapsLetIn | botmux/src/codex-app-runner.ts:2306-2315 | that is so on every run in which no native turn starts while an input waits for its thread: the gate closes every other way in |
| RunnerGoalEntry.GapEntersExactly | botmux/src/codex-app-runner.ts:1995-2011 | an unauthorized input leaving that wait is steered into a Goal turn exactly when a native turn is open then |
| RunnerGoalEntry.GapLetsPlainLineIn | botmux/src/codex-app-runner.ts:1995-2011 | a three-event run from the initial state steers a plain line into a Goal turn |
| RunnerShortfalls.OverlapLosesAnInput | botmux/src/codex-app-runner.ts:2279-2281 | a run from the initial state, unfenced throughout, in which a steer admitted over a history lookup loses the second input |
| RunnerShortfalls.AdmissionOverLookupBreaks | botmux/src/codex-app-runner.ts:1198-1203 | any admission while a history lookup is under way can be continued to a lost input |
| RunnerShortfalls.AdmissionOverPendingsBreaks | botmux/src/codex-app-runner.ts:2238-2276 | any admission while completions are buffered that some accepted response lets settle the turn can be continued to a lost input |
| RunnerShortfalls.IdleExactlySettleNothing | botmux/src/codex-app-runner.ts:2238-2276 | which buffered completions leave an open turn alone, exactly; admissions over those are proved safe with all others |
| RunnerShortfalls.AdmissionAfterThrowBreaks | botmux/src/codex-app-runner.ts:2319-2338 | any admission after runTurn threw can be continued to a final emitted after the fence |
| RunnerShortfalls.MissingGuardIsNecessary | botmux/src/codex-app-runner.ts:2279-2281 | from every reachable-invariant state, every admission that counts as an overlap has a continuation that breaks conservation or the fence; without one all runs keep both |
| RunnerDispatch.RootIsNamed | botmux/src/codex-app-runner.ts:1994-2036 | a root is sent under its reply id exactly if it is structured, the structured form is not disabled, the codex takes client ids and there is a reply id, else under its sidecar's id, and a plain input under none; its turn and group begin with that one dispatch |
| RunnerDispatch.SteerIsNamed | botmux/src/codex-app-runner.ts:1831-1868 | over all events: whatever admits a follow-up, the steer that goes out carries the id its input is to be sent under at that moment |
| RunnerDispatch.MembersAreNamed | botmux/src/codex-app-runner.ts:1838-1850 | on every run, overlapped or not, every member of a group was sent under the id its input was to be sent under |
| RunnerDispatch.GroupSendsReplyIds | botmux/src/codex-app-runner.ts:1640-1656 | on every run on a codex that takes client ids with the structured form enabled, the ids by which a group of structured inputs is attributed are their reply ids, all of them, in order |
| RunnerDispatch.RefusedRootIsExact | botmux/src/codex-app-runner.ts:2077-2156 | a root whose request fails is sent again exactly if its Goal turn is gone or its structured form was refused, each at most once; it is reported failed exactly on an app-server answer with nothing to show that it may have run; otherwise it fences |
| RunnerDispatch.ResentRootIsPlain | botmux/src/codex-app-runner.ts:2077-2128 | a root is sent again as a turn of its own with nothing kept of the Goal turn, or in the plain form that all later inputs then take |
| RunnerDriver.ActiveTurn.ProveCanonicalExact | botmux/src/codex-app-runner.ts:1587-1602 | the first exact proof binds the canonical id, the same id again is idempotent, another id is refused |
| RunnerDriver.Runner.FenceUnknown | botmux/src/codex-app-runner.ts:1566-1577 | fencing is once only, marks the turn it was given even if that is no longer the active one, and settles it |
| RunnerDriver.Runner.ReportIdentityConflict | botmux/src/codex-app-runner.ts:996-1022 | the in-place conflict report has exactly the specified effect: one error text, the turn settled, its native slot cleared |
| RunnerDriver.Runner.CompleteFromNative | botmux/src/codex-app-runner.ts:979-994 | single-turn settlement in place equals its specification on every record; what it then delivers is stated in RunnerAnswers |
| RunnerDriver.Runner.SettleSteeredCompletion | botmux/src/codex-app-runner.ts:1684-1708 | group settlement in place, with its verification loop, equals its specification |
| RunnerDriver.Runner.ReconcileCompletedTurn | botmux/src/codex-app-runner.ts:1024-1054 | a single lookup begins at most once for a turn, and fails closed without a client id |
| RunnerDriver.Runner.SingleScanned | botmux/src/codex-app-runner.ts:1057-1141 | one scan and its verdict in place, early stop on a repeated id included, equal their specification |
| RunnerDriver.Runner.GroupScanned | botmux/src/codex-app-runner.ts:1733-1795 | the group lookup's loop and its verdict in place equal their specification |
| RunnerDriver.Runner.ResumeBufferedGroup | botmux/src/codex-app-runner.ts:1802-1819 | reports whether a held completion was taken up, and then settles from it or looks it up |
| RunnerDriver.Runner.TryAdmitSteer | botmux/src/codex-app-runner.ts:1831-1868 | admits the head exactly when steering is permitted, and changes nothing else; the id it is sent under is stated by SteerIsNamed |
| RunnerDriver.Runner.SteerResponse | botmux/src/codex-app-runner.ts:1915-1947 | an accepted steer appends to the turn object it was sent for, active or not, and takes the head; a mismatch fences |
| RunnerDriver.Runner.SteerError | botmux/src/codex-app-runner.ts:1879-1914 | a definite rejection closes steering and releases a held completion; any other failure fences |
| RunnerDriver.Runner.HandleStarted | botmux/src/codex-app-runner.ts:1177-1226 | turn/started in place: proof, buffering or Goal work, as specified |
| RunnerDriver.Runner.HandleCompleted | botmux/src/codex-app-runner.ts:1228-1360 | turn/completed in place: group routing, proof upgrade, buffering, settlement or lookup, as specified |
| RunnerDriver.Runner.BeginTurn | botmux/src/codex-app-runner.ts:1994-2041 | the root's turn is a new object with a new epoch, so a continuation of an older turn can never take it for its own; the id it is sent under is stated by RootIsNamed |
| RunnerDriver.Runner.RootResponse | botmux/src/codex-app-runner.ts:2158-2281 | the accepted response in place — bindings, held completion, replay, buffered completions, kick — equals its specification |
| RunnerDriver.Runner.RootError | botmux/src/codex-app-runner.ts:2077-2156 | fallback, capability retry, fence or failure, as specified |
| RunnerDriver.Runner.EmitFinal | botmux/src/codex-app-runner.ts:665-689 | only a real final reads and deletes its native turn's usage |
| RunnerDriver.Runner.FinalizeAcceptedGroup | botmux/src/codex-app-runner.ts:1966-1992 | the expansion loop emits the specified finals, and none for a fenced turn |
| RunnerDriver.Runner.DrainResumed | botmux/src/codex-app-runner.ts:2319-2357 | the drain loop's catch, settle and next head in place equal their specification |
| RunnerDriver.Runner.Handle | botmux/src/codex-app-runner.ts:1143-1420 | every event handled in place, turn object and all, does what the state machine does: the theorems about runs hold of the class |
| FinalChunks.CutFinal | botmux/src/codex-app-runner.ts:705-734 | the emitting loop produces exactly the transaction proved to round-trip |
| FinalChunks.ContentFits | botmux/src/codex-app-runner.ts:705-713 | an answer within the limit is unchanged; a longer one keeps its beginning, ends in the notice and fits thanks to the reserve |
| FinalChunks.TransactionRoundTrips | botmux/src/codex-app-runner.ts:715-734 | cut and reassembled after any complete log, a final is never rejected, delivers nothing early, and then exactly its content once, if and only if its transaction id fits the assembler's bound; otherwise it delivers nothing |
| FinalChunks.CompletesExactly | botmux/src/utils/codex-app-control.ts:2947-3015 | over every sequence of records, well formed or not: a final is delivered exactly by an uninterrupted transaction of a start, the announced number of fitting fragments in order and the end, all under one id that fits, beginning with nothing open; its content is those fragments joined |
| FinalChunks.SinglesAreNotInterleaved | botmux/src/utils/codex-app-control.ts:2947-2956 | any other record is handled exactly if no transaction is open, and refused inside one |
| FinalChunks.TransactionIsBounded | botmux/src/codex-app-runner.ts:715-734 | the number of fragments is the announced ceiling, every fragment is non-empty and fits, and a whole final fits the assembler's and the queue's bounds |
| FinalChunks.Appended | botmux/src/utils/codex-app-control.ts:2947-3027 | one more record advances the assembler and its deliveries by that record's outcome |
| ControlChannel.ControlSender.FlushControlQueue | botmux/src/codex-app-runner.ts:537-560 | the loop writes exactly the records past the send mark and advances the mark to the last of them |
| ControlChannel.ControlSender.EmitMarker | botmux/src/codex-app-runner.ts:654-663 | a record is numbered, queued and flushed, or the channel fails closed at its bound |
| ControlChannel.ControlSender.ConnectControlSocket | botmux/src/codex-app-runner.ts:572-597 | a new socket starts from the last acknowledgement |
| ControlChannel.ControlSender.OnAck | botmux/src/codex-app-runner.ts:632-635 | a cumulative acknowledgement drops exactly the records it covers; one out of range closes the link |
| ControlChannel.AcknowledgementIsExact | botmux/src/codex-app-runner.ts:632-638 | whatever number is acknowledged: one in range moves the mark up, never back, and exactly the records past it stay queued; zero or a number never sent ends the link and drops nothing |
| ControlChannel.ArrivalIsContiguous | botmux/src/utils/codex-app-control.ts:2907-2922 | every record that reaches the worker is the next of the emitted log, so the sequence fence never refuses one |
| ControlChannel.AckIsInRange | botmux/src/utils/codex-app-control.ts:2846-2853 | the runner never meets an acknowledgement beyond what it has sent |
| ControlChannel.StepSound | botmux/src/codex-app-runner.ts:514-663 | every emission, delivery, application, acknowledgement, loss and reconnect keeps the channel's invariant, also when a connection is replaced during an application and whatever ids the finals have |
| ControlChannel.DeliveredOnceInOrder | botmux/src/codex-app-runner.ts:594-635 | on every run the queue is the contiguous unacknowledged rest and the acked, applied and sent marks are ordered; the worker has acted on an exact prefix of what the runner said, once each and in order, which never goes past the first final it cannot read |
| ControlChannel.QuietMeansComplete | botmux/src/codex-app-runner.ts:594-635 | on every run: when an accepted connection has nothing left to read, every final was readable, everything the runner said has been acted on, every final with its whole content, and all of it is acknowledged, so that nothing waits in the queue |
| ControlChannel.UnreadableStallsForever | botmux/src/utils/codex-app-control.ts:2950-2964 | once a final whose id does not fit is emitted, the worker never acts on it or on anything after it, whatever reconnects and resends follow |
| ControlStall.CatchesUp | botmux/src/codex-app-runner.ts:572-597 | from every state of a live channel a reconnect leads, without a word from the runner, to a state in which the worker has acted on everything readable |
| ControlStall.StallsExactly | botmux/src/utils/codex-app-control.ts:2950-2964 | on every run of a live channel, everything emitted can still be delivered exactly if no final had an id that does not fit |
| ControlStall.LongIdStalls | botmux/src/codex-app-runner.ts:716-726 | a final with an id of 513 bytes after which nothing is ever acted on |
| LineFraming.LinesAreTheSplit | botmux/src/codex-app-runner.ts:448-471 | whatever way a stream splits into newline-ended lines, the dispatches are its non-blank trimmed lines in order |
| LineFraming.DispatchIsExact | botmux/src/codex-app-runner.ts:448-471 | an all-blank line dispatches nothing, any other line what is between its blank ends |
| LineFraming.AppServerFraming.OnStdout | botmux/src/codex-app-runner.ts:448-471 | a chunk is appended, and starts a drain only if none is under way |
| LineFraming.AppServerFraming.RunMicrotask | botmux/src/codex-app-runner.ts:452-469 | one microtask dispatches at most one line and schedules the next |
| LineFraming.FramingIsChunkIndependent | botmux/src/codex-app-runner.ts:432-471 | for every chunking and every interleaving with microtasks, at most one step waits, the dispatches are a prefix of the stream's lines, and all of them once no step waits |
| LineFraming.DrainTerminates | botmux/src/codex-app-runner.ts:452-469 | microtasks alone bring every drain to rest |
| LineFraming.DshFraming.HandleStdout | botmux/src/dsh-runner.ts:542-571 | one chunk dispatches exactly the complete lines of what was buffered and received, and keeps the rest |
| LineFraming.HandleAll | botmux/src/dsh-runner.ts:542-571 | chunk by chunk the dispatched lines are those of the whole stream |
| RpcLedger.RpcEngine.EmitTurnTerminal | botmux/src/codex-rpc-engine.ts:220-256 | a terminal is called back once, deferred if unowned, ignored if retired, with both memories bounded |
| RpcLedger.TerminalIsExact | botmux/src/codex-rpc-engine.ts:220-256 | a terminal reaches the owner of its turn with its own outcome and retires the turn; without an owner nobody is called, and the first terminal of a turn not seen to end is kept for its binding |
| RpcLedger.RpcEngine.BindNativeTurn | botmux/src/codex-rpc-engine.ts:193-218 | refuses a native turn or an attempt bound to another, and otherwise binds and replays an early terminal |
| RpcLedger.RpcEngine.OnMessageResponse | botmux/src/codex-rpc-engine.ts:732-750 | the response in place equals its specification; when it fails the engine is stated by ResponseVerdict |
| RpcLedger.ResponseVerdict | botmux/src/codex-rpc-engine.ts:186-204 | a turn/start response kills the engine exactly if it names no native turn, one that another attempt owns, or its attempt already holds another; otherwise the attempt holds the native turn named and nothing else changes hands |
| RpcLedger.EngineDiesExactly | botmux/src/codex-rpc-engine.ts:820-835 | over all events: a live engine dies exactly by a lost transport, a fatal timeout or such a response; then nothing is pending or owned and every owner, and nobody else, is told it died |
| RpcLedger.OneTurnPending | botmux/src/codex-rpc-engine.ts:640-642 | on every run at most one turn/start is pending |
| RpcLedger.SendIsExact | botmux/src/codex-rpc-engine.ts:633-675 | a request becomes pending, under an id never used, exactly if its frame is written and it is no second turn/start; nothing else changes |
| RpcLedger.RpcEngine.StopEngine | botmux/src/codex-rpc-engine.ts:514-533 | stopping emits for every owned turn before it fails the pending requests |
| RpcLedger.BindSound | botmux/src/codex-rpc-engine.ts:193-218 | a fresh binding keeps the ledger's invariant, and an early terminal still remembered is delivered in the same step with its own outcome |
| RpcLedger.RebindingIsHarmless | botmux/src/codex-rpc-engine.ts:186-211 | a response that repeats a binding changes nothing while the turn runs, and does not bring back a turn that has ended |
| RpcLedger.AtMostOneCallback | botmux/src/codex-rpc-engine.ts:220-256 | on every run with fresh response ids, whatever the bounded memories forgot, a native turn gets at most one callback, always under the identity it was bound to |
| RpcLedger.StopSettlesEveryTurn | botmux/src/codex-rpc-engine.ts:258-266 | once stopped, every native turn ever bound has had exactly that callback |
| RpcLedger.TeardownReportsOwners | botmux/src/codex-rpc-engine.ts:258-266 | whoever still owns a native turn when the engine dies or stops is told which of the two it was, under its own identity |
| RpcLedger.StoppedIsSilent | botmux/src/codex-rpc-engine.ts:514-533 | nothing a stopped engine still hears is called back or bound |
| RpcLedger.ForgottenTurnIsCalledTwice | botmux/src/codex-rpc-engine.ts:206-212 | what freshness is needed for: a repeated binding of a turn already called back leads to a second callback exactly when the turn has been forgotten |
| FirstPrompt.SessionInit.SendFirstTurn | botmux/src/codex-rpc-engine.ts:465-512 | only a frame that never left is reported as safe to paste; an unanswered one is accepted on evidence and ambiguous otherwise |
| FirstPrompt.SessionInit.EngageCodexRpc | botmux/src/codex-rpc-lifecycle.ts:187-197 | the engagement's outcome, and whether the frame left, for every fate of its stages |
| FirstPrompt.SessionInit.KillAndVerifyPane | botmux/src/codex-rpc-lifecycle.ts:349-363 | reports the pane gone exactly when one of the first five probes said so; an unanswered probe is never proof |
| FirstPrompt.SessionInit.Orchestrate | botmux/src/codex-rpc-lifecycle.ts:271-325 | the decision for every configuration, pane and outcome, with the engine active exactly when engaged |
| FirstPrompt.DecisionIsExact | botmux/src/codex-rpc-lifecycle.ts:271-325 | the init gives up exactly if its engagement was interrupted or a stale viewer pane was not verified gone; otherwise the engine is kept exactly if it is up and a fresh prompt left as a frame |
| FirstPrompt.OutcomeIsHonest | botmux/src/codex-rpc-engine.ts:465-512 | a fresh prompt is reported accepted exactly on an answer or on rollout evidence, ambiguous exactly if it left without either, and not sent exactly if it never left |
| FirstPrompt.SessionInit.Init | botmux/src/codex-rpc-lifecycle.ts:234-245 | the whole init submits exactly what the lemmas below count |
| FirstPrompt.SubmittedTwiceExactly | botmux/src/codex-rpc-lifecycle.ts:302-319 | the first prompt is submitted twice exactly when a fresh session finds a surviving viewer pane, its frame leaves and the pane is then replaced; never more often |
| FirstPrompt.FreshPromptGoesTwice | botmux/src/codex-rpc-lifecycle.ts:302-319 | a fresh session and a surviving viewer pane for which the prompt leaves as a frame and is queued as well |
| FirstPrompt.SubmittedAtMostOnce | botmux/src/codex-rpc-lifecycle.ts:234-245 | for every resume, and every session without such a pane, at most once over all routes |
| FirstPrompt.UndispatchedGoesOutOnce | botmux/src/codex-rpc-lifecycle.ts:234-245 | a prompt whose frame never left goes out exactly once by queue or argument list, unless the init itself gives up |
| FirstPrompt.DispatchedIsNeverResent | botmux/src/codex-rpc-lifecycle.ts:286-300 | once the frame has left, whatever came back, nothing else is submitted |
| FirstPrompt.PasteMeansNoFrame | botmux/src/codex-rpc-lifecycle.ts:286-300 | the paste route is taken only if no frame left |
| FirstPrompt.RpcEngagementFence.BeginEngagement | botmux/src/codex-rpc-lifecycle.ts:65-69 | every engagement starts with a lease of its own that is live |
| FirstPrompt.LeaseLivesExactly | botmux/src/codex-rpc-lifecycle.ts:57-92 | a lease may publish exactly as long as nothing superseded it and its own engine was not reported dead; late reports about others neither harm nor revive it |
| ProcessTree.ExpandLevel | botmux/src/codex-rpc-lifecycle.ts:400-420 | one level either finds a viewer in reach or sees everything queued for it and queues all their children |
| ProcessTree.PaneRunsRemoteTui | botmux/src/codex-rpc-lifecycle.ts:383-424 | in any process graph, cyclic or not, the search succeeds exactly when an expected executable with the remote flag lies within four child links of the pane |
| DshTurn.DshRunner.HandleNotification | botmux/src/dsh-runner.ts:712-734 | a notification in place is ignored, buffered or processed as specified; the outcome is stated by OutcomeIsExact |
| DshTurn.DshRunner.TryClaimReceipt | botmux/src/dsh-runner.ts:635-644 | the first buffered receipt is claimed and only what follows it is replayed |
| DshTurn.DshRunner.HandleAck | botmux/src/dsh-runner.ts:774-789 | the acknowledgement names the message of the active turn and claims what is buffered |
| DshTurn.AckPlacementDoesNotMatter | botmux/src/dsh-runner.ts:624-727 | wherever the acknowledgement falls among the notifications, the outcome and the moment it is reached are those of the offline reading of the whole stream |
| DshTurn.SettledMeansReceiptThenIdle | botmux/src/dsh-runner.ts:697-727 | a turn settles exactly if an idle of its session follows a receipt of its message: a stale idle never does it |
| DshTurn.OutcomeIsExact | botmux/src/dsh-runner.ts:646-727 | by position, wherever the acknowledgement falls: the outcome has the text of the last assistant message between the first receipt and the first idle after it, the last failure there, and the usage of all model calls there, field by field |
| DshTurn.JoinedIsConcatenation | botmux/src/dsh-runner.ts:672-684 | the text of a message is that of its text blocks, one after the other, with nothing between |
| DshTurn.UsageIsSummed | botmux/src/dsh-runner.ts:441-466 | the usage of a settled turn is the sum over its model calls up to the first idle, from whatever was heard before |
| ProfileSelection.SelectProfiles | botmux/src/bot-registry.ts:823-870 | the selection loop with its maps computes the specified problems and profiles |
| ProfileSelection.CheckCatalog | botmux/src/bot-registry.ts:785-813 | the catalog loop computes the specified lookup table and problems |
| ProfileSelection.ResolveProfiles | botmux/src/bot-registry.ts:770-875 | resolution succeeds exactly on acceptable input and lists the selected profiles in requested order |
| ProfileSelection.ResolvesExactly | botmux/src/bot-registry.ts:770-875 | sound and complete: accepted exactly when the catalog is well formed, every default and selected id exists, and the selection repeats no id, agent, owned sink or listener thread and is not an empty agents default |
| ProfileSelection.EveryProblemIsReal | botmux/src/bot-registry.ts:785-870 | a refusal names real problems only: each entry of the error list holds of the catalog, the defaults and the selection |
| ProfileSelection.EveryProblemIsListed | botmux/src/bot-registry.ts:785-870 | and it leaves none out: every defect of the catalog, the defaults and the selected ids is listed, and whenever two selected profiles share an agent, a sink or the listener thread, the later one is reported for it |
| SupervisorDrain.Supervisor.DrainLoop | botmux/src/index-supervisor.ts:103-114 | the do-while loop reads the queue once and suspends exactly if it found commands |
| SupervisorDrain.Supervisor.OnSighup | botmux/src/index-supervisor.ts:99-116 | a signal starts a drain, is remembered by the one under way, or is ignored after shutdown |
| SupervisorDrain.EverySignalIsRead | botmux/src/index-supervisor.ts:92-116 | drains never overlap, commands are handed over once and in order, and whenever no drain is under way every signal heard has been followed by a read that took what it announced |
| SupervisorDrain.ResumedDrainReads | botmux/src/index-supervisor.ts:104-111 | a signal heard during a drain is served as soon as that drain resumes |
| SupervisorDrain.ThrowLosesExactly | botmux/src/index-supervisor.ts:112-114 | a drain that throws loses a signal exactly if one came in while it ran |
| SupervisorDrain.ThrowLosesSignal | botmux/src/index-supervisor.ts:103-114 | a five-event run in which the second signal's command is left unread with no drain under way |

## Left out

- Sockets, child processes, pid files, signals, readiness probes and the filesystem: they appear as events whose time and answer are arbitrary.
- Signatures, challenges, locators, base64 and JSON parsing: records are taken as well formed and encodings as injective.
- Ids of native turns, clients and items are tokens; text is a sequence of characters and trimming removes ASCII white space.
- Error texts are datatype values that name the branch they come from; their wording is not modelled.
- A history lookup is one event carrying all records its pages returned, or a failure; a turn settled between two pages is seen at the end of the scan.
- The keep-pending deadline is the flag `expired` of a scan; its reset by progress needs no state.
- RPC errors carry how their text classifies (definite rejection, inactive turn, missing capability); the classifying expressions are not modelled.
- The runner is modelled from the moment it is ready; codex version detection is a configuration value, and a structured input that cannot be built is not modelled.
- Input lines are modelled once decoded and found not blank; a line that fails to decode changes nothing.
- The usage accumulator of a native turn is its last reading, or poisoned; its baseline arithmetic and the limit of eight accumulators are not modelled.
- Activity, lifecycle, diagnostic and thread markers and all terminal output of the runner.
- A steer admission is recorded as an overlap by a history variable; the program has no such variable.
- The worker's durable commit record across a worker restart, and the switch between generations of the channel.
- The bounded line decoder of the control channel and its handshake phases before acceptance.
- The RPC engine's requests other than turn/start appear only as pending requests without an identity; a callback does not re-enter the engine.
- The engagement's local bookkeeping after the frame has left (bridge marks, persisted session id) is assumed not to throw: an exception there would reach the paste route.
- RPC-capable adapters are assumed not to take the prompt as an argument, as the Codex and TraeX adapters do not.
- The launcher shapes that place an executable in an argument list are part of a probed process here.
- A dsh turn that times out or whose prompt is rejected ends without an outcome and is not modelled further; the tool names kept for display are left out.
- The other normalizers of the profile configuration, autostart, environment scrubbing, the fleet supervisor's own spawning and the dashboard: they would add only easy members.
