/** How groups settle: when a completion closes one, which text it delivers, and its finals. */
module RunnerSettlements {
  import opened Prelude
  import opened NativeTurns
  import opened RunnerTypes
  import opened RunnerSteps
  import opened RunnerIdentity
  import opened RunnerInvariants
  import opened RunnerRuns

  // ---- When a completion settles a group ---------------------------------------------

  lemma SettleSteeredCompletes(s: State, rec: NativeTurn)
    requires s.turn.Some? && (s.turn.value.conflictReported ==> s.turn.value.completed)
    ensures var s' := SettleSteered(s, rec);
            && s'.turn.Some? && s'.turn.value.completed
            && s'.turn.value.steeringClosed == s.turn.value.steeringClosed
            && s'.turn.value.completionSeen == s.turn.value.completionSeen
            && (s.turn.value.terminal.Some? ==> s'.turn.value.terminal.Some?)
  {
    if VerifyGroup(rec, SentIds(s.turn.value.accepted)).Refused? {
      assert !s.turn.value.completed ==>
          SettleSteered(s, rec) == ReportConflict(s, VerifyGroup(rec, SentIds(s.turn.value.accepted)).reason);
    }
  }

  lemma GroupLookupHolds(s: State)
    requires s.turn.Some? && !s.turn.value.completed
    ensures var s' := StartGroupLookup(s);
            && s'.turn.Some? && !s'.turn.value.completed
            && s'.turn.value.steeringClosed == s.turn.value.steeringClosed
            && s'.turn.value.completionSeen == s.turn.value.completionSeen
            && s'.turn.value.terminal == s.turn.value.terminal
  {}

  lemma GroupCompletionSettles(s: State, id: Option<Id>, rec: NativeTurn)
    requires s.turn.Some? && !s.turn.value.completed && !s.turn.value.conflictReported
    ensures var s' := OnGroupCompleted(s, s.turn.value, id, rec);
            var t := s.turn.value;
            && s'.turn.Some?
            && (s'.turn.value.completed <==>
                !Steering(s, t) && !t.startPending && t.canonical.Some? && id == t.canonical)
            && s'.turn.value.steeringClosed && s'.turn.value.completionSeen
            && s'.turn.value.terminal.Some?
  {
    var t := s.turn.value;
    var s2 := With(s, HoldCompletion(t, id, rec));
    if !Steering(s, t) && !t.startPending {
      if t.canonical.Some? && id == t.canonical {
        SettleSteeredCompletes(s2, rec);
      } else {
        GroupLookupHolds(s2);
      }
    }
  }

  lemma GroupCompletionIsRouted(s: State, turnParam: Option<Id>, rec: NativeTurn)
    requires s.turn.Some? && InGroupMode(s, s.turn.value)
    ensures var id := NoteId(turnParam, rec);
            Step(s, Notify(Completed(turnParam, rec))) == OnGroupCompleted(ClearNative(s, id), s.turn.value, id, rec)
  {}

  /** A completion settles an open group at once just when no follow-up steer and no start
      response is outstanding and it names the canonical turn. Any other completion is
      held, or sent to the history lookup, and leaves the group open. */
  lemma CompletionSettlesExactly(s: State, turnParam: Option<Id>, rec: NativeTurn)
    requires Identified(s) && s.turn.Some? && !s.turn.value.completed && InGroupMode(s, s.turn.value)
    ensures var s' := Step(s, Notify(Completed(turnParam, rec)));
            var t := s.turn.value;
            && s'.turn.Some?
            && (s'.turn.value.completed <==>
                !Steering(s, t) && !t.startPending && t.canonical.Some? && NoteId(turnParam, rec) == t.canonical)
            && s'.turn.value.steeringClosed && s'.turn.value.completionSeen
            && s'.turn.value.terminal.Some?
  {
    var id := NoteId(turnParam, rec);
    GroupCompletionIsRouted(s, turnParam, rec);
    var s1 := ClearNative(s, id);
    assert s1 == s.(nativeActive := s1.nativeActive);
    GroupCompletionSettles(s1, id, rec);
  }

  // ---- Which text a group delivers -----------------------------------------------------

  /** Against a full record, a group with sent ids gets the answer found after its last
      member exactly when each id occurs once and in accepted order; otherwise it gets
      the explicit identity error. Of the text streamed so far nothing survives; what is heard
      afterwards may still replace it (RunnerDelivery). */
  lemma SettledTextIsExact(s: State, rec: NativeTurn)
    requires s.turn.Some? && !s.turn.value.completed && !s.turn.value.conflictReported
    requires rec.full && SentIds(s.turn.value.accepted) != []
    ensures var ids := SentIds(s.turn.value.accepted);
            var t' := SettleSteered(s, rec).turn.value;
            && t'.completed && t'.allAgentText == ""
            && (t'.finalText.IdentityConflict? <==> !exists at :: InOrder(rec.items, ids, at))
            && forall at | InOrder(rec.items, ids, at) :: AnswersAfter(rec, at[|at| - 1], t'.finalText)
  {
    hide VerifyFrom, Rebuild, AnswersAfter;
    var ids := SentIds(s.turn.value.accepted);
    GroupCheckIsExact(rec, ids);
    var t' := SettleSteered(s, rec).turn.value;
    forall at | InOrder(rec.items, ids, at) ensures AnswersAfter(rec, at[|at| - 1], t'.finalText) {
      RebuildIsExact(rec, at[|at| - 1]);
    }
    if t'.finalText.IdentityConflict? && exists at :: InOrder(rec.items, ids, at) {
      var at :| InOrder(rec.items, ids, at);
      RebuiltIsNoConflict(rec, at[|at| - 1]);
    }
  }

  lemma RebuiltIsNoConflict(rec: NativeTurn, index: nat)
    ensures !Rebuild(rec, index).IdentityConflict?
  {
    hide LastFinalAnswer;
  }

  /** The record is terminal and holds the full ordered group. */
  ghost predicate FullMatch(rec: NativeTurn, ids: seq<Id>) {
    rec.terminal && rec.full && ids != [] && exists at :: InOrder(rec.items, ids, at)
  }

  function LastMemberIndex(rec: NativeTurn, ids: seq<Id>): nat {
    var verdict := VerifyGroup(rec, ids);
    if verdict.Matched? && verdict.lastIndex >= 0 then verdict.lastIndex else 0
  }

  lemma FullMatchIsVerified(rec: NativeTurn, ids: seq<Id>)
    ensures FullMatch(rec, ids)
       <==> rec.terminal && VerifyGroup(rec, ids).Matched? && VerifyGroup(rec, ids).lastIndex >= 0
  {
    if rec.full && ids != [] { GroupCheckIsExact(rec, ids); }
  }

  lemma {:induction false} MatchesAreFullMatches(candidates: seq<NativeTurn>, ids: seq<Id>)
    ensures (forall i | 0 <= i < |candidates| :: !FullMatch(candidates[i], ids)) <==> GroupMatches(candidates, ids) == []
    ensures |GroupMatches(candidates, ids)| == 1
       <==> exists i :: 0 <= i < |candidates| && OnlyFullMatch(candidates, ids, i)
    ensures forall i | 0 <= i < |candidates| && OnlyFullMatch(candidates, ids, i) ::
              GroupMatches(candidates, ids) == [(candidates[i], LastMemberIndex(candidates[i], ids))]
    decreases |candidates|
  {
    hide FullMatch, VerifyGroup;
    if candidates != [] {
      var first := candidates[0];
      var rest := candidates[1..];
      MatchesAreFullMatches(rest, ids);
      FullMatchIsVerified(first, ids);
      assert forall i | 0 <= i < |rest| :: rest[i] == candidates[i + 1];
      if FullMatch(first, ids) {
        assert |GroupMatches(candidates, ids)| == 1 + |GroupMatches(rest, ids)|;
        if GroupMatches(rest, ids) == [] { assert OnlyFullMatch(candidates, ids, 0); }
        forall i | 0 <= i < |candidates| && OnlyFullMatch(candidates, ids, i)
          ensures i == 0 && GroupMatches(rest, ids) == []
        {
          assert candidates[0] == first;
        }
      } else {
        assert GroupMatches(candidates, ids) == GroupMatches(rest, ids);
        forall i | 0 <= i < |rest| && OnlyFullMatch(rest, ids, i)
          ensures OnlyFullMatch(candidates, ids, i + 1)
        {}
        forall i | 0 <= i < |candidates| && OnlyFullMatch(candidates, ids, i)
          ensures i > 0 && OnlyFullMatch(rest, ids, i - 1)
        {}
      }
    }
  }

  ghost predicate OnlyFullMatch(candidates: seq<NativeTurn>, ids: seq<Id>, i: nat)
    requires i < |candidates|
  {
    && FullMatch(candidates[i], ids)
    && forall j | 0 <= j < |candidates| && FullMatch(candidates[j], ids) :: j == i
  }

  lemma ResolveGroupText(s: State, matches: seq<(NativeTurn, nat)>)
    requires s.turn.Some? && !s.turn.value.conflictReported
    ensures var t' := ResolveGroup(s, matches).turn.value;
            && t'.completed && t'.allAgentText == ""
            && (|matches| != 1 ==> t'.finalText.IdentityConflict?)
            && (|matches| == 1 ==>
                && t'.finalText == Rebuild(matches[0].0, matches[0].1)
                && (matches[0].0.id.Some? ==> t'.nativeId == matches[0].0.id == t'.canonical))
  {}

  lemma ScanResolves(s: State, candidates: seq<NativeTurn>, expired: bool)
    requires s.turn.Some? && !s.turn.value.completed && s.turn.value.lookup == GroupLookup
    ensures Step(s, HistoryScanned(candidates, false, expired))
         == ResolveGroup(FinishLookup(s), GroupMatches(candidates, SentIds(s.turn.value.accepted)))
  {}

  /** The text of the only full match, whatever witnesses its order. */
  lemma OnlyMatchText(candidates: seq<NativeTurn>, ids: seq<Id>, i: nat)
    requires i < |candidates| && OnlyFullMatch(candidates, ids, i)
    ensures forall at | InOrder(candidates[i].items, ids, at) ::
              at != [] && AnswersAfter(candidates[i], at[|at| - 1], Rebuild(candidates[i], LastMemberIndex(candidates[i], ids)))
  {
    hide Rebuild, AnswersAfter, VerifyFrom;
    GroupCheckIsExact(candidates[i], ids);
    forall at | InOrder(candidates[i].items, ids, at)
      ensures AnswersAfter(candidates[i], at[|at| - 1], Rebuild(candidates[i], LastMemberIndex(candidates[i], ids)))
    {
      RebuildIsExact(candidates[i], at[|at| - 1]);
    }
  }

  /** A history lookup settles an open group on a unique full match only, from that
      match's own items and under its id; with none or several it is an identity error. */
  lemma HistorySettlesOnUniqueMatch(s: State, candidates: seq<NativeTurn>, expired: bool)
    requires Identified(s) && s.turn.Some? && !s.turn.value.completed && s.turn.value.lookup == GroupLookup
    ensures var ids := SentIds(s.turn.value.accepted);
            var t' := Step(s, HistoryScanned(candidates, false, expired)).turn.value;
            && t'.completed && t'.allAgentText == ""
            && (t'.finalText.IdentityConflict? <==>
                !exists i :: 0 <= i < |candidates| && OnlyFullMatch(candidates, ids, i))
            && forall i | 0 <= i < |candidates| && OnlyFullMatch(candidates, ids, i) ::
                 && (candidates[i].id.Some? ==> t'.nativeId == candidates[i].id == t'.canonical)
                 && forall at | InOrder(candidates[i].items, ids, at) :: AnswersAfter(candidates[i], at[|at| - 1], t'.finalText)
  {
    hide Rebuild, AnswersAfter, InOrder, FullMatch;
    var ids := SentIds(s.turn.value.accepted);
    var matches := GroupMatches(candidates, ids);
    var s1 := FinishLookup(s);
    ScanResolves(s, candidates, expired);
    MatchesAreFullMatches(candidates, ids);
    ResolveGroupText(s1, matches);
    var t' := ResolveGroup(s1, matches).turn.value;
    if i :| 0 <= i < |candidates| && OnlyFullMatch(candidates, ids, i) {
      assert matches == [(candidates[i], LastMemberIndex(candidates[i], ids))];
      OnlyMatchText(candidates, ids, i);
      RebuiltIsNoConflict(candidates[i], LastMemberIndex(candidates[i], ids));
    } else {
      assert |matches| != 1;
    }
  }

  // ---- Lookups of a single root ------------------------------------------------------------

  /** The record is terminal and holds the client's user item exactly once. */
  predicate HoldsOnce(rec: NativeTurn, cid: Id) {
    rec.terminal && |ExactIndexes(rec, cid)| == 1
  }

  predicate HoldsOften(rec: NativeTurn, cid: Id) {
    rec.terminal && |ExactIndexes(rec, cid)| > 1
  }

  predicate OnlyHolder(candidates: seq<NativeTurn>, cid: Id, i: nat)
    requires i < |candidates|
  {
    HoldsOnce(candidates[i], cid) && forall j | 0 <= j < |candidates| && HoldsOnce(candidates[j], cid) :: j == i
  }

  lemma {:induction false} SingleMatchesAreHolders(candidates: seq<NativeTurn>, cid: Id)
    ensures SingleMatches(candidates, cid) == [] <==> forall i | 0 <= i < |candidates| :: !HoldsOnce(candidates[i], cid)
    ensures |SingleMatches(candidates, cid)| == 1 <==> exists i | 0 <= i < |candidates| :: OnlyHolder(candidates, cid, i)
    ensures forall i | 0 <= i < |candidates| && OnlyHolder(candidates, cid, i) ::
              SingleMatches(candidates, cid) == [(candidates[i], ExactIndexes(candidates[i], cid)[0])]
    decreases |candidates|
  {
    hide ExactIndexes;
    if candidates != [] {
      var first, rest := candidates[0], candidates[1..];
      SingleMatchesAreHolders(rest, cid);
      assert forall i | 0 <= i < |rest| :: rest[i] == candidates[i + 1];
      if HoldsOnce(first, cid) {
        assert |SingleMatches(candidates, cid)| == 1 + |SingleMatches(rest, cid)|;
        if SingleMatches(rest, cid) == [] { assert OnlyHolder(candidates, cid, 0); }
        forall i | 0 <= i < |candidates| && OnlyHolder(candidates, cid, i)
          ensures i == 0 && SingleMatches(rest, cid) == []
        {
          assert candidates[0] == first;
        }
      } else {
        assert SingleMatches(candidates, cid) == SingleMatches(rest, cid);
        forall i | 0 <= i < |rest| && OnlyHolder(rest, cid, i) ensures OnlyHolder(candidates, cid, i + 1) {}
        forall i | 0 <= i < |candidates| && OnlyHolder(candidates, cid, i) ensures i > 0 && OnlyHolder(rest, cid, i - 1) {}
      }
    }
  }

  /** A lookup that may keep its turn pending still waits for it. */
  predicate StillWaits(t: Turn, candidates: seq<NativeTurn>, expired: bool)
    requires t.lookup.SingleLookup?
  {
    && t.lookup.keepPending && t.lookup.armed && !expired
    && !(t.nativeId.Some? && exists c :: c in candidates && c.terminal && c.id == t.nativeId)
  }

  lemma HoldersAreScanned(candidates: seq<NativeTurn>, cid: Id)
    ensures (exists c :: c in candidates && c.terminal && |ExactIndexes(c, cid)| > 1)
       <==> exists i | 0 <= i < |candidates| :: HoldsOften(candidates[i], cid)
  {}

  /** A single root's lookup, exactly: it settles with the answer of the only terminal record
      that holds the client's item once, if no record holds it more often; it waits only for
      a turn still running, within its deadline, that no record holds; any other outcome is
      the identity error, and none carries streamed text. */
  lemma SingleLookupIsExact(s: State, candidates: seq<NativeTurn>, expired: bool)
    requires Identified(s) && s.turn.Some? && !s.turn.value.completed && s.turn.value.lookup.SingleLookup?
    ensures var t := s.turn.value;
            var cid := t.clientId.value;
            var s' := Step(s, HistoryScanned(candidates, false, expired));
            var often := exists i | 0 <= i < |candidates| :: HoldsOften(candidates[i], cid);
            var held := exists i | 0 <= i < |candidates| :: HoldsOnce(candidates[i], cid);
            && s'.turn.Some?
            && (s' == s <==> !often && !held && StillWaits(t, candidates, expired))
            && (s' != s ==> s'.turn.value.completed && s'.turn.value.allAgentText == "")
            && (forall i, k | 0 <= i < |candidates| && OnlyHolder(candidates, cid, i) && !often && HoldsAt(candidates[i], cid, k) ::
                  AnswersAfter(candidates[i], k, s'.turn.value.finalText))
            && (s' != s && (often || !exists i | 0 <= i < |candidates| :: OnlyHolder(candidates, cid, i))
                ==> s'.turn.value.finalText.IdentityConflict?)
  {
    hide Rebuild, AnswersAfter, ExactIndexes, HoldsAt;
    var cid := s.turn.value.clientId.value;
    HoldersAreScanned(candidates, cid);
    SingleMatchesAreHolders(candidates, cid);
    SingleMatchesAreTerminal(candidates, cid);
    SingleScanVerdict(s, candidates, expired);
    var s' := Step(s, HistoryScanned(candidates, false, expired));
    forall i, k | 0 <= i < |candidates| && OnlyHolder(candidates, cid, i) && HoldsAt(candidates[i], cid, k)
              && !(exists j | 0 <= j < |candidates| :: HoldsOften(candidates[j], cid))
      ensures AnswersAfter(candidates[i], k, s'.turn.value.finalText)
    {
      HeldOnceAt(candidates[i], cid, k);
    }
  }

  /** Item `k` of the record is the client's user item. */
  predicate HoldsAt(rec: NativeTurn, cid: Id, k: nat) {
    k < |rec.items| && rec.items[k] == UserMessage(Some(cid))
  }

  lemma HeldOnceAt(rec: NativeTurn, cid: Id, k: nat)
    requires HoldsOnce(rec, cid) && HoldsAt(rec, cid, k)
    ensures AnswersAfter(rec, k, Rebuild(rec, ExactIndexes(rec, cid)[0]))
  {
    hide Rebuild, AnswersAfter;
    IndexesAreOccurrences(rec.items, cid, 0);
    assert k in ExactIndexes(rec, cid);
    RebuildIsExact(rec, k);
  }

  /** The branches of the scan, before they are read as statements about the records. */
  lemma SingleScanVerdict(s: State, candidates: seq<NativeTurn>, expired: bool)
    requires Identified(s) && s.turn.Some? && !s.turn.value.completed && s.turn.value.lookup.SingleLookup?
    requires forall i | 0 <= i < |SingleMatches(candidates, s.turn.value.clientId.value)| ::
               SingleMatches(candidates, s.turn.value.clientId.value)[i].0.terminal
    ensures var t := s.turn.value;
            var s' := Step(s, HistoryScanned(candidates, false, expired));
            var often := exists c :: c in candidates && c.terminal && |ExactIndexes(c, t.clientId.value)| > 1;
            var matches := SingleMatches(candidates, t.clientId.value);
            && s'.turn.Some?
            && (s' == s <==> !often && matches == [] && StillWaits(t, candidates, expired))
            && (s' != s ==> s'.turn.value.completed && s'.turn.value.allAgentText == "")
            && (!often && |matches| == 1 ==> s'.turn.value.finalText == Rebuild(matches[0].0, matches[0].1))
            && (s' != s && (often || |matches| != 1) ==> s'.turn.value.finalText.IdentityConflict?)
  {
    hide ExactIndexes, SingleMatches, ReportConflict, CompleteSingle;
    assert Step(s, HistoryScanned(candidates, false, expired)) == OnSingleScanned(s, candidates, false, expired);
    forall reason ensures Conflicted(s, ReportConflict(FinishLookup(s), reason)) { ScanConflicts(s, reason); }
    var matches := SingleMatches(candidates, s.turn.value.clientId.value);
    if |matches| == 1 { ScanMatches(s, matches[0].0, matches[0].1); }
  }

  predicate Conflicted(s: State, s': State) {
    s' != s && s'.turn.Some? && s'.turn.value.completed && s'.turn.value.allAgentText == ""
    && s'.turn.value.finalText.IdentityConflict?
  }

  lemma ScanConflicts(s: State, reason: Reason)
    requires s.turn.Some? && !s.turn.value.completed && !s.turn.value.conflictReported
    ensures Conflicted(s, ReportConflict(FinishLookup(s), reason))
  {}

  lemma ScanMatches(s: State, rec: NativeTurn, index: nat)
    requires s.turn.Some? && !s.turn.value.completed && rec.terminal
    ensures var s' := CompleteSingle(FinishLookup(s), rec, Some(index));
            s' != s && s'.turn.Some? && s'.turn.value.completed && s'.turn.value.allAgentText == ""
            && s'.turn.value.finalText == Rebuild(rec, index)
  {}

  // ---- The finals of a group ------------------------------------------------------------

  /** A settled group of N yields exactly N finals in accepted order: the first N - 1 are
      empty, superseded and without usage; the last alone carries the answer and drains
      the usage of the native turn. The turn is then gone. */
  lemma GroupYieldsItsFinals(s: State)
    requires s.pc == AwaitDone && s.turn.Some? && s.turn.value.completed
    requires s.turn.value.phase != Fenced && |s.turn.value.accepted| >= 1
    ensures var s' := Step(s, TurnDone);
            var t := s.turn.value;
            var n := |t.accepted|;
            && s'.turn.None? && s'.pc == Returned
            && |s'.finals| == |s.finals| + n
            && (forall i | 0 <= i < |s.finals| :: s'.finals[i] == s.finals[i])
            && (forall k | 0 <= k < n - 1 ::
                  s'.finals[|s.finals| + k] == Final(t.accepted[k].input, t.nativeId, Said(""), true, None))
            && s'.finals[|s.finals| + n - 1]
               == Final(t.accepted[n - 1].input, t.nativeId, DeliveredText(t), false, UsageOf(s.usage, t.nativeId))
            && UsageOf(s'.usage, t.nativeId) == None
  {
    var t := s.turn.value;
    EmitGroupFinals(s, t, 0);
    var s1 := EmitGroup(s, t, 0);
    assert Step(s, TurnDone) == s1.(turn := None, pc := Returned);
    var n := |t.accepted|;
    forall k | 0 <= k < n - 1
      ensures s1.finals[|s.finals| + k] == Final(t.accepted[k].input, t.nativeId, Said(""), true, None)
    {
      assert s1.finals[|s.finals| + k - 0] == MemberFinal(t, k, s.usage);
    }
    assert s1.finals[|s.finals| + (n - 1) - 0] == MemberFinal(t, n - 1, s.usage);
    assert UsageOf(s1.usage, t.nativeId) == None;
  }

  // ---- The usage a final carries ----------------------------------------------------------

  /** The turn's usage notifications, in order. */
  function Metering(id: Id, readings: seq<Option<nat>>): seq<Event> {
    if readings == [] then [] else [Notify(TokenUsage(Some(id), readings[0]))] + Metering(id, readings[1..])
  }

  ghost predicate SamePeers(s: State, s': State, id: Id) {
    && s' == s.(usage := s'.usage)
    && forall other | other != id :: (other in s'.usage <==> other in s.usage)
                                     && (other in s.usage ==> s'.usage[other] == s.usage[other])
  }

  /** A final's usage is the last reading of its native turn, and none as soon as one reading was
      malformed: a later good reading does not heal it. No other turn's usage is touched. */
  lemma {:induction false} UsageIsLastReading(s: State, id: Id, readings: seq<Option<nat>>)
    requires readings != []
    ensures var s' := Run(s, Metering(id, readings));
            var poisoned := (id in s.usage && s.usage[id].None?) || None in readings;
            && SamePeers(s, s', id)
            && UsageOf(s'.usage, Some(id)) == if poisoned then None else readings[|readings| - 1]
    decreases |readings|
  {
    var e, rest := Notify(TokenUsage(Some(id), readings[0])), readings[1..];
    var s1 := Step(s, e);
    assert readings == [readings[0]] + rest;
    assert Metering(id, readings)[1..] == Metering(id, rest);
    assert Run(s, Metering(id, readings)) == Run(s1, Metering(id, rest));
    if rest == [] {
      assert Run(s1, []) == s1;
    } else {
      UsageIsLastReading(s1, id, rest);
    }
  }

  // ---- Idle announcements ---------------------------------------------------------------

  lemma SteerErrorAnnouncesNothing(s: State, refusal: Failure)
    ensures IdleAnnouncements(OnSteerError(s, refusal).published) == IdleAnnouncements(s.published)
  {
    if s.turn.Some? { RouteHeldSteady(CloseSteering(s)); }
  }

  lemma SteerResponseAnnouncesNothing(s: State, steeredId: Option<Id>)
    ensures IdleAnnouncements(OnSteerResponse(s, steeredId).published) == IdleAnnouncements(s.published)
  {
    if SteerAccepted(s, steeredId) { AfterJoinSteady(JoinGroup(s, s.steer.value), s.steer.value.epoch); }
  }

  lemma EndOfBodyAnnouncesNothing(s: State)
    ensures IdleAnnouncements(EndOfBody(s).published) == IdleAnnouncements(s.published)
  {
    PublishBusySteady(s);
  }

  lemma FailureAnnouncesNothing(s: State, input: Input, message: string)
    ensures IdleAnnouncements(AnswerFailure(s, input, message).published) == IdleAnnouncements(s.published)
  {
    if !s.fenced { EndOfBodyAnnouncesNothing(FailureFinal(s, input, message)); }
  }

  lemma DrainAnnouncesNothing(s: State)
    ensures IdleAnnouncements(OnDrainResumed(s).published) == IdleAnnouncements(s.published)
  {
    if s.pc == Returned { EndOfBodyAnnouncesNothing(s); }
    else if s.pc.Threw? && s.turn.Some? && |s.turn.value.accepted| > 0 {
      FailureAnnouncesNothing(s, s.turn.value.accepted[0].input, s.pc.message);
    }
  }

  lemma OthersAnnounceNothing(s: State, e: Event)
    requires Identified(s) && !e.IdleTimerFired?
    ensures IdleAnnouncements(Step(s, e).published) == IdleAnnouncements(s.published)
  {
    match e {
      case RootResponse(responseId) => OnRootResponseCalm(s, responseId);
      case RootError(failure) => OnRootErrorSteady(s, failure);
      case SteerResponse(steeredId) => SteerResponseAnnouncesNothing(s, steeredId);
      case SteerError(refusal) => SteerErrorAnnouncesNothing(s, refusal);
      case Notify(note) => OnNoteSteady(s, note, false);
      case HistoryScanned(candidates, failed, expired) => OnHistoryScannedSteady(s, candidates, failed, expired);
      case TurnDone => if s.turn.Some? { EmitGroupFrame(s, s.turn.value, 0); }
      case ThreadFailed(message) => if s.pc.Dequeued? { FailureAnnouncesNothing(s, s.pc.input, message); }
      case DrainResumed => DrainAnnouncesNothing(s);
      case ControlReaccepted => PublishBusySteady(s);
      case _ =>
    }
  }

  /** An idle state is announced only when it is true: no drain running, nothing queued and
      no native turn open. */
  lemma IdleIsAnnouncedTruthfully(s: State, e: Event)
    requires Identified(s)
    requires IdleAnnouncements(Step(s, e).published) != IdleAnnouncements(s.published)
    ensures e.IdleTimerFired? && !s.fenced
    ensures s.pc == Idle && s.queue == [] && s.nativeActive.None?
    ensures Sound(s) && !s.overlapped ==> s.turn.None?
  {
    if !e.IdleTimerFired? { OthersAnnounceNothing(s, e); }
    assert (s.published + [Busy(s)])[..|s.published|] == s.published;
  }
}
