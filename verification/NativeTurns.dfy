/** Native turn records of the app-server, and the attribution of a record to the
    ordered group of inputs that was steered into it. */
module NativeTurns {
  import opened Prelude

  /** A native turn id, client id or item id; a non-empty string in the program. */
  type Id = nat

  datatype Item =
    | UserMessage(clientId: Option<Id>)
    | AgentMessage(finalAnswer: bool, text: string)
    | OtherItem

  /** `full` is itemsView === 'full'; `error` holds a non-empty error message. */
  datatype NativeTurn = NativeTurn(
    id: Option<Id>, terminal: bool, full: bool, items: seq<Item>, error: Option<string>)

  /** Why an identity could not be attributed; each stands for one diagnostic text. */
  datatype Reason =
    | MemberMissing | MemberRepeated | MembersUnordered
    | NoClientId | LookupFailed | ClientIdRepeated
    | ManyMatches | NoMatch | TerminatedWithoutMatch | DeadlineWithoutMatch
    | ManyPreResponse
    | GroupLookupFailed | NoFullGroup | ManyFullGroups

  /** The text of a final: what the model said, or one of the runner's own error texts. */
  datatype Answer =
    | Said(text: string)
    | IdentityConflict(reason: Reason)
    | NativeFailure(message: string)
    | RunnerError(failure: string)

  datatype Verdict = Matched(lastIndex: int) | Refused(reason: Reason)

  function IndexesFrom(items: seq<Item>, cid: Id, from: nat): seq<nat>
    requires from <= |items|
    decreases |items| - from
  {
    if from == |items| then []
    else (if items[from] == UserMessage(Some(cid)) then [from] else []) + IndexesFrom(items, cid, from + 1)
  }

  /** exactClientItemIndexes: where the record holds the user item of `cid`. */
  function ExactIndexes(rec: NativeTurn, cid: Id): seq<nat> {
    if rec.full then IndexesFrom(rec.items, cid, 0) else []
  }

  function LastFinalAnswer(items: seq<Item>): Option<string> {
    if items == [] then None
    else
      var last := items[|items| - 1];
      if last.AgentMessage? && last.finalAnswer then Some(last.text)
      else LastFinalAnswer(items[..|items| - 1])
  }

  /** rebuildReconciledFinal: the answer found after one user item. */
  function Rebuild(rec: NativeTurn, index: nat): Answer {
    var following := if index + 1 <= |rec.items| then rec.items[index + 1..] else [];
    match LastFinalAnswer(following)
    case Some(text) => Said(text)
    case None => if rec.error.Some? then NativeFailure(rec.error.value) else Said("")
  }

  function VerifyFrom(rec: NativeTurn, ids: seq<Id>, previous: int): Verdict {
    if ids == [] then Matched(previous)
    else
      var found := ExactIndexes(rec, ids[0]);
      if |found| == 0 then Refused(MemberMissing)
      else if |found| > 1 then Refused(MemberRepeated)
      else if found[0] <= previous then Refused(MembersUnordered)
      else VerifyFrom(rec, ids[1..], found[0])
  }

  /** verifyGroupSubsequence over the client ids the group actually sent. */
  function VerifyGroup(rec: NativeTurn, ids: seq<Id>): Verdict {
    if !rec.full || ids == [] then Matched(-1) else VerifyFrom(rec, ids, -1)
  }

  // ---- The loops of the program, against the functions above -------------------

  method FindExactIndexes(rec: NativeTurn, cid: Id) returns (indexes: seq<nat>)
    ensures indexes == ExactIndexes(rec, cid)
  {
    if !rec.full { return []; }
    indexes := [];
    var index := 0;
    while index < |rec.items|
      invariant index <= |rec.items|
      invariant indexes + IndexesFrom(rec.items, cid, index) == IndexesFrom(rec.items, cid, 0)
    {
      if rec.items[index] == UserMessage(Some(cid)) { indexes := indexes + [index]; }
      index := index + 1;
    }
  }

  method CheckGroup(rec: NativeTurn, ids: seq<Id>) returns (verdict: Verdict)
    ensures verdict == VerifyGroup(rec, ids)
  {
    if !rec.full || |ids| == 0 { return Matched(-1); }
    var previousIndex: int := -1;
    var k := 0;
    while k < |ids|
      invariant k <= |ids|
      invariant VerifyFrom(rec, ids, -1) == VerifyFrom(rec, ids[k..], previousIndex)
    {
      var indexes := FindExactIndexes(rec, ids[k]);
      if |indexes| != 1 || indexes[0] <= previousIndex {
        return Refused(if |indexes| == 0 then MemberMissing else if |indexes| > 1 then MemberRepeated else MembersUnordered);
      }
      assert ids[k..][1..] == ids[k + 1..];
      previousIndex := indexes[0];
      k := k + 1;
    }
    return Matched(previousIndex);
  }

  // ---- What a match means ----------------------------------------------------

  /** Every id occurs exactly once, and the occurrences come in the order of `ids`. */
  ghost predicate InOrder(items: seq<Item>, ids: seq<Id>, at: seq<nat>) {
    && |at| == |ids|
    && (forall k | 0 <= k < |ids| :: at[k] < |items| && items[at[k]] == UserMessage(Some(ids[k])))
    && (forall k, i | 0 <= k < |ids| && 0 <= i < |items| && items[i] == UserMessage(Some(ids[k])) :: i == at[k])
    && (forall j, k | 0 <= j < k < |at| :: at[j] < at[k])
  }

  lemma {:induction false} IndexesAreOccurrences(items: seq<Item>, cid: Id, from: nat)
    requires from <= |items|
    ensures forall i :: i in IndexesFrom(items, cid, from) <==> from <= i < |items| && items[i] == UserMessage(Some(cid))
    ensures forall j, k | 0 <= j < k < |IndexesFrom(items, cid, from)| ::
              IndexesFrom(items, cid, from)[j] < IndexesFrom(items, cid, from)[k]
    decreases |items| - from
  {
    if from < |items| {
      IndexesAreOccurrences(items, cid, from + 1);
      var rest := IndexesFrom(items, cid, from + 1);
      var here := if items[from] == UserMessage(Some(cid)) then [from] else [];
      assert IndexesFrom(items, cid, from) == here + rest;
      forall j, k | 0 <= j < k < |here + rest|
        ensures (here + rest)[j] < (here + rest)[k]
      {
        assert (here + rest)[k] in rest;
      }
    }
  }

  lemma SingleOccurrence(rec: NativeTurn, cid: Id, i: nat)
    requires rec.full
    ensures ExactIndexes(rec, cid) == [i]
       <==> i < |rec.items| && rec.items[i] == UserMessage(Some(cid))
            && forall j | 0 <= j < |rec.items| && rec.items[j] == UserMessage(Some(cid)) :: j == i
  {
    IndexesAreOccurrences(rec.items, cid, 0);
    var found := ExactIndexes(rec, cid);
    if found == [i] {
      assert i in found;
      forall j | 0 <= j < |rec.items| && rec.items[j] == UserMessage(Some(cid)) ensures j == i {
        assert j in found;
      }
    } else if i < |rec.items| && rec.items[i] == UserMessage(Some(cid))
           && forall j | 0 <= j < |rec.items| && rec.items[j] == UserMessage(Some(cid)) :: j == i {
      assert i in found;
      assert found[0] in found;
      if |found| > 1 { assert found[1] in found; }
    }
  }

  lemma {:induction false} MatchedFromIsInOrder(rec: NativeTurn, ids: seq<Id>, previous: int) returns (at: seq<nat>)
    requires rec.full && VerifyFrom(rec, ids, previous).Matched?
    ensures InOrder(rec.items, ids, at)
    ensures forall k | 0 <= k < |at| :: previous < at[k]
    ensures VerifyFrom(rec, ids, previous).lastIndex == if ids == [] then previous else at[|at| - 1]
    decreases |ids|
  {
    if ids == [] {
      at := [];
    } else {
      var here := ExactIndexes(rec, ids[0])[0];
      SingleOccurrence(rec, ids[0], here);
      var rest := MatchedFromIsInOrder(rec, ids[1..], here);
      at := [here] + rest;
    }
  }

  lemma {:induction false} InOrderIsMatchedFrom(rec: NativeTurn, ids: seq<Id>, previous: int, at: seq<nat>)
    requires rec.full && InOrder(rec.items, ids, at)
    requires ids != [] ==> previous < at[0]
    ensures VerifyFrom(rec, ids, previous) == Matched(if ids == [] then previous else at[|at| - 1])
    decreases |ids|
  {
    if ids != [] {
      SingleOccurrence(rec, ids[0], at[0]);
      assert InOrder(rec.items, ids[1..], at[1..]) by {
        forall k, i | 0 <= k < |ids[1..]| && 0 <= i < |rec.items| && rec.items[i] == UserMessage(Some(ids[1..][k]))
          ensures i == at[1..][k]
        {
          assert ids[1..][k] == ids[k + 1];
        }
      }
      InOrderIsMatchedFrom(rec, ids[1..], at[0], at[1..]);
    }
  }

  /** The group check is exact: a full record matches just when every sent id occurs
      once and in accepted order, and the index reported is the last member's. */
  lemma GroupCheckIsExact(rec: NativeTurn, ids: seq<Id>)
    requires rec.full && ids != []
    ensures VerifyGroup(rec, ids).Matched? <==> exists at :: InOrder(rec.items, ids, at)
    ensures forall at | InOrder(rec.items, ids, at) :: VerifyGroup(rec, ids) == Matched(at[|at| - 1])
    ensures VerifyGroup(rec, ids).Matched? ==> 0 <= VerifyGroup(rec, ids).lastIndex < |rec.items|
  {
    if VerifyGroup(rec, ids).Matched? {
      var at := MatchedFromIsInOrder(rec, ids, -1);
    }
    forall at | InOrder(rec.items, ids, at)
      ensures VerifyGroup(rec, ids) == Matched(at[|at| - 1])
    {
      InOrderIsMatchedFrom(rec, ids, -1, at);
    }
  }

  /** The sent id `k` spoils the order: it does not occur, occurs more than once, or occurs no later than the
      one before it, and all before it are in order. */
  ghost predicate SpoiltAt(items: seq<Item>, ids: seq<Id>, previous: int, k: nat, reason: Reason) {
    && k < |ids|
    && (exists at :: InOrder(items, ids[..k], at) && (k > 0 ==> previous < at[0])
                     && Spoils(items, ids[k], if k > 0 then at[k - 1] else previous, reason))
  }

  predicate Spoils(items: seq<Item>, id: Id, previous: int, reason: Reason) {
    match reason
    case MemberMissing => forall i | 0 <= i < |items| :: items[i] != UserMessage(Some(id))
    case MemberRepeated =>
      exists i, j | 0 <= i < j < |items| :: items[i] == UserMessage(Some(id)) && items[j] == UserMessage(Some(id))
    case MembersUnordered =>
      exists i | 0 <= i < |items| :: items[i] == UserMessage(Some(id)) && i <= previous
                 && forall j | 0 <= j < |items| && items[j] == UserMessage(Some(id)) :: j == i
    case _ => false
  }

  lemma OccurrencesSpoil(rec: NativeTurn, id: Id, previous: int)
    requires rec.full
    ensures |ExactIndexes(rec, id)| == 0 ==> Spoils(rec.items, id, previous, MemberMissing)
    ensures |ExactIndexes(rec, id)| > 1 ==> Spoils(rec.items, id, previous, MemberRepeated)
    ensures |ExactIndexes(rec, id)| == 1 && ExactIndexes(rec, id)[0] <= previous ==>
              Spoils(rec.items, id, previous, MembersUnordered)
  {
    IndexesAreOccurrences(rec.items, id, 0);
    var found := ExactIndexes(rec, id);
    if found == [] {
      forall i | 0 <= i < |rec.items| ensures rec.items[i] != UserMessage(Some(id)) { assert i !in found; }
    } else if |found| > 1 {
      assert found[0] in found && found[1] in found && found[0] < found[1];
    } else {
      SingleOccurrence(rec, id, found[0]);
    }
  }

  lemma {:induction false} RefusedFromIsSpoilt(rec: NativeTurn, ids: seq<Id>, previous: int) returns (k: nat)
    requires rec.full && VerifyFrom(rec, ids, previous).Refused?
    ensures SpoiltAt(rec.items, ids, previous, k, VerifyFrom(rec, ids, previous).reason)
    decreases |ids|
  {
    hide Spoils, ExactIndexes;
    var found := ExactIndexes(rec, ids[0]);
    OccurrencesSpoil(rec, ids[0], previous);
    if |found| != 1 || found[0] <= previous {
      k := 0;
      assert InOrder(rec.items, ids[..0], []);
    } else {
      SingleOccurrence(rec, ids[0], found[0]);
      var later := RefusedFromIsSpoilt(rec, ids[1..], found[0]);
      k := later + 1;
      SpoiltLater(rec.items, ids, previous, found[0], later, VerifyFrom(rec, ids[1..], found[0]).reason);
    }
  }

  lemma SpoiltLater(items: seq<Item>, ids: seq<Id>, previous: int, here: nat, later: nat, reason: Reason)
    requires ids != [] && previous < here < |items| && items[here] == UserMessage(Some(ids[0]))
    requires forall j | 0 <= j < |items| && items[j] == UserMessage(Some(ids[0])) :: j == here
    requires SpoiltAt(items, ids[1..], here, later, reason)
    ensures SpoiltAt(items, ids, previous, later + 1, reason)
  {
    hide Spoils;
    var rest := ids[1..];
    var at :| InOrder(items, rest[..later], at) && (later > 0 ==> here < at[0])
              && Spoils(items, rest[later], if later > 0 then at[later - 1] else here, reason);
    assert ids[..later + 1] == [ids[0]] + rest[..later];
    FirstInOrder(items, ids[0], rest[..later], here, at);
    WitnessSpoilt(items, ids, previous, [here] + at, later + 1, reason);
  }

  lemma WitnessSpoilt(items: seq<Item>, ids: seq<Id>, previous: int, at: seq<nat>, k: nat, reason: Reason)
    requires 0 < k < |ids| && |at| == k && InOrder(items, ids[..k], at) && previous < at[0]
    requires Spoils(items, ids[k], at[k - 1], reason)
    ensures SpoiltAt(items, ids, previous, k, reason)
  {
    hide InOrder, Spoils;
  }

  lemma FirstInOrder(items: seq<Item>, id: Id, rest: seq<Id>, here: nat, at: seq<nat>)
    requires InOrder(items, rest, at) && (at != [] ==> here < at[0])
    requires here < |items| && items[here] == UserMessage(Some(id))
    requires forall j | 0 <= j < |items| && items[j] == UserMessage(Some(id)) :: j == here
    ensures InOrder(items, [id] + rest, [here] + at)
  {
    var ids, all := [id] + rest, [here] + at;
    forall k, i | 0 <= k < |ids| && 0 <= i < |items| && items[i] == UserMessage(Some(ids[k])) ensures i == all[k] {
      if k > 0 { assert ids[k] == rest[k - 1]; }
    }
    forall j, k | 0 <= j < k < |all| ensures all[j] < all[k] {
      if j == 0 && k > 1 { assert at[0] < at[k - 1]; }
    }
  }

  /** A refusal names its cause: the first sent id that spoils the order, and how it does. */
  lemma GroupRefusalIsExact(rec: NativeTurn, ids: seq<Id>) returns (k: nat)
    requires VerifyGroup(rec, ids).Refused?
    ensures SpoiltAt(rec.items, ids, -1, k, VerifyGroup(rec, ids).reason)
  {
    k := RefusedFromIsSpoilt(rec, ids, -1);
  }

  // ---- What the rebuilt answer is ----------------------------------------------

  predicate IsFinalAnswer(item: Item) {
    item.AgentMessage? && item.finalAnswer
  }

  /** Item `i` is the last final answer after item `index`. */
  ghost predicate LastAnswerAt(items: seq<Item>, index: nat, i: int) {
    && index < i < |items| && IsFinalAnswer(items[i])
    && forall j | i < j < |items| :: !IsFinalAnswer(items[j])
  }

  /** `a` is what the record answers after item `index`: the text of the last final answer there;
      without one the record's error, and without that nothing. */
  ghost predicate AnswersAfter(rec: NativeTurn, index: nat, a: Answer) {
    && (forall i | LastAnswerAt(rec.items, index, i) :: a == Said(rec.items[i].text))
    && ((forall i | index < i < |rec.items| :: !IsFinalAnswer(rec.items[i])) ==>
        a == if rec.error.Some? then NativeFailure(rec.error.value) else Said(""))
  }

  /** The last final answer of a record, by position. */
  lemma {:induction false} LastFinalAnswerIsLast(items: seq<Item>) returns (last: int)
    ensures LastFinalAnswer(items).Some? ==>
              0 <= last < |items| && IsFinalAnswer(items[last]) && LastFinalAnswer(items).value == items[last].text
    ensures LastFinalAnswer(items).None? ==> last == -1
    ensures forall j | last < j < |items| :: !IsFinalAnswer(items[j])
  {
    if items == [] {
      last := -1;
    } else if IsFinalAnswer(items[|items| - 1]) {
      last := |items| - 1;
    } else {
      last := LastFinalAnswerIsLast(items[..|items| - 1]);
    }
  }

  /** The rebuilt answer is what the record answers after the index, and nothing else is. */
  lemma RebuildIsExact(rec: NativeTurn, index: nat)
    requires index < |rec.items|
    ensures forall a :: AnswersAfter(rec, index, a) <==> a == Rebuild(rec, index)
  {
    hide LastFinalAnswer;
    var following := rec.items[index + 1..];
    var last := LastFinalAnswerIsLast(following);
    assert forall j | index < j < |rec.items| :: rec.items[j] == following[j - index - 1];
    if LastFinalAnswer(following).Some? {
      var i := index + 1 + last;
      assert LastAnswerAt(rec.items, index, i);
      forall k | LastAnswerAt(rec.items, index, k) ensures k == i {}
      assert Rebuild(rec, index) == Said(rec.items[i].text);
    } else {
      assert forall j | index < j < |rec.items| :: !IsFinalAnswer(rec.items[j]);
    }
  }

  /** Nothing at or before the last member's item can reach the delivered answer. */
  lemma AnswerIgnoresEarlierItems(rec: NativeTurn, index: nat, earlier: seq<Item>)
    requires index < |rec.items|
    ensures Rebuild(rec, index) == Rebuild(rec.(items := earlier + [OtherItem] + rec.items[index + 1..]), |earlier|)
  {
    var other := rec.(items := earlier + [OtherItem] + rec.items[index + 1..]);
    assert other.items[|earlier| + 1..] == rec.items[index + 1..];
  }
}
